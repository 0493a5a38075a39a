/** The whole path of a request: build, compile, sign, serialize; and back: parse, expand, decode. */
module Pipeline {
  import opened Bytes
  import opened Keys
  import opened Message
  import opened KeyTable
  import opened CompileTheorems
  import opened Transaction
  import opened ProgramIds
  import SystemProgram
  import TokenProgram
  import Loader

  datatype Request =
    | System(system: SystemProgram.SystemRequest)
    | Token(token: TokenProgram.TokenRequest)
    | Associated(associated: TokenProgram.AssociatedRequest)
    | Load(load: Loader.LoaderRequest)

  ghost function Build(r: Request): Instruction {
    match r
    case System(s) => SystemProgram.Build(s)
    case Token(t) => TokenProgram.Build(t)
    case Associated(a) => TokenProgram.BuildAssociated(a)
    case Load(l) => Loader.Build(l)
  }

  ghost function BuildAll(rs: seq<Request>): seq<Instruction> {
    seq(|rs|, i requires 0 <= i < |rs| => Build(rs[i]))
  }

  function Wrap<T, U>(o: Option<T>, f: T -> U): Option<U> {
    match o
    case None => None
    case Some(x) => Some(f(x))
  }

  /** What a reader of the chain makes of an instruction: its program, its account keys and its data. */
  ghost function DecodeInstruction(ix: Instruction): Option<Request> {
    var ks := KeysOf(ix.accounts);
    if ix.programId == SYSTEM_PROGRAM_ID then Wrap(SystemProgram.DecodeRequest(ks, ix.data), s => System(s))
    else if ix.programId == TOKEN_PROGRAM_ID then Wrap(TokenProgram.DecodeRequest(ks, ix.data), t => Token(t))
    else if ix.programId == ASSOCIATED_TOKEN_PROGRAM_ID then
      Wrap(TokenProgram.DecodeAssociated(ks, ix.data), a => Associated(a))
    else if ix.programId == BPF_LOADER_PROGRAM_ID then Wrap(Loader.DecodeRequest(ks, ix.data), l => Load(l))
    else None
  }

  /** One decoder for all four programs; no two requests build to instructions a reader could confuse. */
  lemma RequestRoundTrip(r: Request, ix: Instruction)
    requires ix.programId == Build(r).programId && ix.data == Build(r).data
    requires KeysOf(ix.accounts) == KeysOf(Build(r).accounts)
    ensures DecodeInstruction(ix) == Some(r)
  {
    hide SystemProgram.DecodeRequest, TokenProgram.DecodeRequest, TokenProgram.DecodeAssociated, Loader.DecodeRequest,
      KeysOf;
    ProgramIdsDistinct();
    match r
    case System(s) => SystemProgram.SystemRoundTrip(s);
    case Token(t) => TokenProgram.TokenRoundTrip(t);
    case Associated(a) => TokenProgram.AssociatedRoundTrip(a);
    case Load(l) => Loader.LoaderRoundTrip(l);
  }

  /** Only what a builder builds decodes, and to the request it was built from. */
  lemma DecodesIffBuilt(r: Request, ix: Instruction)
    ensures DecodeInstruction(ix) == Some(r) <==>
      && ix.programId == Build(r).programId && ix.data == Build(r).data
      && KeysOf(ix.accounts) == KeysOf(Build(r).accounts)
  {
    if ix.programId == Build(r).programId && ix.data == Build(r).data
      && KeysOf(ix.accounts) == KeysOf(Build(r).accounts) {
      hide Build, KeysOf, DecodeInstruction;
      RequestRoundTrip(r, ix);
    }
    if DecodeInstruction(ix) == Some(r) { DecodedWasBuilt(r, ix); }
  }

  /** Each decoder is reached by its own program id alone. */
  lemma DecodedBy(r: Request, ix: Instruction)
    requires DecodeInstruction(ix) == Some(r)
    ensures var ks := KeysOf(ix.accounts);
      match r
      case System(s) => ix.programId == SYSTEM_PROGRAM_ID && SystemProgram.DecodeRequest(ks, ix.data) == Some(s)
      case Token(t) => ix.programId == TOKEN_PROGRAM_ID && TokenProgram.DecodeRequest(ks, ix.data) == Some(t)
      case Associated(a) =>
        ix.programId == ASSOCIATED_TOKEN_PROGRAM_ID && TokenProgram.DecodeAssociated(ks, ix.data) == Some(a)
      case Load(l) => ix.programId == BPF_LOADER_PROGRAM_ID && Loader.DecodeRequest(ks, ix.data) == Some(l)
  {
    hide SystemProgram.DecodeRequest, TokenProgram.DecodeRequest, TokenProgram.DecodeAssociated, Loader.DecodeRequest,
      KeysOf;
  }

  lemma DecodedWasBuilt(r: Request, ix: Instruction)
    requires DecodeInstruction(ix) == Some(r)
    ensures ix.programId == Build(r).programId && ix.data == Build(r).data
    ensures KeysOf(ix.accounts) == KeysOf(Build(r).accounts)
  {
    DecodedBy(r, ix);
    hide DecodeInstruction, SystemProgram.DecodeRequest, TokenProgram.DecodeRequest, TokenProgram.DecodeAssociated,
      Loader.DecodeRequest, KeysOf, SystemProgram.Accounts, TokenProgram.Accounts, Loader.Accounts,
      SystemProgram.DataFields, TokenProgram.DataFields, Loader.DataFields, TokenProgram.AssociatedFields;
    var ks := KeysOf(ix.accounts);
    match r
    case System(s) => SystemProgram.SystemDecodeSound(ks, ix.data);
    case Token(t) => TokenProgram.TokenDecodeSound(ks, ix.data);
    case Associated(a) => TokenProgram.AssociatedDecodeSound(ks, ix.data);
    case Load(l) => Loader.LoaderDecodeSound(ks, ix.data);
  }

  /** No two different requests, of one builder or of two, of one program or of two, build to the same program, account
      keys and data. */
  lemma BuildersNeverCollide(r: Request, q: Request)
    ensures r == q <==>
      Build(r).programId == Build(q).programId && Build(r).data == Build(q).data
      && KeysOf(Build(r).accounts) == KeysOf(Build(q).accounts)
  {
    hide Build, KeysOf, DecodeInstruction;
    RequestRoundTrip(r, Build(r));
    if Build(r).programId == Build(q).programId && Build(r).data == Build(q).data
      && KeysOf(Build(r).accounts) == KeysOf(Build(q).accounts) {
      RequestRoundTrip(q, Build(r));
    }
  }

  /** The limits of the wire format on a request list: u32 counts of instructions, of accounts and of data bytes. */
  ghost predicate WithinWireLimits(ixs: seq<Instruction>) {
    && |ixs| < U32_LIMIT
    && forall i :: 0 <= i < |ixs| ==> |ixs[i].accounts| < U32_LIMIT && |ixs[i].data| < U32_LIMIT
  }

  lemma CompiledFits(ixs: seq<Instruction>, payer: Option<Pubkey>, blockhash: Hash, m: SanitizedMessage)
    requires WithinWireLimits(ixs) && Compile(ixs, payer, blockhash) == Some(m)
    ensures MessageFits(m)
  {
    hide Compile;
    CompiledShape(ixs, payer, blockhash, m);
    forall i | 0 <= i < |m.instructions|
      ensures InstructionFits(m.instructions[i])
    {
      CompiledAt(ixs, payer, blockhash, i);
    }
  }

  /** The keys a request names as signing. */
  ghost function SigningKeys(r: Request): set<Pubkey> {
    match r
    case System(s) => SystemProgram.Consenting(s)
    case Token(t) => TokenProgram.SigningKeys(t)
    case Associated(a) => {a.funder}
    case Load(l) =>
      {l.authority}
      + (if l.Truncate? || l.TransferAuthority? || l.Finalize? then {l.program} else {})
      + (if l.TransferAuthority? then {l.newAuthority} else {})
  }

  lemma RequestSigners(r: Request, k: Pubkey)
    ensures SignedBy(Build(r), k) <==> k in SigningKeys(r)
  {
    match r
    case System(s) => SystemProgram.SystemFlags(s, k);
    case Token(t) => TokenProgram.TokenFlags(t, k);
    case Associated(a) => TokenProgram.AssociatedFlags(a, k);
    case Load(l) => Loader.LoaderFlags(l, k);
  }

  lemma SignersOfRequests(rs: seq<Request>, payer: Option<Pubkey>, k: Pubkey)
    ensures MustSign(BuildAll(rs), payer, k) <==> payer == Some(k) || exists r :: r in rs && k in SigningKeys(r)
  {
    hide SigningKeys, SignedBy, Build;
    var ixs := BuildAll(rs);
    forall i | 0 <= i < |rs|
      ensures ixs[i] in ixs && rs[i] in rs && (SignedBy(ixs[i], k) <==> k in SigningKeys(rs[i]))
    {
      RequestSigners(rs[i], k);
    }
    if ix :| ix in ixs && SignedBy(ix, k) {
      var i: nat :| i < |ixs| && ixs[i] == ix;
    }
    if r :| r in rs && k in SigningKeys(r) {
      var i: nat :| i < |rs| && rs[i] == r;
    }
  }

  /** The accounts a request changes. */
  ghost function ChangedKeys(r: Request): set<Pubkey> {
    match r
    case System(s) => SystemProgram.Changed(s)
    case Token(t) => TokenProgram.ChangedAccounts(t)
    case Associated(a) => {a.funder, a.account}
    case Load(l) => {l.program}
  }

  lemma RequestChanges(r: Request, k: Pubkey)
    ensures WrittenBy(Build(r), k) <==> k in ChangedKeys(r)
  {
    match r
    case System(s) => SystemProgram.SystemFlags(s, k);
    case Token(t) => TokenProgram.TokenFlags(t, k);
    case Associated(a) => TokenProgram.AssociatedFlags(a, k);
    case Load(l) => Loader.LoaderFlags(l, k);
  }

  /** The keys compiled as writable are the payer and the accounts some request changes. */
  lemma ChangesOfRequests(rs: seq<Request>, payer: Option<Pubkey>, k: Pubkey)
    ensures MustWrite(BuildAll(rs), payer, k) <==> payer == Some(k) || exists r :: r in rs && k in ChangedKeys(r)
  {
    hide ChangedKeys, WrittenBy, Build;
    var ixs := BuildAll(rs);
    forall i | 0 <= i < |rs|
      ensures ixs[i] in ixs && rs[i] in rs && (WrittenBy(ixs[i], k) <==> k in ChangedKeys(rs[i]))
    {
      RequestChanges(rs[i], k);
    }
    if ix :| ix in ixs && WrittenBy(ix, k) {
      var i: nat :| i < |ixs| && ixs[i] == ix;
    }
    if r :| r in rs && k in ChangedKeys(r) {
      var i: nat :| i < |rs| && rs[i] == r;
    }
  }

  /** The privileges of a compiled request list, read off header and position alone, are those the requests call for. */
  lemma RequestPrivileges(
    rs: seq<Request>, payer: Option<Pubkey>, blockhash: Hash, m: SanitizedMessage, i: nat)
    requires Compile(BuildAll(rs), payer, blockhash) == Some(m) && i < |m.accountKeys|
    ensures var k := m.accountKeys[i];
      && (SignsAt(m, i) <==> payer == Some(k) || exists r :: r in rs && k in SigningKeys(r))
      && (WritableAt(m, i) <==> payer == Some(k) || exists r :: r in rs && k in ChangedKeys(r))
  {
    hide Compile, BuildAll, MustSign, MustWrite, SigningKeys, ChangedKeys;
    PrivilegesFromPositions(BuildAll(rs), payer, blockhash, m, i);
    SignersOfRequests(rs, payer, m.accountKeys[i]);
    ChangesOfRequests(rs, payer, m.accountKeys[i]);
  }

  /** The signers, in any order and with repeats, hold a key for the payer and for every key some request names as
      signing. */
  ghost predicate Covered(c: Scheme, rs: seq<Request>, payer: Option<Pubkey>, signers: seq<PrivateKey>) {
    && (payer.Some? ==> HasSigner(c, signers, payer.value))
    && forall r, k :: r in rs && k in SigningKeys(r) ==> HasSigner(c, signers, k)
  }

  lemma CoveredMustSign(c: Scheme, rs: seq<Request>, payer: Option<Pubkey>, signers: seq<PrivateKey>)
    ensures Covered(c, rs, payer, signers) <==>
      forall k :: MustSign(BuildAll(rs), payer, k) ==> HasSigner(c, signers, k)
  {
    hide HasSigner, SigningKeys, MustSign, BuildAll;
    forall k { SignersOfRequests(rs, payer, k); }
  }

  /** The wire half, whatever the signatures: a transaction that carries the compiled requests parses back to itself
      with nothing left over, and expanding and decoding its message gives back the requests in order, each account
      with exactly the privileges some request, or being the payer, calls for. */
  lemma RequestsCrossTheWire(
    rs: seq<Request>, payer: Option<Pubkey>, blockhash: Hash, m: SanitizedMessage, tx: RuntimeTransaction)
    requires WithinWireLimits(BuildAll(rs)) && Compile(BuildAll(rs), payer, blockhash) == Some(m)
    requires tx.message == m && |tx.signatures| <= 255
    ensures ParseTransaction(TransactionBytes(tx)) == Some(Parsed(tx, []))
    ensures Expandable(m) && |Decompile(m)| == |rs|
    ensures forall i :: 0 <= i < |rs| ==> DecodeInstruction(Decompile(m)[i]) == Some(rs[i])
    ensures forall i :: 0 <= i < |rs| ==> Decompile(m)[i] == WithMerged(BuildAll(rs), payer, Build(rs[i]))
  {
    var ixs := BuildAll(rs);
    hide Compile, Build, TransactionBytes, ParseTransaction, Decompile, WithMerged, DecodeInstruction, MessageFits,
      WithinWireLimits;
    CompiledFits(ixs, payer, blockhash, m);
    TransactionRoundTrip(tx, []);
    assert TransactionBytes(tx) + [] == TransactionBytes(tx);
    DecompileInvertsCompile(ixs, payer, blockhash);
    forall i | 0 <= i < |rs|
      ensures DecodeInstruction(Decompile(m)[i]) == Some(rs[i])
    {
      assert ixs[i] == Build(rs[i]);
      RequestRoundTrip(rs[i], Decompile(m)[i]);
    }
  }

  /** From requests to bytes and back.  Whatever the signing scheme, a signed list of requests parses, expands and
      decodes back to those requests.  If the signers in hand sign this message's digest soundly, it is signed exactly
      when they cover it, and each signature verifies under the key in its place. */
  lemma RequestsSurvive(
    c: Scheme, rs: seq<Request>, payer: Option<Pubkey>, blockhash: Hash, m: SanitizedMessage, signers: seq<PrivateKey>)
    requires WithinWireLimits(BuildAll(rs)) && Compile(BuildAll(rs), payer, blockhash) == Some(m)
    ensures var r := SignedTransaction(c, m, signers);
      r.Ok? ==>
        && ParseTransaction(TransactionBytes(r.value)) == Some(Parsed(r.value, []))
        && r.value.message == m && Expandable(m) && |Decompile(m)| == |rs|
        && (forall i :: 0 <= i < |rs| ==> DecodeInstruction(Decompile(m)[i]) == Some(rs[i]))
        && (forall i :: 0 <= i < |rs| ==> Decompile(m)[i] == WithMerged(BuildAll(rs), payer, Build(rs[i])))
        && |r.value.signatures| <= |m.accountKeys|
    ensures var r := SignedTransaction(c, m, signers); var d := MessageHash(c.sha, m);
      SignsSoundly(c, signers, d) ==>
        && (r.Ok? <==> Covered(c, rs, payer, signers))
        && (r.Ok? ==>
          forall i :: 0 <= i < |r.value.signatures| ==> c.verify(d, m.accountKeys[i], r.value.signatures[i]))
  {
    var ixs := BuildAll(rs);
    hide Compile, Build, MustSign, HasSigner, CanSign, SignatureFor, SignsSoundly, SignedTransaction, TransactionBytes,
      ParseTransaction, MessageHash, Decompile, WithMerged, DecodeInstruction, WithinWireLimits, Covered, BuildAll;
    SignsExactlyWhenAble(c, ixs, payer, blockhash, m, signers);
    if SignedTransaction(c, m, signers).Ok? {
      SignedTransactionCount(c, m, signers);
      RequestsCrossTheWire(rs, payer, blockhash, m, SignedTransaction(c, m, signers).value);
    }
    if SignsSoundly(c, signers, MessageHash(c.sha, m)) {
      CoveredMustSign(c, rs, payer, signers);
      SignsExactlyWhenCovered(c, ixs, payer, blockhash, m, signers);
    }
  }

  ghost function DecodeAll(ixs: seq<Instruction>): seq<Option<Request>> {
    seq(|ixs|, i requires 0 <= i < |ixs| => DecodeInstruction(ixs[i]))
  }

  /** The requests a transaction's bytes stand for, read off the wire alone. */
  ghost function ReadRequests(b: seq<byte>): Option<seq<Option<Request>>> {
    match ParseTransaction(b)
    case None => None
    case Some(p) => if Expandable(p.value.message) then Some(DecodeAll(Decompile(p.value.message))) else None
  }

  function AllSome(rs: seq<Request>): seq<Option<Request>> {
    seq(|rs|, i requires 0 <= i < |rs| => Some(rs[i]))
  }

  lemma BytesReadBack(
    rs: seq<Request>, payer: Option<Pubkey>, blockhash: Hash, m: SanitizedMessage, tx: RuntimeTransaction)
    requires WithinWireLimits(BuildAll(rs)) && Compile(BuildAll(rs), payer, blockhash) == Some(m)
    requires tx.message == m && |tx.signatures| <= 255
    ensures ReadRequests(TransactionBytes(tx)) == Some(AllSome(rs))
    ensures ParseTransaction(TransactionBytes(tx)) == Some(Parsed(tx, [])) && m.recentBlockhash == blockhash
  {
    hide Compile, Build, TransactionBytes, ParseTransaction, Decompile, WithMerged, DecodeInstruction, WithinWireLimits,
      Expandable, BuildAll;
    RequestsCrossTheWire(rs, payer, blockhash, m, tx);
    BlockhashKept(rs, payer, blockhash, m);
    assert DecodeAll(Decompile(m)) == AllSome(rs);
  }

  lemma BlockhashKept(rs: seq<Request>, payer: Option<Pubkey>, blockhash: Hash, m: SanitizedMessage)
    requires Compile(BuildAll(rs), payer, blockhash) == Some(m)
    ensures m.recentBlockhash == blockhash
  {
    hide BuildAll;
  }

  /** The bytes bind the requests: two transactions with the same bytes, each carrying compiled requests, are one
      transaction and carry the same requests in the same order, on the same blockhash, whatever their signatures
      and with whichever payer. */
  lemma BytesBindRequests(
    rs: seq<Request>, payer: Option<Pubkey>, blockhash: Hash, tx: RuntimeTransaction,
    qs: seq<Request>, payer': Option<Pubkey>, blockhash': Hash, ty: RuntimeTransaction)
    requires WithinWireLimits(BuildAll(rs)) && Compile(BuildAll(rs), payer, blockhash) == Some(tx.message)
    requires WithinWireLimits(BuildAll(qs)) && Compile(BuildAll(qs), payer', blockhash') == Some(ty.message)
    requires |tx.signatures| <= 255 && |ty.signatures| <= 255
    requires TransactionBytes(tx) == TransactionBytes(ty)
    ensures rs == qs && blockhash == blockhash' && tx == ty
  {
    hide Compile, TransactionBytes, ParseTransaction, WithinWireLimits, BuildAll, ReadRequests;
    BytesReadBack(rs, payer, blockhash, tx.message, tx);
    BytesReadBack(qs, payer', blockhash', ty.message, ty);
    AllSomeInjective(rs, qs);
  }

  /** So do signed bytes, whoever signed them and by whichever schemes, which may fail or not verify. */
  lemma SignedBytesBindRequests(
    c: Scheme, rs: seq<Request>, payer: Option<Pubkey>, blockhash: Hash, m: SanitizedMessage, signers: seq<PrivateKey>,
    c': Scheme, qs: seq<Request>, payer': Option<Pubkey>, blockhash': Hash, m': SanitizedMessage,
    signers': seq<PrivateKey>)
    requires WithinWireLimits(BuildAll(rs)) && Compile(BuildAll(rs), payer, blockhash) == Some(m)
    requires WithinWireLimits(BuildAll(qs)) && Compile(BuildAll(qs), payer', blockhash') == Some(m')
    requires SignedTransaction(c, m, signers).Ok? && SignedTransaction(c', m', signers').Ok?
    requires TransactionBytes(SignedTransaction(c, m, signers).value)
      == TransactionBytes(SignedTransaction(c', m', signers').value)
    ensures rs == qs && blockhash == blockhash' && m == m'
    ensures SignedTransaction(c, m, signers) == SignedTransaction(c', m', signers')
  {
    hide Compile, SignedTransaction, TransactionBytes, WithinWireLimits, BuildAll;
    SignedTransactionCount(c, m, signers);
    SignedTransactionCount(c', m', signers');
    BytesBindRequests(
      rs, payer, blockhash, SignedTransaction(c, m, signers).value,
      qs, payer', blockhash', SignedTransaction(c', m', signers').value);
  }

  lemma AllSomeInjective(rs: seq<Request>, qs: seq<Request>)
    requires AllSome(rs) == AllSome(qs)
    ensures rs == qs
  {
    assert |AllSome(rs)| == |rs| && |AllSome(qs)| == |qs|;
    forall i | 0 <= i < |rs|
      ensures rs[i] == qs[i]
    {
      assert AllSome(rs)[i] == Some(rs[i]) && AllSome(qs)[i] == Some(qs[i]);
    }
  }
}
