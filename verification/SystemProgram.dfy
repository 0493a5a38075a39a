/** system.go: the eleven system instruction builders, and one decoder that inverts them all. */
module SystemProgram {
  import opened Bytes
  import opened Keys
  import opened Message
  import opened Fields
  import opened ProgramIds
  import opened KeyTable
  import opened CompileTheorems

  datatype SystemRequest =
    | CreateAccount(from: Pubkey, to: Pubkey, lamports: u64, space: u64, owner: Pubkey)
    | CreateAccountWithAnchor(from: Pubkey, to: Pubkey, lamports: u64, space: u64, owner: Pubkey, txid: Hash, vout: u32)
    | Assign(pubkey: Pubkey, owner: Pubkey)
    | Anchor(pubkey: Pubkey, txid: Hash, vout: u32)
    | SignInput(index: u32, signer: Pubkey)
    | Transfer(from: Pubkey, to: Pubkey, lamports: u64)
    | Allocate(pubkey: Pubkey, space: u64)
    | CreateAccountWithSeed(
        from: Pubkey, to: Pubkey, base: Pubkey, seed: GoBytes, lamports: u64, space: u64, owner: Pubkey)
    | AllocateWithSeed(address: Pubkey, base: Pubkey, seed: GoBytes, space: u64, owner: Pubkey)
    | AssignWithSeed(address: Pubkey, base: Pubkey, seed: GoBytes, owner: Pubkey)
    | TransferWithSeed(from: Pubkey, base: Pubkey, seed: GoBytes, owner: Pubkey, to: Pubkey, lamports: u64)

  function Accounts(r: SystemRequest): seq<AccountMeta> {
    match r
    case CreateAccount(from, to, _, _, _) => [WritableSigner(from), WritableSigner(to)]
    case CreateAccountWithAnchor(from, to, _, _, _, _, _) => [WritableSigner(from), WritableSigner(to)]
    case Assign(pubkey, _) => [WritableSigner(pubkey)]
    case Anchor(pubkey, _, _) => [WritableSigner(pubkey)]
    case SignInput(_, signer) => [WritableSigner(signer)]
    case Transfer(from, to, _) => [WritableSigner(from), Writable(to)]
    case Allocate(pubkey, _) => [WritableSigner(pubkey)]
    case CreateAccountWithSeed(from, to, base, _, _, _, _) =>
      [WritableSigner(from), Writable(to)] + if base != from then [ReadonlySigner(base)] else []
    case AllocateWithSeed(address, base, _, _, _) => [Writable(address), ReadonlySigner(base)]
    case AssignWithSeed(address, base, _, _) => [Writable(address), ReadonlySigner(base)]
    case TransferWithSeed(from, base, _, _, to, _) => [Writable(from), ReadonlySigner(base), Writable(to)]
  }

  /** The appended fields, the u32 discriminant first. */
  function DataFields(r: SystemRequest): seq<Field> {
    match r
    case CreateAccount(_, _, lamports, space, owner) => [U32(0), U64(lamports), U64(space), Key(owner)]
    case CreateAccountWithAnchor(_, _, lamports, space, owner, txid, vout) =>
      [U32(1), U64(lamports), U64(space), Key(owner), Key(txid), U32(vout)]
    case Assign(_, owner) => [U32(2), Key(owner)]
    case Anchor(_, txid, vout) => [U32(3), Key(txid), U32(vout)]
    case SignInput(index, _) => [U32(4), U32(index)]
    case Transfer(_, _, lamports) => [U32(5), U64(lamports)]
    case Allocate(_, space) => [U32(6), U64(space)]
    case CreateAccountWithSeed(_, _, base, seed, lamports, space, owner) =>
      [U32(7), Key(base), Str(seed), U64(lamports), U64(space), Key(owner)]
    case AllocateWithSeed(_, base, seed, space, owner) => [U32(8), Key(base), Str(seed), U64(space), Key(owner)]
    case AssignWithSeed(_, base, seed, owner) => [U32(9), Key(base), Str(seed), Key(owner)]
    case TransferWithSeed(_, _, seed, owner, _, lamports) => [U32(10), U64(lamports), Str(seed), Key(owner)]
  }

  function Build(r: SystemRequest): Instruction {
    Instruction(SYSTEM_PROGRAM_ID, Accounts(r), Encode(DataFields(r)))
  }

  // ---------------------------------------------------------------- txid arguments

  datatype TxidError = InvalidHex | WrongLength(n: nat)

  function DecodeTxid(txid: seq<byte>): Result<Hash, TxidError> {
    var b := HexDecode(txid);
    if b.None? then Err(InvalidHex)
    else if |b.value| != 32 then Err(WrongLength(|b.value|))
    else Ok(b.value)
  }

  function BuildAnchor(pubkey: Pubkey, txid: seq<byte>, vout: u32): Result<Instruction, TxidError> {
    match DecodeTxid(txid)
    case Err(e) => Err(e)
    case Ok(h) => Ok(Build(Anchor(pubkey, h, vout)))
  }

  function BuildCreateAccountWithAnchor(
    from: Pubkey, to: Pubkey, lamports: u64, space: u64, owner: Pubkey, txid: seq<byte>, vout: u32)
    : Result<Instruction, TxidError>
  {
    match DecodeTxid(txid)
    case Err(e) => Err(e)
    case Ok(h) => Ok(Build(CreateAccountWithAnchor(from, to, lamports, space, owner, h, vout)))
  }

  // ---------------------------------------------------------------- the decoder

  function Layout(tag: nat): seq<Kind> {
    match tag
    case 0 => [KU32, KU64, KU64, KKey]
    case 1 => [KU32, KU64, KU64, KKey, KKey, KU32]
    case 2 => [KU32, KKey]
    case 3 => [KU32, KKey, KU32]
    case 4 => [KU32, KU32]
    case 5 => [KU32, KU64]
    case 6 => [KU32, KU64]
    case 7 => [KU32, KKey, KStr, KU64, KU64, KKey]
    case 8 => [KU32, KKey, KStr, KU64, KKey]
    case 9 => [KU32, KKey, KStr, KKey]
    case _ => [KU32, KU64, KStr, KKey]
  }

  function Arity(tag: nat): nat {
    if tag in {2, 3, 4, 6} then 1 else if tag == 10 then 3 else 2
  }

  function Rebuild(tag: nat, ks: seq<Pubkey>, fs: seq<Field>): SystemRequest
    requires tag <= 10 && |ks| >= Arity(tag)
    requires HasKinds(fs, Layout(tag))
  {
    match tag
    case 0 => CreateAccount(ks[0], ks[1], fs[1].v, fs[2].v, fs[3].k)
    case 1 => CreateAccountWithAnchor(ks[0], ks[1], fs[1].v, fs[2].v, fs[3].k, fs[4].k, fs[5].n)
    case 2 => Assign(ks[0], fs[1].k)
    case 3 => Anchor(ks[0], fs[1].k, fs[2].n)
    case 4 => SignInput(fs[1].n, ks[0])
    case 5 => Transfer(ks[0], ks[1], fs[1].v)
    case 6 => Allocate(ks[0], fs[1].v)
    case 7 => CreateAccountWithSeed(ks[0], ks[1], fs[1].k, fs[2].s, fs[3].v, fs[4].v, fs[5].k)
    case 8 => AllocateWithSeed(ks[0], fs[1].k, fs[2].s, fs[3].v, fs[4].k)
    case 9 => AssignWithSeed(ks[0], fs[1].k, fs[2].s, fs[3].k)
    case _ => TransferWithSeed(ks[0], ks[1], fs[2].s, fs[3].k, ks[2], fs[1].v)
  }

  /** The account list has the right length, and the base key stands where the data says: with a seed it is an account
      of its own, except that CreateAccountWithSeed leaves it out when it is the payer. */
  predicate AccountsFit(tag: nat, ks: seq<Pubkey>, fs: seq<Field>)
    requires tag <= 10 && HasKinds(fs, Layout(tag))
  {
    if tag == 7 then
      |ks| >= 2 && if ks[0] == fs[1].k then |ks| == 2 else |ks| == 3 && ks[2] == fs[1].k
    else
      |ks| == Arity(tag) && (tag in {8, 9} ==> ks[1] == fs[1].k)
  }

  /** Reads a request back from the account keys and the data; flags are not needed. */
  function DecodeRequest(ks: seq<Pubkey>, data: seq<byte>): Option<SystemRequest> {
    if |data| < 4 then None else
    var tag := FromLittleEndian(data[..4]);
    if tag > 10 then None else
    var fs := Decode(Layout(tag), data);
    if fs.None? || !AccountsFit(tag, ks, fs.value) then None else Some(Rebuild(tag, ks, fs.value))
  }

  lemma LayoutMatches(r: SystemRequest)
    ensures var fs := DataFields(r);
      && fs != [] && fs[0].U32? && fs[0].n <= 10
      && HasKinds(fs, Layout(fs[0].n))
  {
  }

  lemma RebuildInverts(r: SystemRequest, ks: seq<Pubkey>)
    requires ks == KeysOf(Accounts(r))
    requires var fs := DataFields(r);
      fs != [] && fs[0].U32? && fs[0].n <= 10 && HasKinds(fs, Layout(fs[0].n))
    ensures AccountsFit(DataFields(r)[0].n, ks, DataFields(r))
    ensures Rebuild(DataFields(r)[0].n, ks, DataFields(r)) == r
  {
    hide HasKinds, Layout;
    assert |ks| == |Accounts(r)|;
    assert |ks| > 0 ==> ks[0] == Accounts(r)[0].pubkey;
    assert |ks| > 1 ==> ks[1] == Accounts(r)[1].pubkey;
    assert |ks| > 2 ==> ks[2] == Accounts(r)[2].pubkey;
  }

  /** Every argument of every builder comes back, so no two requests share an instruction. */
  lemma SystemRoundTrip(r: SystemRequest)
    ensures DecodeRequest(KeysOf(Build(r).accounts), Build(r).data) == Some(r)
  {
    hide Encode, Decode, Rebuild, Layout, KindsOf, DataFields, Accounts, AccountsFit, FromLittleEndian, HasKinds;
    var fs, ks := DataFields(r), KeysOf(Accounts(r));
    LayoutMatches(r);
    U32Tag(fs);
    FieldsRoundTrip(fs);
    HasKindsOf(fs, Layout(fs[0].n));
    RebuildInverts(r, ks);
  }

  lemma RebuiltFields(tag: nat, ks: seq<Pubkey>, fs: seq<Field>)
    requires tag <= 10 && HasKinds(fs, Layout(tag)) && AccountsFit(tag, ks, fs) && fs[0].n == tag
    ensures DataFields(Rebuild(tag, ks, fs)) == fs
  {
  }

  lemma RebuiltAccounts(tag: nat, ks: seq<Pubkey>, fs: seq<Field>)
    requires tag <= 10 && HasKinds(fs, Layout(tag)) && AccountsFit(tag, ks, fs)
    ensures KeysOf(Accounts(Rebuild(tag, ks, fs))) == ks
  {
  }

  lemma TagDecoded(ks: seq<Kind>, data: seq<byte>)
    requires ks != [] && ks[0] == KU32 && Decode(ks, data).Some?
    ensures |data| >= 4 && Decode(ks, data).value[0] == U32(FromLittleEndian(data[..4]))
  {
  }

  lemma LayoutTagged(tag: nat)
    ensures Layout(tag) != [] && Layout(tag)[0] == KU32
  {
  }

  /** Only what a builder builds decodes: the account keys and the data are those of the decoded request. */
  lemma SystemDecodeSound(ks: seq<Pubkey>, data: seq<byte>)
    requires DecodeRequest(ks, data).Some?
    ensures var ix := Build(DecodeRequest(ks, data).value); KeysOf(ix.accounts) == ks && ix.data == data
  {
    hide Encode, Decode, Rebuild, Layout, DataFields, Accounts, AccountsFit, FromLittleEndian, HasKinds, KeysOf;
    var tag := FromLittleEndian(data[..4]);
    var fs := Decode(Layout(tag), data).value;
    LayoutTagged(tag);
    TagDecoded(Layout(tag), data);
    FieldsSound(Layout(tag), data);
    RebuiltFields(tag, ks, fs);
    RebuiltAccounts(tag, ks, fs);
  }

  // ---------------------------------------------------------------- who signs, what changes

  /** The keys whose consent a request needs: whoever pays, whoever is created or changed in person, and the base key
      behind a seed-derived account. */
  function Consenting(r: SystemRequest): set<Pubkey> {
    match r
    case CreateAccount(from, to, _, _, _) => {from, to}
    case CreateAccountWithAnchor(from, to, _, _, _, _, _) => {from, to}
    case Assign(pubkey, _) => {pubkey}
    case Anchor(pubkey, _, _) => {pubkey}
    case SignInput(_, signer) => {signer}
    case Transfer(from, _, _) => {from}
    case Allocate(pubkey, _) => {pubkey}
    case CreateAccountWithSeed(from, _, base, _, _, _, _) => {from, base}
    case AllocateWithSeed(_, base, _, _, _) => {base}
    case AssignWithSeed(_, base, _, _) => {base}
    case TransferWithSeed(_, base, _, _, _, _) => {base}
  }

  /** The accounts a request changes. */
  function Changed(r: SystemRequest): set<Pubkey> {
    match r
    case CreateAccount(from, to, _, _, _) => {from, to}
    case CreateAccountWithAnchor(from, to, _, _, _, _, _) => {from, to}
    case Assign(pubkey, _) => {pubkey}
    case Anchor(pubkey, _, _) => {pubkey}
    case SignInput(_, signer) => {signer}
    case Transfer(from, to, _) => {from, to}
    case Allocate(pubkey, _) => {pubkey}
    case CreateAccountWithSeed(from, to, _, _, _, _, _) => {from, to}
    case AllocateWithSeed(address, _, _, _, _) => {address}
    case AssignWithSeed(address, _, _, _) => {address}
    case TransferWithSeed(from, _, _, _, to, _) => {from, to}
  }

  lemma SystemFlags(r: SystemRequest, k: Pubkey)
    ensures SignedBy(Build(r), k) <==> k in Consenting(r)
    ensures WrittenBy(Build(r), k) <==> k in Changed(r)
  {
    hide Encode, SignedBy, WrittenBy;
    FlagsOfFew(Build(r), k);
  }

  /** The builders that take a hex txid fail exactly on text that is not 64 hex digits, and otherwise carry its
      bytes. */
  lemma AnchorBuildersDecode(
    from: Pubkey, to: Pubkey, lamports: u64, space: u64, owner: Pubkey, txid: seq<byte>, vout: u32)
    ensures var a := BuildAnchor(from, txid, vout);
      var c := BuildCreateAccountWithAnchor(from, to, lamports, space, owner, txid, vout);
      && (a.Ok? <==> c.Ok?)
      && (a.Ok? <==> |txid| == 64 && forall x :: x in txid ==> IsHex(x))
      && (a.Err? ==>
        a.error == c.error == if HexDecode(txid).None? then InvalidHex else WrongLength(|txid| / 2))
      && (a.Ok? ==>
        && HexDecode(txid).Some? && |HexDecode(txid).value| == 32
        && var h := HexDecode(txid).value;
        && DecodeRequest(KeysOf(a.value.accounts), a.value.data) == Some(Anchor(from, h, vout))
        && DecodeRequest(KeysOf(c.value.accounts), c.value.data)
          == Some(CreateAccountWithAnchor(from, to, lamports, space, owner, h, vout)))
  {
    hide HexDecode, IsHex, Build, DecodeRequest;
    HexDecodesIff(txid);
    var h := DecodeTxid(txid);
    if h.Ok? {
      SystemRoundTrip(Anchor(from, h.value, vout));
      SystemRoundTrip(CreateAccountWithAnchor(from, to, lamports, space, owner, h.value, vout));
    }
  }
}
