/** loader.go: the BPF loader instruction builders and the exact payload size one transaction can carry. */
module Loader {
  import opened Bytes
  import opened Keys
  import opened Message
  import opened KeyTable
  import opened Compiler
  import opened CompileTheorems
  import opened Transaction
  import opened Fields
  import opened ProgramIds

  datatype LoaderRequest =
    | Write(program: Pubkey, authority: Pubkey, offset: u32, payload: GoBytes)
    | Truncate(program: Pubkey, authority: Pubkey, newSize: u32)
    | Deploy(program: Pubkey, authority: Pubkey)
    | Retract(program: Pubkey, authority: Pubkey)
    | TransferAuthority(program: Pubkey, authority: Pubkey, newAuthority: Pubkey)
    | Finalize(program: Pubkey, authority: Pubkey, nextVersion: Pubkey)

  function Accounts(r: LoaderRequest): seq<AccountMeta> {
    match r
    case Write(program, authority, _, _) => [Writable(program), ReadonlySigner(authority)]
    case Truncate(program, authority, _) => [WritableSigner(program), ReadonlySigner(authority)]
    case Deploy(program, authority) => [Writable(program), ReadonlySigner(authority)]
    case Retract(program, authority) => [Writable(program), ReadonlySigner(authority)]
    case TransferAuthority(program, authority, newAuthority) =>
      [WritableSigner(program), ReadonlySigner(authority), ReadonlySigner(newAuthority)]
    case Finalize(program, authority, nextVersion) =>
      [WritableSigner(program), ReadonlySigner(authority), Readonly(nextVersion)]
  }

  function DataFields(r: LoaderRequest): seq<Field> {
    match r
    case Write(_, _, offset, payload) => [U32(0), U32(offset), Str(payload)]
    case Truncate(_, _, newSize) => [U32(1), U32(newSize)]
    case Deploy(_, _) => [U32(2)]
    case Retract(_, _) => [U32(3)]
    case TransferAuthority(_, _, _) => [U32(4)]
    case Finalize(_, _, _) => [U32(5)]
  }

  function Build(r: LoaderRequest): Instruction {
    Instruction(BPF_LOADER_PROGRAM_ID, Accounts(r), Encode(DataFields(r)))
  }

  // ---------------------------------------------------------------- the decoder

  function Layout(tag: nat): seq<Kind> {
    if tag == 0 then [KU32, KU32, KStr] else if tag == 1 then [KU32, KU32] else [KU32]
  }

  function Rebuild(tag: nat, ks: seq<Pubkey>, fs: seq<Field>): LoaderRequest
    requires tag <= 5 && |ks| >= (if tag >= 4 then 3 else 2) && HasKinds(fs, Layout(tag))
  {
    match tag
    case 0 => Write(ks[0], ks[1], fs[1].n, fs[2].s)
    case 1 => Truncate(ks[0], ks[1], fs[1].n)
    case 2 => Deploy(ks[0], ks[1])
    case 3 => Retract(ks[0], ks[1])
    case 4 => TransferAuthority(ks[0], ks[1], ks[2])
    case _ => Finalize(ks[0], ks[1], ks[2])
  }

  function DecodeRequest(ks: seq<Pubkey>, data: seq<byte>): Option<LoaderRequest> {
    if |data| < 4 then None else
    var tag := FromLittleEndian(data[..4]);
    if tag > 5 || |ks| != (if tag >= 4 then 3 else 2) then None else
    var fs := Decode(Layout(tag), data);
    if fs.None? then None else Some(Rebuild(tag, ks, fs.value))
  }

  lemma LayoutMatches(r: LoaderRequest)
    ensures var fs := DataFields(r);
      && fs != [] && fs[0].U32? && fs[0].n <= 5
      && HasKinds(fs, Layout(fs[0].n)) && |Accounts(r)| == (if fs[0].n >= 4 then 3 else 2)
      && Rebuild(fs[0].n, KeysOf(Accounts(r)), fs) == r
  {
  }

  lemma LoaderRoundTrip(r: LoaderRequest)
    ensures DecodeRequest(KeysOf(Build(r).accounts), Build(r).data) == Some(r)
  {
    hide Encode, Decode, Rebuild, Layout, KindsOf, DataFields, Accounts, FromLittleEndian, HasKinds;
    var fs := DataFields(r);
    LayoutMatches(r);
    U32Tag(fs);
    FieldsRoundTrip(fs);
    HasKindsOf(fs, Layout(fs[0].n));
  }

  lemma RebuiltFields(tag: nat, ks: seq<Pubkey>, fs: seq<Field>)
    requires tag <= 5 && |ks| == (if tag >= 4 then 3 else 2) && HasKinds(fs, Layout(tag)) && fs[0].n == tag
    ensures DataFields(Rebuild(tag, ks, fs)) == fs && KeysOf(Accounts(Rebuild(tag, ks, fs))) == ks
  {
  }

  lemma TagDecoded(tag: nat, data: seq<byte>)
    requires Decode(Layout(tag), data).Some?
    ensures |data| >= 4 && Decode(Layout(tag), data).value[0] == U32(FromLittleEndian(data[..4]))
  {
  }

  /** Only what a builder builds decodes. */
  lemma LoaderDecodeSound(ks: seq<Pubkey>, data: seq<byte>)
    requires DecodeRequest(ks, data).Some?
    ensures var ix := Build(DecodeRequest(ks, data).value); KeysOf(ix.accounts) == ks && ix.data == data
  {
    hide Encode, Decode, Rebuild, DataFields, Accounts, FromLittleEndian, HasKinds, KeysOf;
    var tag := FromLittleEndian(data[..4]);
    TagDecoded(tag, data);
    FieldsSound(Layout(tag), data);
    RebuiltFields(tag, ks, Decode(Layout(tag), data).value);
  }

  /** Who signs and what changes: the authority always signs; the program account signs too, except to be written,
      deployed or retracted; only the program account is writable. */
  lemma LoaderFlags(r: LoaderRequest, k: Pubkey)
    ensures SignedBy(Build(r), k) <==>
      || k == r.authority
      || (k == r.program && (r.Truncate? || r.TransferAuthority? || r.Finalize?))
      || (r.TransferAuthority? && k == r.newAuthority)
    ensures WrittenBy(Build(r), k) <==> k == r.program
  {
    hide Encode, SignedBy, WrittenBy;
    FlagsOfFew(Build(r), k);
  }

  // ---------------------------------------------------------------- transaction size

  const RUNTIME_TX_SIZE_LIMIT: nat := 1232

  /** The fixed cost of a LoaderWrite transaction: version and count 5, message frame 43, instruction frame 27. */
  const WRITE_OVERHEAD: nat := 75

  ghost function WriteKeys(program: Pubkey, authority: Pubkey, payer: Option<Pubkey>): set<Pubkey> {
    {BPF_LOADER_PROGRAM_ID, program, authority} + PayerSet(payer)
  }

  lemma WriteKeysReferenced(r: LoaderRequest, payer: Option<Pubkey>)
    requires r.Write?
    ensures ReferencedKeys([Build(r)], payer) == WriteKeys(r.program, r.authority, payer)
  {
    hide Encode;
    var ix := Build(r);
    var metas := ix.accounts;
    assert metas[0].pubkey == r.program && metas[1].pubkey == r.authority;
    assert InstructionKeys(ix) == {BPF_LOADER_PROGRAM_ID, r.program, r.authority};
    assert forall x :: x in [ix] <==> x == ix;
  }

  lemma WriteDataLength(r: LoaderRequest)
    requires r.Write?
    ensures |Encode(DataFields(r))| == 16 + |r.payload|
  {
    var fs := DataFields(r);
    var gs := fs[1..];
    var hs := gs[1..];
    assert hs == [Str(r.payload)] && hs[1..] == [];
    assert |Encode(hs)| == 8 + |r.payload|;
    assert |Encode(gs)| == 4 + |Encode(hs)|;
    assert |Encode(fs)| == 4 + |Encode(gs)|;
  }

  lemma SingleInstructionLength(m: SanitizedMessage)
    requires |m.instructions| == 1
    ensures |MessageBytes(m)| == 52 + 32 * |m.accountKeys| + |m.instructions[0].accounts| + |m.instructions[0].data|
  {
    FlattenLength(m.accountKeys, 32);
    var ixs := m.instructions;
    assert ixs[1..] == [];
    assert InstructionsBytes(ixs) == InstructionBytes(ixs[0]) + [];
  }

  lemma TransactionLength(tx: RuntimeTransaction)
    ensures |TransactionBytes(tx)| == 5 + 64 * |tx.signatures| + |MessageBytes(tx.message)|
  {
    FlattenLength(tx.signatures, 64);
    hide MessageBytes, Flatten;
  }

  /** The size of any LoaderWrite transaction, whoever pays and however its keys coincide. */
  lemma WriteTransactionSize(
    r: LoaderRequest, payer: Option<Pubkey>, blockhash: Hash, m: SanitizedMessage, signatures: seq<Signature>)
    requires r.Write?
    requires Compile([Build(r)], payer, blockhash) == Some(m)
    ensures |TransactionBytes(RuntimeTransaction(RUNTIME_TX_VERSION, signatures, m))|
      == WRITE_OVERHEAD + 64 * |signatures| + 32 * |WriteKeys(r.program, r.authority, payer)| + |r.payload|
  {
    hide Encode, Compile, DataFields, MessageBytes, TransactionBytes;
    var ixs := [Build(r)];
    WriteKeysReferenced(r, payer);
    KeysExactlyOnce(ixs, payer, blockhash);
    DistinctCardinality(m.accountKeys);
    CompiledAt(ixs, payer, blockhash, 0);
    WriteDataLength(r);
    SingleInstructionLength(m);
    TransactionLength(RuntimeTransaction(RUNTIME_TX_VERSION, signatures, m));
  }

  lemma SmallSet(a: Pubkey, b: Pubkey, c: Pubkey, payer: Option<Pubkey>)
    ensures |{a, b, c} + PayerSet(payer)| <= 4
    ensures a != b && a != c && b != c && (payer.None? || payer == Some(c)) ==> |{a, b, c} + PayerSet(payer)| == 3
  {
    var s := {a, b, c};
    assert {a, b} == {a} + {b};
    assert s == {a, b} + {c};
    if payer.Some? && payer.value in s { assert s + PayerSet(payer) == s; }
    if payer.None? { assert s + PayerSet(payer) == s; }
  }

  lemma WriteCompiles(r: LoaderRequest, payer: Option<Pubkey>, blockhash: Hash)
    requires r.Write?
    ensures Compile([Build(r)], payer, blockhash).Some?
  {
    var ixs := [Build(r)];
    hide Compile, MustSign, MustWrite, Encode, DataFields, Build, ReferencedKeys;
    WriteKeysReferenced(r, payer);
    SmallSet(BPF_LOADER_PROGRAM_ID, r.program, r.authority, payer);
    CompilesIff(ixs, payer, blockhash);
    var keys := ReferencedKeys(ixs, payer);
    SubsetCardinality((set k | k in keys && MustSign(ixs, payer, k)), keys);
    SubsetCardinality((set k | k in keys && !MustSign(ixs, payer, k) && !MustWrite(ixs, payer, k)), keys);
  }

  /** Only the authority, or a payer, signs a LoaderWrite. */
  lemma WriteSigners(r: LoaderRequest, payer: Option<Pubkey>, blockhash: Hash, m: SanitizedMessage)
    requires r.Write? && (payer.None? || payer == Some(r.authority))
    requires Compile([Build(r)], payer, blockhash) == Some(m)
    ensures m.header.numRequiredSignatures == 1
  {
    var ixs := [Build(r)];
    hide Compile, Build;
    RequiredKeysSign(ixs, payer, blockhash, m);
    KeysExactlyOnce(ixs, payer, blockhash);
    forall k
      ensures MustSign(ixs, payer, k) <==> k == r.authority
    {
      LoaderFlags(r, k);
      assert forall x :: x in ixs <==> x == Build(r);
    }
    var required := RequiredKeys(m);
    assert Elements(required) == {r.authority};
    DistinctCardinality(required);
  }

  const EXTEND_BYTES_MAX_LEN: nat := 997

  /** With a program and an authority distinct from each other and from the loader, and no payer but the authority, a
      LoaderWrite needs one signature and its transaction fits the limit exactly when the payload is at most
      EXTEND_BYTES_MAX_LEN bytes; a payload of that length fills the limit. */
  lemma WriteFitsIff(
    program: Pubkey, authority: Pubkey, offset: u32, payload: GoBytes, payer: Option<Pubkey>, blockhash: Hash,
    signature: Signature)
    requires program != authority && program != BPF_LOADER_PROGRAM_ID && authority != BPF_LOADER_PROGRAM_ID
    requires payer.None? || payer == Some(authority)
    ensures var m := Compile([Build(Write(program, authority, offset, payload))], payer, blockhash);
      && m.Some? && m.value.header.numRequiredSignatures == 1
      && var size := |TransactionBytes(RuntimeTransaction(RUNTIME_TX_VERSION, [signature], m.value))|;
      && (size <= 1232 <==> |payload| <= 997)
      && (size == 1232 <==> |payload| == 997)
  {
    hide Compile, Build, TransactionBytes;
    var r := Write(program, authority, offset, payload);
    WriteCompiles(r, payer, blockhash);
    var m := Compile([Build(r)], payer, blockhash).value;
    WriteSigners(r, payer, blockhash, m);
    WriteTransactionSize(r, payer, blockhash, m, [signature]);
    SmallSet(BPF_LOADER_PROGRAM_ID, program, authority, payer);
  }

  /** The function computes that bound from an empty write by two keys it makes up. */
  method ExtendBytesMaxLen() returns (r: Result<int, CompileError>)
    ensures r == Ok(997)
  {
    var program: seq<byte>, authority: seq<byte> := [], [];
    for i := 0 to 32
      invariant |program| == |authority| == i
      invariant forall j :: 0 <= j < i ==> program[j] == 1 && authority[j] == 2
    {
      program, authority := program + [1], authority + [2];
    }
    assert program[0] == 1 && authority[0] == 2 && BPF_LOADER_PROGRAM_ID[0] == 2 && BPF_LOADER_PROGRAM_ID[1] == 197;
    assert authority[1] == 2;
    var blockhash: Hash, signature: Signature := seq(32, _ => 0), seq(64, _ => 0);
    WriteFitsIff(program, authority, 0, [], None, blockhash, signature);
    EmptyWriteSize(program, authority, blockhash, signature);
    hide Compile, Build, TransactionBytes;
    var message := NewSanitizedMessage([Build(Write(program, authority, 0, []))], None, blockhash);
    match message {
      case Err(e) => return Err(e);
      case Ok(m) =>
        var bytes := SerializeTransaction(RuntimeTransaction(RUNTIME_TX_VERSION, [signature], m));
        r := Ok(RUNTIME_TX_SIZE_LIMIT - |bytes|);
    }
  }

  lemma EmptyWriteSize(program: Pubkey, authority: Pubkey, blockhash: Hash, signature: Signature)
    requires program != authority && program != BPF_LOADER_PROGRAM_ID && authority != BPF_LOADER_PROGRAM_ID
    ensures var m := Compile([Build(Write(program, authority, 0, []))], None, blockhash);
      && m.Some?
      && |TransactionBytes(RuntimeTransaction(RUNTIME_TX_VERSION, [signature], m.value))|
        == RUNTIME_TX_SIZE_LIMIT - EXTEND_BYTES_MAX_LEN
  {
    hide Compile, Build, TransactionBytes;
    var r := Write(program, authority, 0, []);
    WriteCompiles(r, None, blockhash);
    WriteTransactionSize(r, None, blockhash, Compile([Build(r)], None, blockhash).value, [signature]);
    SmallSet(BPF_LOADER_PROGRAM_ID, program, authority, None);
  }
}
