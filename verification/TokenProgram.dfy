/** token.go: the token and associated-token instruction builders, and the decoders that invert them. */
module TokenProgram {
  import opened Bytes
  import opened Keys
  import opened Message
  import opened KeyTable
  import opened CompileTheorems
  import opened Fields
  import opened ProgramIds
  import SystemProgram

  /** `authority` signs alone when `signers` is empty; otherwise it is a multisig account and each signer signs. */
  datatype TokenRequest =
    | InitializeMint(mint: Pubkey, mintAuthority: Pubkey, freezeAuthority: Option<Pubkey>, decimals: byte)
    | InitializeMint2(mint: Pubkey, mintAuthority: Pubkey, freezeAuthority: Option<Pubkey>, decimals: byte)
    | InitializeAccount(account: Pubkey, mint: Pubkey, owner: Pubkey)
    | InitializeAccount2(account: Pubkey, mint: Pubkey, owner: Pubkey)
    | InitializeAccount3(account: Pubkey, mint: Pubkey, owner: Pubkey)
    | InitializeMultisig(multisig: Pubkey, members: seq<Pubkey>, m: byte)
    | Transfer(source: Pubkey, destination: Pubkey, authority: Pubkey, signers: seq<Pubkey>, amount: u64)
    | TransferChecked(
        source: Pubkey, mint: Pubkey, destination: Pubkey, authority: Pubkey, signers: seq<Pubkey>, amount: u64,
        decimals: byte)
    | Approve(source: Pubkey, delegate: Pubkey, authority: Pubkey, signers: seq<Pubkey>, amount: u64)
    | ApproveChecked(
        source: Pubkey, mint: Pubkey, delegate: Pubkey, authority: Pubkey, signers: seq<Pubkey>, amount: u64,
        decimals: byte)
    | Revoke(source: Pubkey, authority: Pubkey, signers: seq<Pubkey>)
    | SetAuthority(
        owned: Pubkey, newAuthority: Option<Pubkey>, authorityType: byte, authority: Pubkey, signers: seq<Pubkey>)
    | MintTo(mint: Pubkey, account: Pubkey, authority: Pubkey, signers: seq<Pubkey>, amount: u64)
    | MintToChecked(mint: Pubkey, account: Pubkey, authority: Pubkey, signers: seq<Pubkey>, amount: u64, decimals: byte)
    | Burn(account: Pubkey, mint: Pubkey, authority: Pubkey, signers: seq<Pubkey>, amount: u64)
    | BurnChecked(account: Pubkey, mint: Pubkey, authority: Pubkey, signers: seq<Pubkey>, amount: u64, decimals: byte)
    | CloseAccount(account: Pubkey, destination: Pubkey, authority: Pubkey, signers: seq<Pubkey>)
    | FreezeAccount(account: Pubkey, mint: Pubkey, authority: Pubkey, signers: seq<Pubkey>)
    | ThawAccount(account: Pubkey, mint: Pubkey, authority: Pubkey, signers: seq<Pubkey>)
    | SyncNative(account: Pubkey)

  // ---------------------------------------------------------------- accounts

  ghost function MetasOf(ks: seq<Pubkey>, signer: bool): seq<AccountMeta> {
    seq(|ks|, i requires 0 <= i < |ks| => AccountMeta(ks[i], signer, false))
  }

  /** authorityAccounts */
  method AuthorityAccounts(base: seq<AccountMeta>, authority: Pubkey, multisigSigners: seq<Pubkey>)
    returns (accounts: seq<AccountMeta>)
    ensures accounts == WithAuthority(base, authority, multisigSigners)
  {
    accounts := base + [AccountMeta(authority, |multisigSigners| == 0, false)];
    for i := 0 to |multisigSigners|
      invariant accounts
        == base + [AccountMeta(authority, |multisigSigners| == 0, false)] + MetasOf(multisigSigners[..i], true)
    {
      accounts := accounts + [AccountMeta(multisigSigners[i], true, false)];
    }
    assert multisigSigners[..|multisigSigners|] == multisigSigners;
  }

  ghost function WithAuthority(base: seq<AccountMeta>, authority: Pubkey, signers: seq<Pubkey>): seq<AccountMeta> {
    base + [AccountMeta(authority, |signers| == 0, false)] + MetasOf(signers, true)
  }

  predicate NeedsAuthority(r: TokenRequest) {
    match r
    case InitializeMint(_, _, _, _) => false
    case InitializeMint2(_, _, _, _) => false
    case InitializeAccount(_, _, _) => false
    case InitializeAccount2(_, _, _) => false
    case InitializeAccount3(_, _, _) => false
    case InitializeMultisig(_, _, _) => false
    case SyncNative(_) => false
    case _ => true
  }

  /** The accounts before the authority. */
  function BaseAccounts(r: TokenRequest): seq<AccountMeta> {
    match r
    case InitializeMint(mint, _, _, _) => [Writable(mint)]
    case InitializeMint2(mint, _, _, _) => [Writable(mint)]
    case InitializeAccount(account, mint, owner) => [Writable(account), Readonly(mint), Readonly(owner)]
    case InitializeAccount2(account, mint, _) => [Writable(account), Readonly(mint)]
    case InitializeAccount3(account, mint, _) => [Writable(account), Readonly(mint)]
    case InitializeMultisig(multisig, _, _) => [Writable(multisig)]
    case Transfer(source, destination, _, _, _) => [Writable(source), Writable(destination)]
    case TransferChecked(source, mint, destination, _, _, _, _) =>
      [Writable(source), Readonly(mint), Writable(destination)]
    case Approve(source, delegate, _, _, _) => [Writable(source), Readonly(delegate)]
    case ApproveChecked(source, mint, delegate, _, _, _, _) => [Writable(source), Readonly(mint), Readonly(delegate)]
    case Revoke(source, _, _) => [Writable(source)]
    case SetAuthority(owned, _, _, _, _) => [Writable(owned)]
    case MintTo(mint, account, _, _, _) => [Writable(mint), Writable(account)]
    case MintToChecked(mint, account, _, _, _, _) => [Writable(mint), Writable(account)]
    case Burn(account, mint, _, _, _) => [Writable(account), Writable(mint)]
    case BurnChecked(account, mint, _, _, _, _) => [Writable(account), Writable(mint)]
    case CloseAccount(account, destination, _, _) => [Writable(account), Writable(destination)]
    case FreezeAccount(account, mint, _, _) => [Writable(account), Readonly(mint)]
    case ThawAccount(account, mint, _, _) => [Writable(account), Readonly(mint)]
    case SyncNative(account) => [Writable(account)]
  }

  ghost function Accounts(r: TokenRequest): seq<AccountMeta> {
    if NeedsAuthority(r) then WithAuthority(BaseAccounts(r), r.authority, r.signers)
    else if r.InitializeMultisig? then BaseAccounts(r) + MetasOf(r.members, false)
    else BaseAccounts(r)
  }

  lemma OneMoreMember(ks: seq<Pubkey>, i: nat, signer: bool)
    requires i < |ks|
    ensures MetasOf(ks[..i + 1], signer) == MetasOf(ks[..i], signer) + [AccountMeta(ks[i], signer, false)]
  {
  }

  /** TokenInitializeMultisig's account loop */
  method MultisigAccounts(multisig: Pubkey, members: seq<Pubkey>, m: byte) returns (accounts: seq<AccountMeta>)
    ensures accounts == Accounts(InitializeMultisig(multisig, members, m))
  {
    hide MetasOf;
    accounts := [Writable(multisig)];
    NoMembers(members, false);
    for i := 0 to |members|
      invariant accounts == [Writable(multisig)] + MetasOf(members[..i], false)
    {
      OneMoreMember(members, i, false);
      accounts := accounts + [Readonly(members[i])];
    }
    assert members[..|members|] == members;
  }

  lemma NoMembers(ks: seq<Pubkey>, signer: bool)
    ensures MetasOf(ks[..0], signer) == []
  {
  }

  // ---------------------------------------------------------------- data

  /** The appended fields, the one-byte discriminant first. */
  function DataFields(r: TokenRequest): seq<Field> {
    match r
    case InitializeMint(_, mintAuthority, freezeAuthority, decimals) =>
      [U8(0), U8(decimals), Key(mintAuthority), OptKey(freezeAuthority)]
    case InitializeMint2(_, mintAuthority, freezeAuthority, decimals) =>
      [U8(19), U8(decimals), Key(mintAuthority), OptKey(freezeAuthority)]
    case InitializeAccount(_, _, _) => [U8(1)]
    case InitializeAccount2(_, _, owner) => [U8(16), Key(owner)]
    case InitializeAccount3(_, _, owner) => [U8(18), Key(owner)]
    case InitializeMultisig(_, _, m) => [U8(2), U8(m)]
    case Transfer(_, _, _, _, amount) => [U8(3), U64(amount)]
    case TransferChecked(_, _, _, _, _, amount, decimals) => [U8(12), U64(amount), U8(decimals)]
    case Approve(_, _, _, _, amount) => [U8(4), U64(amount)]
    case ApproveChecked(_, _, _, _, _, amount, decimals) => [U8(13), U64(amount), U8(decimals)]
    case Revoke(_, _, _) => [U8(5)]
    case SetAuthority(_, newAuthority, authorityType, _, _) => [U8(6), U8(authorityType), OptKey(newAuthority)]
    case MintTo(_, _, _, _, amount) => [U8(7), U64(amount)]
    case MintToChecked(_, _, _, _, amount, decimals) => [U8(14), U64(amount), U8(decimals)]
    case Burn(_, _, _, _, amount) => [U8(8), U64(amount)]
    case BurnChecked(_, _, _, _, amount, decimals) => [U8(15), U64(amount), U8(decimals)]
    case CloseAccount(_, _, _, _) => [U8(9)]
    case FreezeAccount(_, _, _, _) => [U8(10)]
    case ThawAccount(_, _, _, _) => [U8(11)]
    case SyncNative(_) => [U8(17)]
  }

  ghost function Build(r: TokenRequest): Instruction {
    Instruction(TOKEN_PROGRAM_ID, Accounts(r), Encode(DataFields(r)))
  }

  /** How the derived builders are written: build the simpler instruction, overwrite its first byte, append the rest. */
  ghost function Retagged(ix: Instruction, tag: byte, more: seq<byte>): Instruction
    requires ix.data != []
  {
    ix.(data := ix.data[0 := tag] + more)
  }

  lemma TagFirst(tag: byte, rest: seq<Field>)
    ensures Encode([U8(tag)] + rest) == [tag] + Encode(rest)
  {
    var fs := [U8(tag)] + rest;
    assert fs[0] == U8(tag) && fs[1..] == rest;
    assert EncodeField(U8(tag)) == [tag];
    hide EncodeField;
  }

  lemma RetaggedFields(tag: byte, tag': byte, fs: seq<Field>, more: seq<byte>)
    requires |fs| > 0 && fs[0] == U8(tag)
    ensures Encode(fs) != []
    ensures Encode(fs)[0 := tag'] + more == Encode([U8(tag')] + fs[1..]) + more
  {
    hide Encode, EncodeField;
    assert fs == [U8(tag)] + fs[1..];
    TagFirst(tag, fs[1..]);
    TagFirst(tag', fs[1..]);
    var tail := Encode(fs[1..]);
    assert ([tag] + tail)[0 := tag'] == [tag'] + tail;
  }

  lemma {:induction false} EncodeAppend(fs: seq<Field>, f: Field)
    ensures Encode(fs + [f]) == Encode(fs) + EncodeField(f)
  {
    hide EncodeField;
    if fs == [] {
      assert [f][1..] == [];
      assert Encode([f]) == EncodeField(f) + Encode([]);
    } else {
      EncodeAppend(fs[1..], f);
      assert (fs + [f])[1..] == fs[1..] + [f];
    }
  }

  /** Overwriting the discriminant in place gives the derived builders exactly the layout of their own request. */
  lemma DerivedBuilders(
    a: Pubkey, b: Pubkey, owner: Pubkey, signers: seq<Pubkey>, o: Option<Pubkey>, amount: u64, decimals: byte)
    ensures Build(InitializeMint(a, b, o, decimals)).data != []
    ensures Build(InitializeMint2(a, b, o, decimals)) == Retagged(Build(InitializeMint(a, b, o, decimals)), 19, [])
    ensures Build(InitializeAccount2(a, b, owner)).data != []
    ensures Build(InitializeAccount3(a, b, owner)) == Retagged(Build(InitializeAccount2(a, b, owner)), 18, [])
    ensures Build(MintTo(a, b, owner, signers, amount)).data != []
    ensures Build(MintToChecked(a, b, owner, signers, amount, decimals))
      == Retagged(Build(MintTo(a, b, owner, signers, amount)), 14, [decimals])
    ensures Build(Burn(a, b, owner, signers, amount)).data != []
    ensures Build(BurnChecked(a, b, owner, signers, amount, decimals))
      == Retagged(Build(Burn(a, b, owner, signers, amount)), 15, [decimals])
    ensures Build(FreezeAccount(a, b, owner, signers)).data != []
    ensures Build(ThawAccount(a, b, owner, signers)) == Retagged(Build(FreezeAccount(a, b, owner, signers)), 11, [])
  {
    hide Encode, EncodeField;
    Retag(InitializeMint(a, b, o, decimals), InitializeMint2(a, b, o, decimals), 19);
    Retag(InitializeAccount2(a, b, owner), InitializeAccount3(a, b, owner), 18);
    Retag(FreezeAccount(a, b, owner, signers), ThawAccount(a, b, owner, signers), 11);
    RetagChecked(
      MintTo(a, b, owner, signers, amount), MintToChecked(a, b, owner, signers, amount, decimals), 14, decimals);
    RetagChecked(Burn(a, b, owner, signers, amount), BurnChecked(a, b, owner, signers, amount, decimals), 15, decimals);
  }

  lemma Retag(r: TokenRequest, derived: TokenRequest, tag: byte)
    requires Accounts(derived) == Accounts(r)
    requires |DataFields(r)| > 0 && DataFields(r)[0].U8? && DataFields(derived) == [U8(tag)] + DataFields(r)[1..]
    ensures Build(r).data != [] && Build(derived) == Retagged(Build(r), tag, [])
  {
    hide Accounts, DataFields, Encode;
    var fs := DataFields(r);
    RetaggedFields(fs[0].b, tag, fs, []);
    assert Encode(fs)[0 := tag] + [] == Encode(fs)[0 := tag];
    assert Encode(DataFields(derived)) + [] == Encode(DataFields(derived));
  }

  lemma RetagChecked(r: TokenRequest, derived: TokenRequest, tag: byte, decimals: byte)
    requires Accounts(derived) == Accounts(r)
    requires |DataFields(r)| > 0 && DataFields(r)[0].U8?
    requires DataFields(derived) == [U8(tag)] + DataFields(r)[1..] + [U8(decimals)]
    ensures Build(r).data != [] && Build(derived) == Retagged(Build(r), tag, [decimals])
  {
    hide Accounts, DataFields, Encode;
    var fs := DataFields(r);
    RetaggedFields(fs[0].b, tag, fs, [decimals]);
    EncodeAppend([U8(tag)] + fs[1..], U8(decimals));
  }

  // ---------------------------------------------------------------- the decoder

  function Layout(tag: byte): seq<Kind> {
    match tag
    case 0 => [KU8, KU8, KKey, KOptKey]
    case 19 => [KU8, KU8, KKey, KOptKey]
    case 16 => [KU8, KKey]
    case 18 => [KU8, KKey]
    case 2 => [KU8, KU8]
    case 3 => [KU8, KU64]
    case 4 => [KU8, KU64]
    case 7 => [KU8, KU64]
    case 8 => [KU8, KU64]
    case 12 => [KU8, KU64, KU8]
    case 13 => [KU8, KU64, KU8]
    case 14 => [KU8, KU64, KU8]
    case 15 => [KU8, KU64, KU8]
    case 6 => [KU8, KU8, KOptKey]
    case _ => [KU8]
  }

  /** The least number of accounts each instruction comes with. */
  function Arity(tag: byte): nat {
    match tag
    case 0 => 1
    case 19 => 1
    case 2 => 1
    case 17 => 1
    case 5 => 2
    case 6 => 2
    case 16 => 2
    case 18 => 2
    case 12 => 4
    case 13 => 4
    case _ => 3
  }

  function Rebuild(tag: byte, ks: seq<Pubkey>, fs: seq<Field>): TokenRequest
    requires tag <= 19 && |ks| >= Arity(tag) && HasKinds(fs, Layout(tag))
  {
    match tag
    case 0 => InitializeMint(ks[0], fs[2].k, fs[3].o, fs[1].b)
    case 1 => InitializeAccount(ks[0], ks[1], ks[2])
    case 2 => InitializeMultisig(ks[0], ks[1..], fs[1].b)
    case 3 => Transfer(ks[0], ks[1], ks[2], ks[3..], fs[1].v)
    case 4 => Approve(ks[0], ks[1], ks[2], ks[3..], fs[1].v)
    case 5 => Revoke(ks[0], ks[1], ks[2..])
    case 6 => SetAuthority(ks[0], fs[2].o, fs[1].b, ks[1], ks[2..])
    case 7 => MintTo(ks[0], ks[1], ks[2], ks[3..], fs[1].v)
    case 8 => Burn(ks[0], ks[1], ks[2], ks[3..], fs[1].v)
    case 9 => CloseAccount(ks[0], ks[1], ks[2], ks[3..])
    case 10 => FreezeAccount(ks[0], ks[1], ks[2], ks[3..])
    case 11 => ThawAccount(ks[0], ks[1], ks[2], ks[3..])
    case 12 => TransferChecked(ks[0], ks[1], ks[2], ks[3], ks[4..], fs[1].v, fs[2].b)
    case 13 => ApproveChecked(ks[0], ks[1], ks[2], ks[3], ks[4..], fs[1].v, fs[2].b)
    case 14 => MintToChecked(ks[0], ks[1], ks[2], ks[3..], fs[1].v, fs[2].b)
    case 15 => BurnChecked(ks[0], ks[1], ks[2], ks[3..], fs[1].v, fs[2].b)
    case 16 => InitializeAccount2(ks[0], ks[1], fs[1].k)
    case 17 => SyncNative(ks[0])
    case 18 => InitializeAccount3(ks[0], ks[1], fs[1].k)
    case _ => InitializeMint2(ks[0], fs[2].k, fs[3].o, fs[1].b)
  }

  /** The instructions whose account list is open-ended: those with an authority, and multisig initialization. */
  predicate OpenEnded(tag: byte) {
    2 <= tag <= 15
  }

  function DecodeRequest(ks: seq<Pubkey>, data: seq<byte>): Option<TokenRequest> {
    if data == [] || data[0] > 19 || |ks| < Arity(data[0]) then None else
    if !OpenEnded(data[0]) && |ks| != Arity(data[0]) then None else
    var fs := Decode(Layout(data[0]), data);
    if fs.None? then None else Some(Rebuild(data[0], ks, fs.value))
  }

  lemma TagOf(fs: seq<Field>)
    requires fs != [] && fs[0].U8?
    ensures Encode(fs) != [] && Encode(fs)[0] == fs[0].b
  {
  }

  /** The keys of a request's accounts: the fixed ones, then the authority and its signers, or the multisig members. */
  ghost function AccountKeys(r: TokenRequest): seq<Pubkey> {
    KeysOf(BaseAccounts(r)) + VariableKeys(r)
  }

  lemma KeysOfMetas(base: seq<AccountMeta>, ks: seq<Pubkey>, signer: bool)
    ensures KeysOf(base + MetasOf(ks, signer)) == KeysOf(base) + ks
  {
  }

  lemma KeysWithAuthority(base: seq<AccountMeta>, authority: Pubkey, signers: seq<Pubkey>)
    ensures KeysOf(WithAuthority(base, authority, signers)) == KeysOf(base) + ([authority] + signers)
  {
  }

  lemma AccountKeysOf(r: TokenRequest)
    ensures KeysOf(Accounts(r)) == AccountKeys(r)
  {
    var base := BaseAccounts(r);
    hide BaseAccounts, KeysOf, MetasOf, WithAuthority;
    if NeedsAuthority(r) {
      KeysWithAuthority(base, r.authority, r.signers);
    } else if r.InitializeMultisig? {
      KeysOfMetas(base, r.members, false);
    } else {
      assert KeysOf(base) + [] == KeysOf(base);
    }
  }

  lemma LayoutMatches(r: TokenRequest)
    ensures var fs := DataFields(r);
      && fs != [] && fs[0].U8? && fs[0].b <= 19
      && HasKinds(fs, Layout(fs[0].b)) && |AccountKeys(r)| >= Arity(fs[0].b)
      && (!OpenEnded(fs[0].b) ==> |AccountKeys(r)| == Arity(fs[0].b))
  {
  }

  lemma RebuildInverts(r: TokenRequest)
    requires var fs := DataFields(r);
      fs != [] && fs[0].U8? && fs[0].b <= 19 && HasKinds(fs, Layout(fs[0].b)) && |AccountKeys(r)| >= Arity(fs[0].b)
    ensures Rebuild(DataFields(r)[0].b, AccountKeys(r), DataFields(r)) == r
  {
    hide HasKinds, Arity, Layout, AccountKeys;
    KeysByPosition(r);
  }

  lemma KeysThen(base: seq<AccountMeta>, rest: seq<Pubkey>)
    ensures var ks := KeysOf(base) + rest;
      && |ks| == |base| + |rest| && ks[|base|..] == rest
      && forall i :: 0 <= i < |base| ==> ks[i] == base[i].pubkey
  {
  }

  /** What follows the fixed accounts' keys. */
  ghost function VariableKeys(r: TokenRequest): seq<Pubkey> {
    if NeedsAuthority(r) then [r.authority] + r.signers
    else if r.InitializeMultisig? then r.members
    else []
  }

  lemma AuthorityThenSigners(authority: Pubkey, signers: seq<Pubkey>, ks: seq<Pubkey>, n: nat)
    requires n <= |ks| && ks[n..] == [authority] + signers
    ensures |ks| > n && ks[n] == authority && ks[n + 1..] == signers
  {
    assert |ks[n..]| == |signers| + 1;
    assert ks[n] == ks[n..][0] && ks[n + 1..] == ks[n..][1..];
  }

  lemma SomeBase(r: TokenRequest)
    ensures |BaseAccounts(r)| > 0
    ensures r.InitializeMultisig? ==> !NeedsAuthority(r)
  {
  }

  lemma KeysByPosition(r: TokenRequest)
    ensures var base, ks := BaseAccounts(r), AccountKeys(r);
      && |ks| >= |base| > 0
      && ks[0] == base[0].pubkey
      && (|base| > 1 ==> ks[1] == base[1].pubkey)
      && (|base| > 2 ==> ks[2] == base[2].pubkey)
      && (NeedsAuthority(r) ==> |ks| > |base| && ks[|base|] == r.authority && ks[|base| + 1..] == r.signers)
      && (r.InitializeMultisig? ==> ks[|base|..] == r.members)
  {
    SomeBase(r);
    var base := BaseAccounts(r);
    hide BaseAccounts, KeysOf;
    KeysThen(base, VariableKeys(r));
    if NeedsAuthority(r) { AuthorityThenSigners(r.authority, r.signers, AccountKeys(r), |base|); }
  }

  /** Every argument of every token builder comes back, the multisig signer lists included. */
  lemma TokenRoundTrip(r: TokenRequest)
    ensures DecodeRequest(KeysOf(Build(r).accounts), Build(r).data) == Some(r)
  {
    hide Encode, Decode, Rebuild, Layout, KindsOf, DataFields, Accounts, AccountKeys, Arity, HasKinds, OpenEnded;
    var fs := DataFields(r);
    LayoutMatches(r);
    AccountKeysOf(r);
    TagOf(fs);
    FieldsRoundTrip(fs);
    HasKindsOf(fs, Layout(fs[0].b));
    RebuildInverts(r);
  }

  lemma RebuiltFields(tag: byte, ks: seq<Pubkey>, fs: seq<Field>)
    requires tag <= 19 && |ks| >= Arity(tag) && HasKinds(fs, Layout(tag)) && fs[0].b == tag
    ensures DataFields(Rebuild(tag, ks, fs)) == fs
  {
  }

  /** The fixed accounts of r are the first keys, and its open-ended part is the rest. */
  ghost predicate SplitsInto(r: TokenRequest, ks: seq<Pubkey>) {
    var base := BaseAccounts(r);
    && 1 <= |base| <= |ks| && |base| <= 3
    && base[0].pubkey == ks[0]
    && (|base| > 1 ==> base[1].pubkey == ks[1])
    && (|base| > 2 ==> base[2].pubkey == ks[2])
    && (NeedsAuthority(r) ==> |ks| > |base| && r.authority == ks[|base|] && r.signers == ks[|base| + 1..])
    && (r.InitializeMultisig? ==> !NeedsAuthority(r) && r.members == ks[|base|..])
    && (!NeedsAuthority(r) && !r.InitializeMultisig? ==> |ks| == |base|)
  }

  lemma FixedSplits(tag: byte, ks: seq<Pubkey>, fs: seq<Field>)
    requires tag <= 19 && !OpenEnded(tag) && |ks| == Arity(tag) && HasKinds(fs, Layout(tag))
    ensures SplitsInto(Rebuild(tag, ks, fs), ks)
  {
    hide HasKinds;
  }

  lemma LowTagSplits(tag: byte, ks: seq<Pubkey>, fs: seq<Field>)
    requires 2 <= tag <= 8 && |ks| >= Arity(tag) && HasKinds(fs, Layout(tag))
    ensures SplitsInto(Rebuild(tag, ks, fs), ks)
  {
    hide HasKinds;
  }

  lemma HighTagSplits(tag: byte, ks: seq<Pubkey>, fs: seq<Field>)
    requires 9 <= tag <= 15 && |ks| >= Arity(tag) && HasKinds(fs, Layout(tag))
    ensures SplitsInto(Rebuild(tag, ks, fs), ks)
  {
    hide HasKinds;
  }

  lemma RebuiltSplits(tag: byte, ks: seq<Pubkey>, fs: seq<Field>)
    requires tag <= 19 && |ks| >= Arity(tag) && HasKinds(fs, Layout(tag))
    requires !OpenEnded(tag) ==> |ks| == Arity(tag)
    ensures SplitsInto(Rebuild(tag, ks, fs), ks)
  {
    hide HasKinds, Rebuild, SplitsInto, Layout, Arity;
    if !OpenEnded(tag) {
      FixedSplits(tag, ks, fs);
    } else if tag <= 8 {
      LowTagSplits(tag, ks, fs);
    } else {
      HighTagSplits(tag, ks, fs);
    }
  }

  lemma RebuiltAccounts(tag: byte, ks: seq<Pubkey>, fs: seq<Field>)
    requires tag <= 19 && |ks| >= Arity(tag) && HasKinds(fs, Layout(tag))
    requires !OpenEnded(tag) ==> |ks| == Arity(tag)
    ensures AccountKeys(Rebuild(tag, ks, fs)) == ks
  {
    RebuiltSplits(tag, ks, fs);
    var r := Rebuild(tag, ks, fs);
    var base := BaseAccounts(r);
    hide Rebuild, BaseAccounts, Layout, HasKinds, Arity, OpenEnded;
    KeysThen(base, VariableKeys(r));
    KeysThen(base, []);
    assert KeysOf(base) + [] == KeysOf(base) == ks[..|base|];
    if NeedsAuthority(r) { assert ks[|base|..] == [ks[|base|]] + ks[|base| + 1..]; }
    hide NeedsAuthority, KeysOf;
    assert VariableKeys(r) == ks[|base|..];
    assert ks == ks[..|base|] + ks[|base|..];
  }

  lemma TagDecoded(ks: seq<Kind>, data: seq<byte>)
    requires ks != [] && ks[0] == KU8 && Decode(ks, data).Some?
    ensures data != [] && Decode(ks, data).value[0] == U8(data[0])
  {
  }

  lemma LayoutTagged(tag: byte)
    ensures Layout(tag) != [] && Layout(tag)[0] == KU8
  {
  }

  /** Only what a builder builds decodes: the account keys and the data are those of the decoded request. */
  lemma TokenDecodeSound(ks: seq<Pubkey>, data: seq<byte>)
    requires DecodeRequest(ks, data).Some?
    ensures var ix := Build(DecodeRequest(ks, data).value); KeysOf(ix.accounts) == ks && ix.data == data
  {
    hide Encode, Decode, Rebuild, Layout, DataFields, Accounts, AccountKeys, Arity, HasKinds, OpenEnded, KeysOf;
    var tag := data[0];
    var fs := Decode(Layout(tag), data).value;
    LayoutTagged(tag);
    TagDecoded(Layout(tag), data);
    FieldsSound(Layout(tag), data);
    RebuiltFields(tag, ks, fs);
    RebuiltAccounts(tag, ks, fs);
    AccountKeysOf(Rebuild(tag, ks, fs));
  }

  // ---------------------------------------------------------------- who signs

  lemma AuthoritySigns(base: seq<AccountMeta>, authority: Pubkey, signers: seq<Pubkey>, k: Pubkey)
    requires forall m :: m in base ==> !m.isSigner
    ensures (exists m :: m in WithAuthority(base, authority, signers) && m.pubkey == k && m.isSigner)
      <==> if signers == [] then k == authority else k in signers
  {
    var metas := WithAuthority(base, authority, signers);
    var n := |base|;
    assert metas[n] == AccountMeta(authority, |signers| == 0, false);
    if signers != [] && k in signers {
      var i: nat :| i < |signers| && signers[i] == k;
      assert metas[n + 1 + i] == AccountMeta(k, true, false);
    }
    if m :| m in metas && m.pubkey == k && m.isSigner {
      var i: nat :| i < |metas| && metas[i] == m;
      if i < n { assert m in base; }
      if i > n { assert metas[i] == AccountMeta(signers[i - n - 1], true, false); }
    }
  }

  /** The keys a request needs signatures from: none to initialize or sync, the authority alone if it is a single
      key, its listed signers and not itself if it is a multisig. */
  ghost function SigningKeys(r: TokenRequest): set<Pubkey> {
    if !NeedsAuthority(r) then {}
    else if r.signers == [] then {r.authority}
    else Elements(r.signers)
  }

  /** The accounts a request changes; an authority is never among them for being the authority. */
  function ChangedAccounts(r: TokenRequest): set<Pubkey> {
    match r
    case InitializeMint(mint, _, _, _) => {mint}
    case InitializeMint2(mint, _, _, _) => {mint}
    case InitializeAccount(account, _, _) => {account}
    case InitializeAccount2(account, _, _) => {account}
    case InitializeAccount3(account, _, _) => {account}
    case InitializeMultisig(multisig, _, _) => {multisig}
    case Transfer(source, destination, _, _, _) => {source, destination}
    case TransferChecked(source, _, destination, _, _, _, _) => {source, destination}
    case Approve(source, _, _, _, _) => {source}
    case ApproveChecked(source, _, _, _, _, _, _) => {source}
    case Revoke(source, _, _) => {source}
    case SetAuthority(owned, _, _, _, _) => {owned}
    case MintTo(mint, account, _, _, _) => {mint, account}
    case MintToChecked(mint, account, _, _, _, _) => {mint, account}
    case Burn(account, mint, _, _, _) => {account, mint}
    case BurnChecked(account, mint, _, _, _, _) => {account, mint}
    case CloseAccount(account, destination, _, _) => {account, destination}
    case FreezeAccount(account, _, _, _) => {account}
    case ThawAccount(account, _, _, _) => {account}
    case SyncNative(account) => {account}
  }

  lemma BaseNeverSigns(r: TokenRequest)
    ensures forall m :: m in BaseAccounts(r) ==> !m.isSigner
  {
  }

  lemma BaseWrites(r: TokenRequest, k: Pubkey)
    ensures (exists m :: m in BaseAccounts(r) && m.pubkey == k && m.isWritable) <==> k in ChangedAccounts(r)
  {
    FlagsOfFew(Instruction(TOKEN_PROGRAM_ID, BaseAccounts(r), []), k);
    hide SignedBy;
  }

  /** Beyond the fixed accounts nothing is writable. */
  lemma OnlyBaseWritable(r: TokenRequest, m: AccountMeta)
    requires m.isWritable
    ensures m in Accounts(r) <==> m in BaseAccounts(r)
  {
    hide BaseAccounts, NeedsAuthority;
  }

  lemma TokenWrites(r: TokenRequest, k: Pubkey)
    ensures WrittenBy(Build(r), k) <==> k in ChangedAccounts(r)
  {
    BaseWrites(r, k);
    hide Encode, BaseAccounts, ChangedAccounts, Accounts, DataFields;
    forall m: AccountMeta | m.isWritable { OnlyBaseWritable(r, m); }
  }

  lemma NobodySigns(r: TokenRequest)
    requires !NeedsAuthority(r) && forall m :: m in BaseAccounts(r) ==> !m.isSigner
    ensures forall m :: m in Accounts(r) ==> !m.isSigner
  {
    hide BaseAccounts, NeedsAuthority;
  }

  lemma TokenSigns(r: TokenRequest, k: Pubkey)
    ensures SignedBy(Build(r), k) <==> k in SigningKeys(r)
  {
    BaseNeverSigns(r);
    hide Encode, BaseAccounts, DataFields;
    if NeedsAuthority(r) {
      hide NeedsAuthority, WithAuthority;
      AuthoritySigns(BaseAccounts(r), r.authority, r.signers, k);
    } else {
      NobodySigns(r);
    }
  }

  lemma TokenFlags(r: TokenRequest, k: Pubkey)
    ensures SignedBy(Build(r), k) <==> k in SigningKeys(r)
    ensures WrittenBy(Build(r), k) <==> k in ChangedAccounts(r)
  {
    hide Build, SignedBy, WrittenBy, SigningKeys, ChangedAccounts;
    TokenSigns(r, k);
    TokenWrites(r, k);
  }

  // ---------------------------------------------------------------- associated token accounts

  datatype AssociatedRequest =
    | CreateAssociated(funder: Pubkey, account: Pubkey, wallet: Pubkey, mint: Pubkey)
    | CreateAssociatedWithAnchor(funder: Pubkey, account: Pubkey, wallet: Pubkey, mint: Pubkey, txid: Hash, vout: u32)

  function AssociatedFields(r: AssociatedRequest): seq<Field> {
    match r
    case CreateAssociated(_, _, _, _) => []
    case CreateAssociatedWithAnchor(_, _, _, _, txid, vout) => [Key(txid), U32(vout)]
  }

  function BuildAssociated(r: AssociatedRequest): Instruction {
    Instruction(
      ASSOCIATED_TOKEN_PROGRAM_ID,
      [WritableSigner(r.funder), Writable(r.account), Readonly(r.wallet), Readonly(r.mint),
       Readonly(SYSTEM_PROGRAM_ID), Readonly(TOKEN_PROGRAM_ID)],
      Encode(AssociatedFields(r)))
  }

  function DecodeAssociated(ks: seq<Pubkey>, data: seq<byte>): Option<AssociatedRequest> {
    if |ks| != 6 || ks[4] != SYSTEM_PROGRAM_ID || ks[5] != TOKEN_PROGRAM_ID then None
    else if data == [] then Some(CreateAssociated(ks[0], ks[1], ks[2], ks[3]))
    else
      var fs := Decode([KKey, KU32], data);
      if fs.None? then None
      else Some(CreateAssociatedWithAnchor(ks[0], ks[1], ks[2], ks[3], fs.value[0].k, fs.value[1].n))
  }

  /** The anchored builder takes the txid as hex text and fails as the system program's do. */
  function BuildAssociatedFromHex(
    funder: Pubkey, account: Pubkey, wallet: Pubkey, mint: Pubkey, txid: seq<byte>, vout: u32)
    : Result<Instruction, SystemProgram.TxidError>
  {
    match SystemProgram.DecodeTxid(txid)
    case Err(e) => Err(e)
    case Ok(h) => Ok(BuildAssociated(CreateAssociatedWithAnchor(funder, account, wallet, mint, h, vout)))
  }

  lemma AssociatedRoundTrip(r: AssociatedRequest)
    ensures DecodeAssociated(KeysOf(BuildAssociated(r).accounts), BuildAssociated(r).data) == Some(r)
  {
    var fs := AssociatedFields(r);
    FieldsRoundTrip(fs);
    var metas := BuildAssociated(r).accounts;
    assert forall i :: 0 <= i < 6 ==> KeysOf(metas)[i] == metas[i].pubkey;
    if r.CreateAssociatedWithAnchor? {
      HasKindsOf(fs, [KKey, KU32]);
      assert |Encode(fs)| >= 32;
    }
    hide Decode, KindsOf;
  }

  lemma AssociatedDecodeSound(ks: seq<Pubkey>, data: seq<byte>)
    requires DecodeAssociated(ks, data).Some?
    ensures var ix := BuildAssociated(DecodeAssociated(ks, data).value); KeysOf(ix.accounts) == ks && ix.data == data
  {
    var r := DecodeAssociated(ks, data).value;
    if data != [] {
      FieldsSound([KKey, KU32], data);
      assert AssociatedFields(r) == Decode([KKey, KU32], data).value;
    }
    hide Decode, Encode;
    assert KeysOf(BuildAssociated(r).accounts) == ks;
  }

  /** The funder signs; it and the account being created change. */
  lemma AssociatedFlags(r: AssociatedRequest, k: Pubkey)
    ensures SignedBy(BuildAssociated(r), k) <==> k == r.funder
    ensures WrittenBy(BuildAssociated(r), k) <==> k == r.funder || k == r.account
  {
    hide Encode;
    var a := BuildAssociated(r).accounts;
    assert a[0] in a && a[1] in a && a[0].pubkey == r.funder && a[1].pubkey == r.account;
    forall m | m in a
      ensures m == a[0] || m == a[1] || (!m.isSigner && !m.isWritable)
    {
      var i: nat :| i < |a| && a[i] == m;
    }
  }

  /** It succeeds exactly on the hex of 32 bytes, and those bytes are what is read back. */
  lemma AssociatedAnchorDecodes(
    funder: Pubkey, account: Pubkey, wallet: Pubkey, mint: Pubkey, txid: seq<byte>, vout: u32)
    ensures var r := BuildAssociatedFromHex(funder, account, wallet, mint, txid, vout); var b := HexDecode(txid);
      && (r.Ok? <==> |txid| == 64 && forall x :: x in txid ==> IsHex(x))
      && (r.Ok? ==> b.Some? && |b.value| == 32)
      && (r.Err? ==> r.error == if b.None? then SystemProgram.InvalidHex else SystemProgram.WrongLength(|txid| / 2))
      && (r.Ok? ==>
        DecodeAssociated(KeysOf(r.value.accounts), r.value.data)
          == Some(CreateAssociatedWithAnchor(funder, account, wallet, mint, b.value, vout)))
  {
    hide HexDecode, IsHex, BuildAssociated, DecodeAssociated;
    HexDecodesIff(txid);
    var h := SystemProgram.DecodeTxid(txid);
    if h.Ok? { AssociatedRoundTrip(CreateAssociatedWithAnchor(funder, account, wallet, mint, h.value, vout)); }
  }
}
