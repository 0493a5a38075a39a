/** What the compiled form keeps of its source: every key, every privilege, every instruction, and one
    canonical order. */
module CompileTheorems {
  import opened Bytes
  import opened Keys
  import opened Message
  import opened KeyTable

  // ---------------------------------------------------------------- reading a message back

  /** A reader's view: account i signs iff it lies in the first numRequiredSignatures positions. */
  predicate SignsAt(m: SanitizedMessage, i: nat) {
    i < m.header.numRequiredSignatures as nat
  }

  /** The readonly accounts are the last ones of the signed and of the unsigned part. */
  predicate WritableAt(m: SanitizedMessage, i: nat) {
    if SignsAt(m, i) then i < m.header.numRequiredSignatures as int - m.header.numReadonlySignedAccounts as int
    else i < |m.accountKeys| - m.header.numReadonlyUnsignedAccounts as int
  }

  predicate IndicesInRange(m: SanitizedMessage, si: SanitizedInstruction) {
    && si.programIdIndex as nat < |m.accountKeys|
    && forall j :: 0 <= j < |si.accounts| ==> si.accounts[j] as nat < |m.accountKeys|
  }

  /** Expand the indices of one compiled instruction, reading each privilege from the header. */
  function Expand(m: SanitizedMessage, si: SanitizedInstruction): Instruction
    requires IndicesInRange(m, si)
  {
    Instruction(
      m.accountKeys[si.programIdIndex],
      seq(|si.accounts|, j requires 0 <= j < |si.accounts| =>
        AccountMeta(
          m.accountKeys[si.accounts[j]], SignsAt(m, si.accounts[j] as nat), WritableAt(m, si.accounts[j] as nat))),
      si.data)
  }

  predicate Expandable(m: SanitizedMessage) {
    forall i :: 0 <= i < |m.instructions| ==> IndicesInRange(m, m.instructions[i])
  }

  function Decompile(m: SanitizedMessage): seq<Instruction>
    requires Expandable(m)
  {
    seq(|m.instructions|, i requires 0 <= i < |m.instructions| => Expand(m, m.instructions[i]))
  }

  // ---------------------------------------------------------------- success

  /** Compilation succeeds exactly when the distinct keys number at most 256, the distinct keys that must sign
      at most 255 and the distinct keys that neither sign nor write at most 255. */
  lemma MergedClasses(ixs: seq<Instruction>, payer: Option<Pubkey>)
    ensures var p, keys := Merged(ixs, payer), ReferencedKeys(ixs, payer);
      && p.Keys == keys
      && Signers(p) == (set k | k in keys && MustSign(ixs, payer, k))
      && ReadonlyNonSigners(p) == (set k | k in keys && !MustSign(ixs, payer, k) && !MustWrite(ixs, payer, k))
  {
    hide ReferencedKeys, MustSign, MustWrite;
  }

  lemma CompilesIff(ixs: seq<Instruction>, payer: Option<Pubkey>, blockhash: Hash)
    ensures Compile(ixs, payer, blockhash).Some? <==>
      && |ReferencedKeys(ixs, payer)| <= 256
      && |set k | k in ReferencedKeys(ixs, payer) && MustSign(ixs, payer, k)| <= 255
      && |set k | k in ReferencedKeys(ixs, payer) && !MustSign(ixs, payer, k) && !MustWrite(ixs, payer, k)| <= 255
  {
    MergedClasses(ixs, payer);
    hide Merged, Signers, ReadonlyNonSigners, ReferencedKeys, MustSign, MustWrite, Table, Header, Index;
  }

  lemma PayerFirst(p: map<Pubkey, Privilege>, payer: Option<Pubkey>, t: seq<Pubkey>)
    requires Ordered(p, payer, t) && Elements(t) == p.Keys && payer.Some? && payer.value in p
    ensures |t| > 0 && t[0] == payer.value
  {
    assert payer.value in Elements(t);
    var i: nat :| i < |t| && t[i] == payer.value;
    if i != 0 {
      assert Before(p, payer, t[0], t[i]);
      LexIrreflexive(t[i]);
    }
  }

  /** The table holds each referenced key exactly once, and the payer comes first. */
  lemma KeysExactlyOnce(ixs: seq<Instruction>, payer: Option<Pubkey>, blockhash: Hash)
    requires Compile(ixs, payer, blockhash).Some?
    ensures var m := Compile(ixs, payer, blockhash).value;
      && Distinct(m.accountKeys)
      && Elements(m.accountKeys) == ReferencedKeys(ixs, payer)
      && m.recentBlockhash == blockhash
      && (payer.Some? ==> |m.accountKeys| > 0 && m.accountKeys[0] == payer.value)
  {
    MergedKeys(ixs, payer);
    hide Merged, ReferencedKeys;
    var p := Merged(ixs, payer);
    if payer.Some? { PayerFirst(p, payer, Table(p, payer)); }
  }

  // ---------------------------------------------------------------- privileges from positions

  ghost function RankOf(p: map<Pubkey, Privilege>, payer: Option<Pubkey>, k: Pubkey): nat
    requires k in p
  {
    Rank(p[k], payer == Some(k))
  }

  ghost function UpToRank(p: map<Pubkey, Privilege>, payer: Option<Pubkey>, r: nat): set<Pubkey> {
    set k | k in p && RankOf(p, payer, k) <= r
  }

  /** In an ordered table the keys of rank at most r fill the positions below their number. */
  lemma RankFillsPrefix(p: map<Pubkey, Privilege>, payer: Option<Pubkey>, t: seq<Pubkey>, r: nat)
    requires Ordered(p, payer, t) && Elements(t) == p.Keys
    ensures forall i :: 0 <= i < |t| ==> (i < |UpToRank(p, payer, r)| <==> RankOf(p, payer, t[i]) <= r)
  {
    OrderedDistinct(p, payer, t);
    var c := 0;
    while c < |t| && RankOf(p, payer, t[c]) <= r
      invariant c <= |t|
      invariant forall i :: 0 <= i < c ==> RankOf(p, payer, t[i]) <= r
    {
      c := c + 1;
    }
    forall i | c <= i < |t|
      ensures RankOf(p, payer, t[i]) > r
    {
      assert c == i || Before(p, payer, t[c], t[i]);
    }
    hide RankOf, Ordered;
    assert UpToRank(p, payer, r) == Elements(t[..c]) by {
      forall k
        ensures k in UpToRank(p, payer, r) <==> k in t[..c]
      {
        assert k in Elements(t) <==> k in p.Keys;
      }
    }
    DistinctCardinality(t[..c]);
  }

  lemma RanksByPrivilege(p: map<Pubkey, Privilege>, payer: Option<Pubkey>, k: Pubkey)
    requires PayerPrivileged(p, payer) && k in p
    ensures RankOf(p, payer, k) <= 1 <==> p[k].signer && p[k].writable
    ensures RankOf(p, payer, k) <= 2 <==> p[k].signer
    ensures RankOf(p, payer, k) <= 3 <==> p[k].signer || p[k].writable
  {
  }

  lemma HeaderCountsRanks(p: map<Pubkey, Privilege>, payer: Option<Pubkey>)
    requires PayerPrivileged(p, payer)
    ensures |UpToRank(p, payer, 2)| == |Signers(p)|
    ensures |UpToRank(p, payer, 1)| == |Signers(p)| - |ReadonlySigners(p)|
    ensures |UpToRank(p, payer, 3)| == |p.Keys| - |ReadonlyNonSigners(p)|
  {
    forall k | k in p { RanksByPrivilege(p, payer, k); }
    hide RankOf, PayerPrivileged;
    assert UpToRank(p, payer, 2) == Signers(p);
    assert UpToRank(p, payer, 1) == Signers(p) - ReadonlySigners(p);
    assert ReadonlySigners(p) <= Signers(p);
    assert UpToRank(p, payer, 3) == p.Keys - ReadonlyNonSigners(p);
    assert ReadonlyNonSigners(p) <= p.Keys;
  }

  /** No privilege is lost and none is invented: what the header says about a position is exactly the OR of the
      flags its key has anywhere in the source, the payer being a writable signer. */
  lemma PrivilegesFromPositions(
    ixs: seq<Instruction>, payer: Option<Pubkey>, blockhash: Hash, m: SanitizedMessage, i: nat)
    requires Compile(ixs, payer, blockhash) == Some(m) && i < |m.accountKeys|
    ensures SignsAt(m, i) <==> MustSign(ixs, payer, m.accountKeys[i])
    ensures WritableAt(m, i) <==> MustWrite(ixs, payer, m.accountKeys[i])
  {
    var p := Merged(ixs, payer);
    var t := Table(p, payer);
    MergedKeys(ixs, payer);
    HeaderCountsRanks(p, payer);
    RankFillsPrefix(p, payer, t, 1);
    RankFillsPrefix(p, payer, t, 2);
    RankFillsPrefix(p, payer, t, 3);
    assert t[i] in Elements(t);
    RanksByPrivilege(p, payer, t[i]);
    hide MustSign, MustWrite, ReferencedKeys, RankOf, Ordered, UpToRank, PayerPrivileged;
    assert p[t[i]] == Privilege(MustSign(ixs, payer, t[i]), MustWrite(ixs, payer, t[i]));
  }

  // ---------------------------------------------------------------- decompilation

  /** Keys of equal privilege, the payer apart, stand in ascending byte order: at the first byte in which two of them
      differ, the one in front has the smaller. */
  lemma TableAscends(
    ixs: seq<Instruction>, payer: Option<Pubkey>, blockhash: Hash, m: SanitizedMessage, i: nat, j: nat)
    requires Compile(ixs, payer, blockhash) == Some(m) && i < j < |m.accountKeys|
    requires SignsAt(m, i) == SignsAt(m, j) && WritableAt(m, i) == WritableAt(m, j)
    requires payer != Some(m.accountKeys[i])
    ensures payer != Some(m.accountKeys[j])
    ensures SmallerAtFirstDifference(m.accountKeys[i], m.accountKeys[j])
  {
    PrivilegesFromPositions(ixs, payer, blockhash, m, i);
    PrivilegesFromPositions(ixs, payer, blockhash, m, j);
    var a, b := m.accountKeys[i], m.accountKeys[j];
    TableOrder(ixs, payer, blockhash, m, i, j);
    hide MustSign, MustWrite, Compile, LexLess, SmallerAtFirstDifference;
    LexLessIsBytewise(a, b);
  }

  lemma TableOrder(
    ixs: seq<Instruction>, payer: Option<Pubkey>, blockhash: Hash, m: SanitizedMessage, i: nat, j: nat)
    requires Compile(ixs, payer, blockhash) == Some(m) && i < j < |m.accountKeys|
    ensures var a, b := m.accountKeys[i], m.accountKeys[j];
      var ra := Rank(Privilege(MustSign(ixs, payer, a), MustWrite(ixs, payer, a)), payer == Some(a));
      var rb := Rank(Privilege(MustSign(ixs, payer, b), MustWrite(ixs, payer, b)), payer == Some(b));
      ra < rb || (ra == rb && LexLess(a, b))
  {
    var p := Merged(ixs, payer);
    var t := Table(p, payer);
    assert t[i] in t && t[j] in t;
    assert Before(p, payer, t[i], t[j]);
    hide MustSign, MustWrite, LexLess, Ordered, Rank;
  }

  ghost function KeysOf(metas: seq<AccountMeta>): seq<Pubkey> {
    seq(|metas|, j requires 0 <= j < |metas| => metas[j].pubkey)
  }

  /** The same instruction, with every account meta raised to its key's merged privileges. */
  ghost function WithMerged(ixs: seq<Instruction>, payer: Option<Pubkey>, ix: Instruction): Instruction {
    ix.(accounts := seq(|ix.accounts|, j requires 0 <= j < |ix.accounts| =>
      var k := ix.accounts[j].pubkey; AccountMeta(k, MustSign(ixs, payer, k), MustWrite(ixs, payer, k))))
  }

  lemma ExpandInvertsIndex(ixs: seq<Instruction>, payer: Option<Pubkey>, blockhash: Hash, i: nat)
    requires Compile(ixs, payer, blockhash).Some? && i < |ixs|
    ensures var m := Compile(ixs, payer, blockhash).value;
      && i < |m.instructions|
      && IndicesInRange(m, m.instructions[i])
      && Expand(m, m.instructions[i]) == WithMerged(ixs, payer, ixs[i])
  {
    hide Compile, MustSign, MustWrite, SignsAt, WritableAt;
    CompiledAt(ixs, payer, blockhash, i);
    var m := Compile(ixs, payer, blockhash).value;
    var si := m.instructions[i];
    var want := WithMerged(ixs, payer, ixs[i]);
    forall j | 0 <= j < |si.accounts|
      ensures si.accounts[j] as nat < |m.accountKeys|
      ensures Expand(m, si).accounts[j] == want.accounts[j]
    {
      PrivilegesFromPositions(ixs, payer, blockhash, m, si.accounts[j] as nat);
    }
  }

  /** Decompiling is a left inverse of compiling: program ids, account keys in order and with repeats, and data come
      back unchanged, each account with exactly its merged privileges. */
  lemma DecompileInvertsCompile(ixs: seq<Instruction>, payer: Option<Pubkey>, blockhash: Hash)
    requires Compile(ixs, payer, blockhash).Some?
    ensures var m := Compile(ixs, payer, blockhash).value;
      && Expandable(m)
      && |Decompile(m)| == |ixs|
      && forall i :: 0 <= i < |ixs| ==>
        && Decompile(m)[i].programId == ixs[i].programId
        && Decompile(m)[i].data == ixs[i].data
        && KeysOf(Decompile(m)[i].accounts) == KeysOf(ixs[i].accounts)
        && Decompile(m)[i] == WithMerged(ixs, payer, ixs[i])
  {
    var m := Compile(ixs, payer, blockhash).value;
    forall i | 0 <= i < |m.instructions|
      ensures IndicesInRange(m, m.instructions[i])
      ensures Expand(m, m.instructions[i]) == WithMerged(ixs, payer, ixs[i])
    {
      ExpandInvertsIndex(ixs, payer, blockhash, i);
    }
  }

  // ---------------------------------------------------------------- canonical form

  /** Everything but the instruction list is a function of the merged privileges. */
  lemma CompileDependsOnMerged(a: seq<Instruction>, b: seq<Instruction>, payer: Option<Pubkey>, blockhash: Hash)
    requires Merged(a, payer) == Merged(b, payer)
    ensures Compile(a, payer, blockhash).Some? == Compile(b, payer, blockhash).Some?
    ensures Compile(a, payer, blockhash).Some? ==>
      var m, n := Compile(a, payer, blockhash).value, Compile(b, payer, blockhash).value;
      m.accountKeys == n.accountKeys && m.header == n.header
  {
  }

  ghost predicate IsPermutation(p: seq<nat>, n: nat) {
    && |p| == n
    && (forall i :: 0 <= i < n ==> p[i] < n)
    && (forall j :: 0 <= j < n ==> j in p)
  }

  /** b is a with its instructions permuted by p and, in place i, the account metas permuted by q[i]. */
  ghost predicate Rearranged(a: seq<Instruction>, b: seq<Instruction>, p: seq<nat>, q: seq<seq<nat>>) {
    && IsPermutation(p, |a|) && |b| == |a| && |q| == |a|
    && forall i :: 0 <= i < |b| ==> MetasRearranged(a[p[i]], b[i], q[i])
  }

  ghost predicate MetasRearranged(x: Instruction, y: Instruction, q: seq<nat>) {
    && y.programId == x.programId && y.data == x.data
    && |y.accounts| == |x.accounts| && IsPermutation(q, |x.accounts|)
    && forall j :: 0 <= j < |y.accounts| ==> y.accounts[j] == x.accounts[q[j]]
  }

  lemma SameMetas(x: Instruction, y: Instruction, q: seq<nat>)
    requires MetasRearranged(x, y, q)
    ensures Elements(x.accounts) == Elements(y.accounts)
  {
    forall m | m in x.accounts
      ensures m in y.accounts
    {
      var j: nat :| j < |x.accounts| && x.accounts[j] == m;
      assert j in q;
      var i: nat :| i < |q| && q[i] == j;
      assert y.accounts[i] == m;
    }
  }

  /** Two instructions that name the same program and the same set of metas. */
  ghost predicate SameUse(x: Instruction, y: Instruction) {
    x.programId == y.programId && Elements(x.accounts) == Elements(y.accounts)
  }

  lemma SameUseSameFlags(x: Instruction, y: Instruction)
    requires SameUse(x, y)
    ensures InstructionKeys(x) == InstructionKeys(y)
    ensures forall k :: (SignedBy(x, k) <==> SignedBy(y, k)) && (WrittenBy(x, k) <==> WrittenBy(y, k))
  {
    forall m
      ensures m in x.accounts <==> m in y.accounts
    {
      assert m in Elements(x.accounts) <==> m in Elements(y.accounts);
    }
  }

  lemma MergedMonotone(a: seq<Instruction>, b: seq<Instruction>, payer: Option<Pubkey>)
    requires forall x :: x in a ==> exists y :: y in b && SameUse(x, y)
    ensures ReferencedKeys(a, payer) <= ReferencedKeys(b, payer)
    ensures forall k :: MustSign(a, payer, k) ==> MustSign(b, payer, k)
    ensures forall k :: MustWrite(a, payer, k) ==> MustWrite(b, payer, k)
  {
    forall x | x in a
      ensures exists y ::
          && y in b && InstructionKeys(x) == InstructionKeys(y)
          && forall k :: (SignedBy(x, k) ==> SignedBy(y, k)) && (WrittenBy(x, k) ==> WrittenBy(y, k))
    {
      var y :| y in b && SameUse(x, y);
      SameUseSameFlags(x, y);
    }
  }

  lemma RearrangedUses(a: seq<Instruction>, b: seq<Instruction>, p: seq<nat>, q: seq<seq<nat>>)
    requires Rearranged(a, b, p, q)
    ensures forall x :: x in a ==> exists y :: y in b && SameUse(x, y)
    ensures forall y :: y in b ==> exists x :: x in a && SameUse(y, x)
  {
    forall i | 0 <= i < |b|
      ensures SameUse(a[p[i]], b[i]) && SameUse(b[i], a[p[i]])
    {
      SameMetas(a[p[i]], b[i], q[i]);
    }
    forall x | x in a
      ensures exists y :: y in b && SameUse(x, y)
    {
      var j: nat :| j < |a| && a[j] == x;
      assert j in p;
      var i: nat :| i < |p| && p[i] == j;
      assert b[i] in b && SameUse(x, b[i]);
    }
    forall y | y in b
      ensures exists x :: x in a && SameUse(y, x)
    {
      var i: nat :| i < |b| && b[i] == y;
      assert a[p[i]] in a && SameUse(y, a[p[i]]);
    }
  }

  lemma RearrangedMerged(a: seq<Instruction>, b: seq<Instruction>, p: seq<nat>, q: seq<seq<nat>>, payer: Option<Pubkey>)
    requires Rearranged(a, b, p, q)
    ensures Merged(a, payer) == Merged(b, payer)
  {
    hide Rearranged, SameUse, MustSign, MustWrite, ReferencedKeys, Merged;
    RearrangedUses(a, b, p, q);
    MergedMonotone(a, b, payer);
    MergedMonotone(b, a, payer);
    SameMerged(a, b, payer);
  }

  lemma SameMerged(a: seq<Instruction>, b: seq<Instruction>, payer: Option<Pubkey>)
    requires ReferencedKeys(a, payer) == ReferencedKeys(b, payer)
    requires forall k :: MustSign(a, payer, k) == MustSign(b, payer, k)
    requires forall k :: MustWrite(a, payer, k) == MustWrite(b, payer, k)
    ensures Merged(a, payer) == Merged(b, payer)
  {
    hide MustSign, MustWrite, ReferencedKeys;
  }

  /** Compiled instruction y is x with its account indices permuted by q. */
  ghost predicate IndicesRearranged(x: SanitizedInstruction, y: SanitizedInstruction, q: seq<nat>) {
    && y.programIdIndex == x.programIdIndex && y.data == x.data
    && |y.accounts| == |x.accounts| && IsPermutation(q, |x.accounts|)
    && forall j :: 0 <= j < |y.accounts| ==> y.accounts[j] == x.accounts[q[j]]
  }

  lemma IndexRearranged(t: seq<Pubkey>, x: Instruction, y: Instruction, q: seq<nat>)
    requires |t| <= 256 && Resolves(t, x) && Resolves(t, y) && MetasRearranged(x, y, q)
    ensures IndicesRearranged(Index(t, x), Index(t, y), q)
  {
  }

  /** Permuting the instructions, or the metas inside them, leaves the key table and the header alone and permutes the
      compiled instructions, or the indices inside them, in the same way. */
  lemma CompileIsCanonical(
    a: seq<Instruction>, b: seq<Instruction>, p: seq<nat>, q: seq<seq<nat>>, payer: Option<Pubkey>, blockhash: Hash)
    requires Rearranged(a, b, p, q)
    ensures Compile(a, payer, blockhash).Some? == Compile(b, payer, blockhash).Some?
    ensures Compile(a, payer, blockhash).Some? ==>
      var m, n := Compile(a, payer, blockhash).value, Compile(b, payer, blockhash).value;
      && n.accountKeys == m.accountKeys && n.header == m.header && n.recentBlockhash == m.recentBlockhash
      && |n.instructions| == |m.instructions| == |a|
      && forall i :: 0 <= i < |a| ==> IndicesRearranged(m.instructions[p[i]], n.instructions[i], q[i])
  {
    RearrangedMerged(a, b, p, q, payer);
    hide Merged, IndicesRearranged;
    CompileDependsOnMerged(a, b, payer, blockhash);
    if Compile(a, payer, blockhash).Some? {
      var m, n := Compile(a, payer, blockhash).value, Compile(b, payer, blockhash).value;
      forall i | 0 <= i < |a|
        ensures IndicesRearranged(m.instructions[p[i]], n.instructions[i], q[i])
      {
        CompiledAt(a, payer, blockhash, p[i]);
        CompiledAt(b, payer, blockhash, i);
        IndexRearranged(m.accountKeys, a[p[i]], b[i], q[i]);
      }
    }
  }

  // ---------------------------------------------------------------- fixpoint

  lemma WithMergedSameKeys(ixs: seq<Instruction>, payer: Option<Pubkey>, ix: Instruction)
    ensures InstructionKeys(WithMerged(ixs, payer, ix)) == InstructionKeys(ix)
  {
    var x := WithMerged(ixs, payer, ix);
    forall k
      ensures k in InstructionKeys(x) <==> k in InstructionKeys(ix)
    {
      if j: nat :| j < |ix.accounts| && ix.accounts[j].pubkey == k {
        assert x.accounts[j].pubkey == k && x.accounts[j] in x.accounts && ix.accounts[j] in ix.accounts;
      }
    }
  }

  /** Raising every meta to the merged privileges changes no merged privilege. */
  lemma WithMergedFlags(ixs: seq<Instruction>, payer: Option<Pubkey>, ix: Instruction, k: Pubkey)
    ensures SignedBy(WithMerged(ixs, payer, ix), k) ==> MustSign(ixs, payer, k)
    ensures WrittenBy(WithMerged(ixs, payer, ix), k) ==> MustWrite(ixs, payer, k)
    ensures ix in ixs && SignedBy(ix, k) ==> SignedBy(WithMerged(ixs, payer, ix), k)
    ensures ix in ixs && WrittenBy(ix, k) ==> WrittenBy(WithMerged(ixs, payer, ix), k)
  {
    var x := WithMerged(ixs, payer, ix);
    if j: nat :| j < |ix.accounts| && ix.accounts[j].pubkey == k {
      assert x.accounts[j] == AccountMeta(k, MustSign(ixs, payer, k), MustWrite(ixs, payer, k));
      assert x.accounts[j] in x.accounts;
    }
  }

  lemma MergedIdempotent(ixs: seq<Instruction>, payer: Option<Pubkey>, raised: seq<Instruction>)
    requires |raised| == |ixs|
    requires forall i :: 0 <= i < |ixs| ==> raised[i] == WithMerged(ixs, payer, ixs[i])
    ensures Merged(raised, payer) == Merged(ixs, payer)
  {
    forall i | 0 <= i < |ixs|
      ensures InstructionKeys(raised[i]) == InstructionKeys(ixs[i])
      ensures ixs[i] in ixs && raised[i] in raised
    {
      WithMergedSameKeys(ixs, payer, ixs[i]);
    }
    forall k
      ensures k in ReferencedKeys(raised, payer) <==> k in ReferencedKeys(ixs, payer)
    {
    }
    forall k
      ensures MustSign(raised, payer, k) == MustSign(ixs, payer, k)
      ensures MustWrite(raised, payer, k) == MustWrite(ixs, payer, k)
    {
      forall i | 0 <= i < |ixs|
        ensures SignedBy(raised[i], k) ==> MustSign(ixs, payer, k)
        ensures WrittenBy(raised[i], k) ==> MustWrite(ixs, payer, k)
        ensures SignedBy(ixs[i], k) ==> SignedBy(raised[i], k)
        ensures WrittenBy(ixs[i], k) ==> WrittenBy(raised[i], k)
      {
        WithMergedFlags(ixs, payer, ixs[i], k);
      }
    }
  }

  /** Compilation is a fixpoint on its image: decompiling with the header's privileges and compiling again with the same
      payer and blockhash gives the identical message. */
  lemma CompileFixpoint(ixs: seq<Instruction>, payer: Option<Pubkey>, blockhash: Hash)
    requires Compile(ixs, payer, blockhash).Some?
    ensures var m := Compile(ixs, payer, blockhash).value;
      Expandable(m) && Compile(Decompile(m), payer, blockhash) == Some(m)
  {
    var m := Compile(ixs, payer, blockhash).value;
    DecompileInvertsCompile(ixs, payer, blockhash);
    var raised := Decompile(m);
    MergedIdempotent(ixs, payer, raised);
    hide Merged, Decompile, WithMerged, Index;
    CompileDependsOnMerged(ixs, raised, payer, blockhash);
    var n := Compile(raised, payer, blockhash).value;
    forall i | 0 <= i < |ixs|
      ensures n.instructions[i] == m.instructions[i]
    {
      CompiledAt(ixs, payer, blockhash, i);
      CompiledAt(raised, payer, blockhash, i);
      IndexIgnoresFlags(m.accountKeys, ixs[i], raised[i]);
    }
    assert n.instructions == m.instructions;
  }

  /** Compiled indices depend on the program, the account keys and the data only. */
  lemma IndexIgnoresFlags(t: seq<Pubkey>, x: Instruction, y: Instruction)
    requires |t| <= 256 && Resolves(t, x) && Resolves(t, y)
    requires x.programId == y.programId && x.data == y.data && KeysOf(x.accounts) == KeysOf(y.accounts)
    ensures Index(t, x) == Index(t, y)
  {
    forall j | 0 <= j < |x.accounts|
      ensures x.accounts[j].pubkey == y.accounts[j].pubkey
    {
      assert KeysOf(x.accounts)[j] == KeysOf(y.accounts)[j];
    }
  }
}
