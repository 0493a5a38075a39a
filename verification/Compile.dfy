/** compile.go: NewSanitizedMessage, section by section, proved to compute KeyTable.Compile. */
module Compiler {
  import opened Bytes
  import opened Keys
  import opened Message
  import opened KeyTable

  datatype CompileError = IndexOverflow | UnknownKey(key: Pubkey)

  datatype CompiledKeyMeta = CompiledKeyMeta(isSigner: bool, isWritable: bool, isInvoked: bool)

  type KeyMetaMap = map<Pubkey, CompiledKeyMeta>

  // ---------------------------------------------------------------- merging the flags

  function GetMeta(m: KeyMetaMap, k: Pubkey): CompiledKeyMeta {
    if k in m then m[k] else CompiledKeyMeta(false, false, false)
  }

  ghost predicate Invoked(ixs: seq<Instruction>, k: Pubkey) {
    exists ix :: ix in ixs && ix.programId == k
  }

  /** m holds exactly the referenced keys, each with the OR of its flags. */
  ghost predicate Describes(m: KeyMetaMap, ixs: seq<Instruction>, payer: Option<Pubkey>) {
    && m.Keys == ReferencedKeys(ixs, payer)
    && forall k :: k in m ==>
      m[k] == CompiledKeyMeta(MustSign(ixs, payer, k), MustWrite(ixs, payer, k), Invoked(ixs, k))
  }

  lemma OneMoreInstruction(ixs: seq<Instruction>, ix: Instruction, k: Pubkey)
    ensures ReferencedKeys(ixs + [ix], None) == ReferencedKeys(ixs, None) + InstructionKeys(ix)
    ensures MustSign(ixs + [ix], None, k) == (MustSign(ixs, None, k) || SignedBy(ix, k))
    ensures MustWrite(ixs + [ix], None, k) == (MustWrite(ixs, None, k) || WrittenBy(ix, k))
    ensures Invoked(ixs + [ix], k) == (Invoked(ixs, k) || ix.programId == k)
  {
    assert forall x :: x in ixs + [ix] <==> x in ixs || x == ix;
  }

  lemma OneMoreMeta(ix: Instruction, am: AccountMeta, k: Pubkey)
    ensures var more := ix.(accounts := ix.accounts + [am]);
      && InstructionKeys(more) == InstructionKeys(ix) + {am.pubkey}
      && SignedBy(more, k) == (SignedBy(ix, k) || (am.pubkey == k && am.isSigner))
      && WrittenBy(more, k) == (WrittenBy(ix, k) || (am.pubkey == k && am.isWritable))
  {
    var more := ix.(accounts := ix.accounts + [am]);
    assert forall x :: x in more.accounts <==> x in ix.accounts || x == am;
  }

  lemma Unreferenced(ixs: seq<Instruction>, k: Pubkey)
    requires k !in ReferencedKeys(ixs, None)
    ensures !MustSign(ixs, None, k) && !MustWrite(ixs, None, k) && !Invoked(ixs, k)
  {
    forall ix | ix in ixs
      ensures !SignedBy(ix, k) && !WrittenBy(ix, k) && ix.programId != k
    {
      assert k !in InstructionKeys(ix);
    }
  }

  lemma ProgramAt(ixs: seq<Instruction>, pid: Pubkey, data: seq<byte>, k: Pubkey)
    ensures var more := ixs + [Instruction(pid, [], data)];
      && ReferencedKeys(more, None) == ReferencedKeys(ixs, None) + {pid}
      && MustSign(more, None, k) == MustSign(ixs, None, k)
      && MustWrite(more, None, k) == MustWrite(ixs, None, k)
      && Invoked(more, k) == (Invoked(ixs, k) || pid == k)
  {
    var ix := Instruction(pid, [], data);
    assert InstructionKeys(ix) == {pid};
    assert !SignedBy(ix, k) && !WrittenBy(ix, k);
    hide MustSign, MustWrite, Invoked, SignedBy, WrittenBy, ReferencedKeys, InstructionKeys;
    OneMoreInstruction(ixs, ix, k);
  }

  lemma AddProgram(m: KeyMetaMap, ixs: seq<Instruction>, pid: Pubkey, data: seq<byte>)
    requires Describes(m, ixs, None)
    ensures Describes(m[pid := GetMeta(m, pid).(isInvoked := true)], ixs + [Instruction(pid, [], data)], None)
  {
    hide MustSign, MustWrite, Invoked, ReferencedKeys;
    var more := ixs + [Instruction(pid, [], data)];
    var m' := m[pid := GetMeta(m, pid).(isInvoked := true)];
    forall k | k in m'
      ensures m'[k] == CompiledKeyMeta(MustSign(more, None, k), MustWrite(more, None, k), Invoked(more, k))
    {
      ProgramAt(ixs, pid, data, k);
      if k !in m { Unreferenced(ixs, k); }
    }
    ProgramAt(ixs, pid, data, pid);
  }

  function Raise(m: CompiledKeyMeta, am: AccountMeta): CompiledKeyMeta {
    m.(isSigner := m.isSigner || am.isSigner, isWritable := m.isWritable || am.isWritable)
  }

  lemma RaiseAt(ixs: seq<Instruction>, ix: Instruction, am: AccountMeta, k: Pubkey)
    ensures var more := ixs + [ix.(accounts := ix.accounts + [am])];
      && ReferencedKeys(more, None) == ReferencedKeys(ixs + [ix], None) + {am.pubkey}
      && MustSign(more, None, k) == (MustSign(ixs + [ix], None, k) || (am.pubkey == k && am.isSigner))
      && MustWrite(more, None, k) == (MustWrite(ixs + [ix], None, k) || (am.pubkey == k && am.isWritable))
      && Invoked(more, k) == Invoked(ixs + [ix], k)
  {
    hide MustSign, MustWrite, Invoked, SignedBy, WrittenBy, ReferencedKeys, InstructionKeys;
    OneMoreMeta(ix, am, k);
    OneMoreInstruction(ixs, ix, k);
    OneMoreInstruction(ixs, ix.(accounts := ix.accounts + [am]), k);
  }

  lemma AddMeta(m: KeyMetaMap, ixs: seq<Instruction>, ix: Instruction, am: AccountMeta)
    requires Describes(m, ixs + [ix], None)
    ensures Describes(
      m[am.pubkey := Raise(GetMeta(m, am.pubkey), am)], ixs + [ix.(accounts := ix.accounts + [am])], None)
  {
    hide MustSign, MustWrite, Invoked, ReferencedKeys;
    var more := ixs + [ix.(accounts := ix.accounts + [am])];
    var m' := m[am.pubkey := Raise(GetMeta(m, am.pubkey), am)];
    forall k | k in m'
      ensures m'[k] == CompiledKeyMeta(MustSign(more, None, k), MustWrite(more, None, k), Invoked(more, k))
    {
      RaiseAt(ixs, ix, am, k);
      if k !in m { Unreferenced(ixs + [ix], k); }
    }
    RaiseAt(ixs, ix, am, am.pubkey);
  }

  lemma AddPayer(m: KeyMetaMap, ixs: seq<Instruction>, payer: Pubkey)
    requires Describes(m, ixs, None)
    ensures Describes(m[payer := GetMeta(m, payer).(isSigner := true, isWritable := true)], ixs, Some(payer))
  {
    if payer !in m { Unreferenced(ixs, payer); }
  }

  method MergeAccounts(before: KeyMetaMap, ghost done: seq<Instruction>, ix: Instruction) returns (m: KeyMetaMap)
    requires Describes(before, done, None)
    ensures Describes(m, done + [ix], None)
  {
    hide Describes, GetMeta, Raise;
    m := before[ix.programId := GetMeta(before, ix.programId).(isInvoked := true)];
    AddProgram(before, done, ix.programId, ix.data);
    ghost var seen := ix.(accounts := []);
    for j := 0 to |ix.accounts|
      invariant seen == ix.(accounts := ix.accounts[..j])
      invariant Describes(m, done + [seen], None)
    {
      var am := ix.accounts[j];
      AddMeta(m, done, seen, am);
      m := m[am.pubkey := Raise(GetMeta(m, am.pubkey), am)];
      seen := seen.(accounts := seen.accounts + [am]);
      assert ix.accounts[..j + 1] == ix.accounts[..j] + [am];
    }
    assert ix.accounts[..|ix.accounts|] == ix.accounts;
  }

  method MergeMetas(ixs: seq<Instruction>, payer: Option<Pubkey>) returns (m: KeyMetaMap)
    ensures Describes(m, ixs, payer)
  {
    m := map[];
    for i := 0 to |ixs|
      invariant Describes(m, ixs[..i], None)
    {
      hide Describes;
      m := MergeAccounts(m, ixs[..i], ixs[i]);
      assert ixs[..i + 1] == ixs[..i] + [ixs[i]];
    }
    assert ixs[..|ixs|] == ixs;
    if payer.Some? {
      AddPayer(m, ixs, payer.value);
      m := m[payer.value := GetMeta(m, payer.value).(isSigner := true, isWritable := true)];
    }
  }

  // ---------------------------------------------------------------- draining and sorting

  function PayerSet(payer: Option<Pubkey>): set<Pubkey> {
    if payer.Some? then {payer.value} else {}
  }

  /** Go iterates a map in an arbitrary order; the choice below is as free. */
  method DrainKeys(m: KeyMetaMap, payer: Option<Pubkey>) returns (keys: seq<Pubkey>)
    ensures Distinct(keys) && Elements(keys) == m.Keys - PayerSet(payer)
  {
    keys := [];
    var left := m.Keys;
    while left != {}
      invariant left <= m.Keys
      invariant Distinct(keys)
      invariant Elements(keys) == m.Keys - PayerSet(payer) - left
      decreases left
    {
      var k :| k in left;
      assert k !in Elements(keys);
      left := left - {k};
      if payer != Some(k) {
        ElementsConcat(keys, [k]);
        keys := keys + [k];
      }
    }
  }

  predicate LexSorted(s: seq<Pubkey>) {
    forall i, j :: 0 <= i < j < |s| ==> LexLess(s[i], s[j])
  }

  /** The position at which k keeps s sorted. */
  method InsertionPoint(s: seq<Pubkey>, k: Pubkey) returns (p: nat)
    requires LexSorted(s) && k !in s
    ensures p <= |s|
    ensures forall i :: 0 <= i < p ==> LexLess(s[i], k)
    ensures forall i :: p <= i < |s| ==> LexLess(k, s[i])
  {
    p := |s|;
    while p > 0 && LexLess(k, s[p - 1])
      invariant p <= |s|
      invariant forall i :: p <= i < |s| ==> LexLess(k, s[i])
    {
      p := p - 1;
    }
    if p > 0 { LexTotal(s[p - 1], k); }
    forall i | 0 <= i < p
      ensures LexLess(s[i], k)
    {
      if i < p - 1 { LexTransitive(s[i], s[p - 1], k); }
    }
  }

  /** What sort.Slice does to the drained keys. */
  method SortKeys(keys: seq<Pubkey>) returns (s: seq<Pubkey>)
    requires Distinct(keys)
    ensures LexSorted(s) && Elements(s) == Elements(keys)
    ensures forall i, j :: 0 <= i < j < |s| ==> SmallerAtFirstDifference(s[i], s[j])
  {
    s := [];
    for i := 0 to |keys|
      invariant LexSorted(s) && Elements(s) == Elements(keys[..i])
    {
      assert keys[i] !in s by { assert keys[i] !in Elements(keys[..i]); }
      var p := InsertionPoint(s, keys[i]);
      InsertKeepsSorted(s, keys[i], p);
      s := s[..p] + [keys[i]] + s[p..];
      assert Elements(keys[..i + 1]) == Elements(keys[..i]) + {keys[i]};
    }
    assert keys[..|keys|] == keys;
    SortedBytewise(s);
  }

  lemma SortedBytewise(s: seq<Pubkey>)
    requires LexSorted(s)
    ensures forall i, j :: 0 <= i < j < |s| ==> SmallerAtFirstDifference(s[i], s[j])
  {
    forall i, j | 0 <= i < j < |s|
      ensures SmallerAtFirstDifference(s[i], s[j])
    {
      LexLessIsBytewise(s[i], s[j]);
    }
  }

  lemma InsertKeepsSorted(s: seq<Pubkey>, k: Pubkey, p: nat)
    requires LexSorted(s) && p <= |s|
    requires forall i :: 0 <= i < p ==> LexLess(s[i], k)
    requires forall i :: p <= i < |s| ==> LexLess(k, s[i])
    ensures LexSorted(s[..p] + [k] + s[p..])
    ensures Elements(s[..p] + [k] + s[p..]) == Elements(s) + {k}
  {
    var r := s[..p] + [k] + s[p..];
    hide LexLess;
    forall i, j | 0 <= i < j < |r|
      ensures LexLess(r[i], r[j])
    {
      assert r[i] == if i < p then s[i] else if i == p then k else s[i - 1];
      assert r[j] == if j < p then s[j] else if j == p then k else s[j - 1];
    }
    forall x
      ensures x in r <==> x in Elements(s) + {k}
    {
      assert r[p] == k;
      if i: nat :| i < |s| && s[i] == x {
        assert r[if i < p then i else i + 1] == x;
      }
    }
  }

  // ---------------------------------------------------------------- partition

  predicate HasFlags(m: KeyMetaMap, k: Pubkey, signer: bool, writable: bool)
    requires k in m
  {
    m[k].isSigner == signer && m[k].isWritable == writable
  }

  /** g is the sublist of the sorted keys whose merged flags are these. */
  ghost predicate IsGroup(m: KeyMetaMap, sorted: seq<Pubkey>, g: seq<Pubkey>, signer: bool, writable: bool)
    requires forall k :: k in sorted ==> k in m
  {
    && LexSorted(g)
    && forall k :: k in g <==> k in sorted && HasFlags(m, k, signer, writable)
  }

  lemma GroupStep(m: KeyMetaMap, sorted: seq<Pubkey>, i: nat, g: seq<Pubkey>, signer: bool, writable: bool)
    requires i < |sorted| && LexSorted(sorted)
    requires forall k :: k in sorted ==> k in m
    requires IsGroup(m, sorted[..i], g, signer, writable)
    ensures var k := sorted[i];
      IsGroup(m, sorted[..i + 1], if HasFlags(m, k, signer, writable) then g + [k] else g, signer, writable)
  {
    var k := sorted[i];
    hide LexLess;
    assert sorted[..i + 1] == sorted[..i] + [k];
    forall j | 0 <= j < |g|
      ensures LexLess(g[j], k)
    {
      assert g[j] in sorted[..i];
    }
  }

  method Partition(m: KeyMetaMap, sorted: seq<Pubkey>)
    returns (ws: seq<Pubkey>, rs: seq<Pubkey>, wn: seq<Pubkey>, rn: seq<Pubkey>)
    requires LexSorted(sorted)
    requires forall k :: k in sorted ==> k in m
    ensures IsGroup(m, sorted, ws, true, true) && IsGroup(m, sorted, rs, true, false)
    ensures IsGroup(m, sorted, wn, false, true) && IsGroup(m, sorted, rn, false, false)
  {
    ws, rs, wn, rn := [], [], [], [];
    for i := 0 to |sorted|
      invariant IsGroup(m, sorted[..i], ws, true, true) && IsGroup(m, sorted[..i], rs, true, false)
      invariant IsGroup(m, sorted[..i], wn, false, true) && IsGroup(m, sorted[..i], rn, false, false)
    {
      GroupStep(m, sorted, i, ws, true, true);
      GroupStep(m, sorted, i, rs, true, false);
      GroupStep(m, sorted, i, wn, false, true);
      GroupStep(m, sorted, i, rn, false, false);
      hide IsGroup, LexSorted;
      var key := sorted[i];
      if m[key].isSigner && m[key].isWritable {
        ws := ws + [key];
      } else if m[key].isSigner && !m[key].isWritable {
        rs := rs + [key];
      } else if !m[key].isSigner && m[key].isWritable {
        wn := wn + [key];
      } else {
        rn := rn + [key];
      }
    }
    assert sorted[..|sorted|] == sorted;
  }

  // ---------------------------------------------------------------- the groups make the table

  ghost predicate RankGroup(p: map<Pubkey, Privilege>, payer: Option<Pubkey>, g: seq<Pubkey>, r: nat) {
    LexSorted(g) && forall k :: k in g ==> k in p && Rank(p[k], payer == Some(k)) == r
  }

  ghost predicate RanksUpTo(p: map<Pubkey, Privilege>, payer: Option<Pubkey>, t: seq<Pubkey>, r: nat) {
    Ordered(p, payer, t) && forall k :: k in t ==> Rank(p[k], payer == Some(k)) <= r
  }

  lemma AppendGroup(p: map<Pubkey, Privilege>, payer: Option<Pubkey>, t: seq<Pubkey>, g: seq<Pubkey>, r: nat)
    requires RanksUpTo(p, payer, t, r) && RankGroup(p, payer, g, r + 1)
    ensures RanksUpTo(p, payer, t + g, r + 1)
  {
    hide LexLess, Rank;
    var u := t + g;
    forall i, j | 0 <= i < j < |u|
      ensures Before(p, payer, u[i], u[j])
    {
      if j < |t| {
        assert u[i] == t[i] && u[j] == t[j];
      } else if i < |t| {
        assert u[i] == t[i] && u[j] == g[j - |t|];
        assert t[i] in t && g[j - |t|] in g;
      } else {
        assert u[i] == g[i - |t|] && u[j] == g[j - |t|];
        assert g[i - |t|] in g && g[j - |t|] in g;
      }
    }
  }

  /** The privileges the meta map holds, as the specification speaks of them. */
  ghost function Privileges(m: KeyMetaMap): map<Pubkey, Privilege> {
    map k | k in m :: Privilege(m[k].isSigner, m[k].isWritable)
  }

  lemma DescribesMerged(m: KeyMetaMap, ixs: seq<Instruction>, payer: Option<Pubkey>)
    requires Describes(m, ixs, payer)
    ensures Privileges(m) == Merged(ixs, payer)
  {
    hide MustSign, MustWrite, ReferencedKeys;
  }

  function PayerSeq(payer: Option<Pubkey>): seq<Pubkey> {
    if payer.Some? then [payer.value] else []
  }

  /** What draining, sorting and partitioning leave behind. */
  ghost predicate Grouped(
    m: KeyMetaMap, payer: Option<Pubkey>, ws: seq<Pubkey>, rs: seq<Pubkey>, wn: seq<Pubkey>, rn: seq<Pubkey>)
  {
    && PayerPrivileged(Privileges(m), payer)
    && InGroup(m, payer, ws, true, true) && InGroup(m, payer, rs, true, false)
    && InGroup(m, payer, wn, false, true) && InGroup(m, payer, rn, false, false)
  }

  ghost predicate InGroup(m: KeyMetaMap, payer: Option<Pubkey>, g: seq<Pubkey>, signer: bool, writable: bool) {
    && LexSorted(g)
    && forall k :: k in g <==> k in m && payer != Some(k) && HasFlags(m, k, signer, writable)
  }

  lemma SortedGroupRank(m: KeyMetaMap, payer: Option<Pubkey>, g: seq<Pubkey>, signer: bool, writable: bool)
    requires InGroup(m, payer, g, signer, writable)
    ensures RankGroup(Privileges(m), payer, g, Rank(Privilege(signer, writable), false))
  {
    hide LexSorted;
  }

  lemma GroupsMakeTable(
    m: KeyMetaMap, payer: Option<Pubkey>, ws: seq<Pubkey>, rs: seq<Pubkey>, wn: seq<Pubkey>, rn: seq<Pubkey>)
    requires Grouped(m, payer, ws, rs, wn, rn)
    ensures PayerSeq(payer) + ws + rs + wn + rn == Table(Privileges(m), payer)
  {
    var p := Privileges(m);
    SortedGroupRank(m, payer, ws, true, true);
    SortedGroupRank(m, payer, rs, true, false);
    SortedGroupRank(m, payer, wn, false, true);
    SortedGroupRank(m, payer, rn, false, false);
    var t0 := PayerSeq(payer);
    assert RanksUpTo(p, payer, t0, 0);
    GroupsCover(m, payer, ws, rs, wn, rn);
    assert p.Keys == m.Keys;
    hide Grouped, InGroup, LexSorted, Privileges, RankGroup, PayerSeq, Ordered, Table;
    var t1, t2, t3 := t0 + ws, t0 + ws + rs, t0 + ws + rs + wn;
    AppendGroup(p, payer, t0, ws, 0);
    AppendGroup(p, payer, t1, rs, 1);
    AppendGroup(p, payer, t2, wn, 2);
    AppendGroup(p, payer, t3, rn, 3);
    OrderedUnique(p, payer, t3 + rn, Table(p, payer));
  }

  lemma GroupsCover(
    m: KeyMetaMap, payer: Option<Pubkey>, ws: seq<Pubkey>, rs: seq<Pubkey>, wn: seq<Pubkey>, rn: seq<Pubkey>)
    requires Grouped(m, payer, ws, rs, wn, rn)
    ensures Elements(PayerSeq(payer) + ws + rs + wn + rn) == m.Keys
  {
    hide LexSorted;
    forall k
      ensures k in PayerSeq(payer) + ws + rs + wn + rn <==> k in m.Keys
    {
    }
  }

  lemma LexSortedDistinct(g: seq<Pubkey>)
    requires LexSorted(g)
    ensures Distinct(g)
  {
    forall i, j | 0 <= i < j < |g|
      ensures g[i] != g[j]
    {
      LexIrreflexive(g[i]);
    }
  }

  lemma ReadonlyGroup(m: KeyMetaMap, payer: Option<Pubkey>, g: seq<Pubkey>, signer: bool)
    requires PayerPrivileged(Privileges(m), payer) && InGroup(m, payer, g, signer, false)
    ensures |g| == |set k | k in Privileges(m) && Privileges(m)[k] == Privilege(signer, false)|
  {
    LexSortedDistinct(g);
    DistinctCardinality(g);
    hide LexSorted, Distinct;
    assert Elements(g) == set k | k in Privileges(m) && Privileges(m)[k] == Privilege(signer, false);
  }

  lemma SignersAre(m: KeyMetaMap, payer: Option<Pubkey>, ws: seq<Pubkey>, rs: seq<Pubkey>)
    requires PayerPrivileged(Privileges(m), payer)
    requires InGroup(m, payer, ws, true, true) && InGroup(m, payer, rs, true, false)
    ensures Elements(PayerSeq(payer) + ws + rs) == Signers(Privileges(m))
  {
    hide LexSorted;
    var p := Privileges(m);
    forall k
      ensures k in PayerSeq(payer) + ws + rs <==> k in Signers(p)
    {
    }
  }

  /** The lengths the code tests and stores are the cardinalities of the privilege classes. */
  lemma GroupLengths(
    m: KeyMetaMap, payer: Option<Pubkey>, ws: seq<Pubkey>, rs: seq<Pubkey>, wn: seq<Pubkey>, rn: seq<Pubkey>)
    requires Grouped(m, payer, ws, rs, wn, rn)
    ensures var p := Privileges(m);
      && |PayerSeq(payer) + ws| + |rs| == |Signers(p)|
      && |rs| == |ReadonlySigners(p)|
      && |rn| == |ReadonlyNonSigners(p)|
      && |PayerSeq(payer) + ws| + |rs| + |wn| + |rn| == |p.Keys|
  {
    var p := Privileges(m);
    GroupsMakeTable(m, payer, ws, rs, wn, rn);
    SignersAre(m, payer, ws, rs);
    ReadonlyGroup(m, payer, rs, true);
    ReadonlyGroup(m, payer, rn, false);
    hide Grouped, Privileges, PayerSeq, Ordered;
    ReadonlyClasses(p);
    var t := PayerSeq(payer) + ws + rs;
    PrefixLength(t, wn, rn, Table(p, payer));
  }

  lemma ReadonlyClasses(p: map<Pubkey, Privilege>)
    ensures ReadonlySigners(p) == set k | k in p && p[k] == Privilege(true, false)
    ensures ReadonlyNonSigners(p) == set k | k in p && p[k] == Privilege(false, false)
  {
  }

  lemma PrefixLength(t: seq<Pubkey>, wn: seq<Pubkey>, rn: seq<Pubkey>, table: seq<Pubkey>)
    requires Distinct(table) && t + wn + rn == table
    ensures |t| == |Elements(t)| && |table| == |t| + |wn| + |rn|
  {
    assert t == table[..|t|];
    DistinctCardinality(t);
  }

  // ---------------------------------------------------------------- indices

  method BuildIndex(accountKeys: seq<Pubkey>) returns (keyIndex: map<Pubkey, byte>)
    requires |accountKeys| <= 256 && Distinct(accountKeys)
    ensures keyIndex.Keys == Elements(accountKeys)
    ensures forall i :: 0 <= i < |accountKeys| ==> keyIndex[accountKeys[i]] as nat == i
  {
    keyIndex := map[];
    for i := 0 to |accountKeys|
      invariant keyIndex.Keys == Elements(accountKeys[..i])
      invariant forall j :: 0 <= j < i ==> accountKeys[j] in keyIndex && keyIndex[accountKeys[j]] as nat == j
    {
      keyIndex := keyIndex[accountKeys[i] := (i % 256) as byte];
      assert Elements(accountKeys[..i + 1]) == Elements(accountKeys[..i]) + {accountKeys[i]};
    }
    assert accountKeys[..|accountKeys|] == accountKeys;
  }

  ghost predicate Known(keyIndex: map<Pubkey, byte>, ix: Instruction) {
    ix.programId in keyIndex && forall am :: am in ix.accounts ==> am.pubkey in keyIndex
  }

  ghost predicate IsIndexed(keyIndex: map<Pubkey, byte>, ix: Instruction, si: SanitizedInstruction)
    requires Known(keyIndex, ix)
  {
    && si.programIdIndex == keyIndex[ix.programId] && si.data == ix.data
    && |si.accounts| == |ix.accounts|
    && forall j :: 0 <= j < |ix.accounts| ==> si.accounts[j] == keyIndex[ix.accounts[j].pubkey]
  }

  method CompileInstruction(keyIndex: map<Pubkey, byte>, ix: Instruction)
    returns (r: Result<SanitizedInstruction, CompileError>)
    ensures r.Ok? <==> Known(keyIndex, ix)
    ensures r.Ok? ==> IsIndexed(keyIndex, ix, r.value)
    ensures r.Err? ==> r.error.UnknownKey? && r.error.key !in keyIndex && r.error.key in InstructionKeys(ix)
  {
    if ix.programId !in keyIndex {
      return Err(UnknownKey(ix.programId));
    }
    var accounts: seq<byte> := [];
    for j := 0 to |ix.accounts|
      invariant |accounts| == j
      invariant forall i :: 0 <= i < j ==>
        ix.accounts[i].pubkey in keyIndex && accounts[i] == keyIndex[ix.accounts[i].pubkey]
    {
      var key := ix.accounts[j].pubkey;
      if key !in keyIndex {
        return Err(UnknownKey(key));
      }
      accounts := accounts + [keyIndex[key]];
    }
    return Ok(SanitizedInstruction(keyIndex[ix.programId], accounts, ix.data));
  }

  method CompileInstructions(keyIndex: map<Pubkey, byte>, ixs: seq<Instruction>)
    returns (r: Result<seq<SanitizedInstruction>, CompileError>)
    ensures r.Ok? <==> forall ix :: ix in ixs ==> Known(keyIndex, ix)
    ensures r.Ok? ==> |r.value| == |ixs| && forall i :: 0 <= i < |ixs| ==> IsIndexed(keyIndex, ixs[i], r.value[i])
    ensures r.Err? ==> r.error.UnknownKey? && r.error.key !in keyIndex
  {
    var compiled: seq<SanitizedInstruction> := [];
    hide Known, IsIndexed;
    for i := 0 to |ixs|
      invariant |compiled| == i
      invariant forall j :: 0 <= j < i ==> Known(keyIndex, ixs[j]) && IsIndexed(keyIndex, ixs[j], compiled[j])
    {
      var c := CompileInstruction(keyIndex, ixs[i]);
      match c {
        case Ok(si) => compiled := compiled + [si];
        case Err(e) => return Err(e);
      }
    }
    return Ok(compiled);
  }

  lemma IndexedIsIndex(t: seq<Pubkey>, keyIndex: map<Pubkey, byte>, ix: Instruction, si: SanitizedInstruction)
    requires |t| <= 256 && Resolves(t, ix)
    requires keyIndex.Keys == Elements(t) && forall i :: 0 <= i < |t| ==> keyIndex[t[i]] as nat == i
    requires Known(keyIndex, ix) && IsIndexed(keyIndex, ix, si)
    ensures si == Index(t, ix)
  {
    forall k | k in t
      ensures keyIndex[k] as nat == IndexOf(t, k)
    {
    }
  }

  // ---------------------------------------------------------------- NewSanitizedMessage

  lemma PartitionGroups(
    m: KeyMetaMap, payer: Option<Pubkey>, sorted: seq<Pubkey>, g: seq<Pubkey>, signer: bool, writable: bool)
    requires Elements(sorted) == m.Keys - PayerSet(payer)
    requires forall k :: k in sorted ==> k in m
    requires IsGroup(m, sorted, g, signer, writable)
    ensures InGroup(m, payer, g, signer, writable)
  {
    hide LexSorted;
    forall k
      ensures k in sorted <==> k in m && payer != Some(k)
    {
      assert k in Elements(sorted) <==> k in m.Keys - PayerSet(payer);
    }
  }

  /** The grouping stage: the four lists, the payer leading the first one, make up the key table, and their lengths are
      the counts the header reports. */
  method GroupKeys(ixs: seq<Instruction>, payer: Option<Pubkey>)
    returns (ws: seq<Pubkey>, rs: seq<Pubkey>, wn: seq<Pubkey>, rn: seq<Pubkey>)
    ensures var p := Merged(ixs, payer);
      && ws + rs + wn + rn == Table(p, payer)
      && |ws| + |rs| == |Signers(p)|
      && |rs| == |ReadonlySigners(p)|
      && |rn| == |ReadonlyNonSigners(p)|
      && |ws| + |rs| + |wn| + |rn| == |p.Keys|
  {
    var m := MergeMetas(ixs, payer);
    DescribesMerged(m, ixs, payer);
    MergedKeys(ixs, payer);
    hide Describes, Merged;
    var sortedKeys := DrainKeys(m, payer);
    sortedKeys := SortKeys(sortedKeys);
    forall k | k in sortedKeys
      ensures k in m
    {
      assert k in Elements(sortedKeys);
    }
    ws, rs, wn, rn := Partition(m, sortedKeys);
    PartitionGroups(m, payer, sortedKeys, ws, true, true);
    PartitionGroups(m, payer, sortedKeys, rs, true, false);
    PartitionGroups(m, payer, sortedKeys, wn, false, true);
    PartitionGroups(m, payer, sortedKeys, rn, false, false);
    hide InGroup, IsGroup, LexSorted;
    assert Grouped(m, payer, ws, rs, wn, rn);
    GroupLengths(m, payer, ws, rs, wn, rn);
    GroupsMakeTable(m, payer, ws, rs, wn, rn);
    hide Grouped, Privileges, Table, Signers, ReadonlySigners, ReadonlyNonSigners;
    ws := PayerSeq(payer) + ws;
  }

  /** Every key the instructions name is in the index, so the instructions compile, and to the right indices. */
  lemma Assembled(
    ixs: seq<Instruction>, payer: Option<Pubkey>, blockhash: Hash, keyIndex: map<Pubkey, byte>,
    compiled: Result<seq<SanitizedInstruction>, CompileError>)
    requires TableFits(Merged(ixs, payer))
    requires var t := Table(Merged(ixs, payer), payer);
      keyIndex.Keys == Elements(t) && forall i :: 0 <= i < |t| ==> keyIndex[t[i]] as nat == i
    requires compiled.Ok? <==> forall ix :: ix in ixs ==> Known(keyIndex, ix)
    requires compiled.Ok? ==>
      |compiled.value| == |ixs| && forall i :: 0 <= i < |ixs| ==> IsIndexed(keyIndex, ixs[i], compiled.value[i])
    ensures compiled.Ok?
    ensures Compile(ixs, payer, blockhash)
      == Some(SanitizedMessage(Header(Merged(ixs, payer)), Table(Merged(ixs, payer), payer), blockhash, compiled.value))
  {
    var t := Table(Merged(ixs, payer), payer);
    TableResolves(ixs, payer);
    hide Merged, Table, Header;
    forall ix | ix in ixs
      ensures Known(keyIndex, ix)
    {
      assert Resolves(t, ix);
    }
    var m := Compile(ixs, payer, blockhash).value;
    forall i | 0 <= i < |ixs|
      ensures compiled.value[i] == m.instructions[i]
    {
      CompiledAt(ixs, payer, blockhash, i);
      IndexedIsIndex(t, keyIndex, ixs[i], compiled.value[i]);
    }
    assert compiled.value == m.instructions;
  }

  lemma OverflowIff(p: map<Pubkey, Privilege>, signers: nat, rs: nat, rn: nat, total: nat)
    requires signers == |Signers(p)| && rs == |ReadonlySigners(p)| && rn == |ReadonlyNonSigners(p)| && total == |p.Keys|
    ensures TableFits(p) <==> !(signers > 255 || rs > 255 || rn > 255 || total > 256)
    ensures TableFits(p) ==> Header(p) == MessageHeader((signers % 256) as byte, (rs % 256) as byte, (rn % 256) as byte)
  {
    assert ReadonlySigners(p) <= Signers(p);
    SubsetCardinality(ReadonlySigners(p), Signers(p));
  }

  /** The indexing stage: over the key table, every instruction compiles. */
  method IndexInstructions(
    ixs: seq<Instruction>, ghost payer: Option<Pubkey>, ghost blockhash: Hash, accountKeys: seq<Pubkey>)
    returns (compiled: Result<seq<SanitizedInstruction>, CompileError>)
    requires TableFits(Merged(ixs, payer)) && accountKeys == Table(Merged(ixs, payer), payer)
    ensures compiled.Ok?
    ensures Compile(ixs, payer, blockhash)
      == Some(SanitizedMessage(Header(Merged(ixs, payer)), accountKeys, blockhash, compiled.value))
  {
    hide Merged, Compile, Header, Table, Known, IsIndexed;
    var keyIndex := BuildIndex(accountKeys);
    compiled := CompileInstructions(keyIndex, ixs);
    Assembled(ixs, payer, blockhash, keyIndex, compiled);
  }

  lemma CompilesWhenFits(ixs: seq<Instruction>, payer: Option<Pubkey>, blockhash: Hash)
    ensures Compile(ixs, payer, blockhash).Some? <==> TableFits(Merged(ixs, payer))
  {
    hide Merged, TableFits, Header, Table;
  }

  /** The result depends on the arguments only, whatever order the key map was drained in; the unknown-key error of
      CompileInstruction never comes out. */
  method NewSanitizedMessage(ixs: seq<Instruction>, payer: Option<Pubkey>, recentBlockhash: Hash)
    returns (r: Result<SanitizedMessage, CompileError>)
    ensures Compile(ixs, payer, recentBlockhash).Some? ==> r == Ok(Compile(ixs, payer, recentBlockhash).value)
    ensures Compile(ixs, payer, recentBlockhash).None? ==> r == Err(IndexOverflow)
  {
    var ws, rs, wn, rn := GroupKeys(ixs, payer);
    ghost var p := Merged(ixs, payer);
    hide Merged, Compile, Header, Table, TableFits, Signers, ReadonlySigners, ReadonlyNonSigners;
    CompilesWhenFits(ixs, payer, recentBlockhash);

    var signersLen := |ws| + |rs|;
    var totalKeys := signersLen + |wn| + |rn|;
    OverflowIff(p, signersLen, |rs|, |rn|, totalKeys);
    if signersLen > 255 || |rs| > 255 || |rn| > 255 || totalKeys > 256 {
      return Err(IndexOverflow);
    }
    var accountKeys := ws + rs + wn + rn;
    var compiled := IndexInstructions(ixs, payer, recentBlockhash, accountKeys);
    var header := MessageHeader((signersLen % 256) as byte, (|rs| % 256) as byte, (|rn| % 256) as byte);
    match compiled {
      case Ok(cs) => r := Ok(SanitizedMessage(header, accountKeys, recentBlockhash, cs));
      case Err(e) => r := Err(e);
    }
  }
}
