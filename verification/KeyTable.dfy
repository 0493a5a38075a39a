/** What compile.go must produce: the merged privileges of every key, the one order the key table can have, and
    the header that lets a reader recover the privileges from positions alone. */
module KeyTable {
  import opened Bytes
  import opened Keys
  import opened Message

  // ---------------------------------------------------------------- merged privileges

  datatype Privilege = Privilege(signer: bool, writable: bool)

  ghost predicate SignedBy(ix: Instruction, k: Pubkey) {
    exists m :: m in ix.accounts && m.pubkey == k && m.isSigner
  }

  ghost predicate WrittenBy(ix: Instruction, k: Pubkey) {
    exists m :: m in ix.accounts && m.pubkey == k && m.isWritable
  }

  /** Who signs and what may change, for an instruction of one to three accounts, account by account. */
  lemma FlagsOfFew(ix: Instruction, k: Pubkey)
    requires 1 <= |ix.accounts| <= 3
    ensures var a := ix.accounts;
      && (SignedBy(ix, k) <==>
        || (a[0].pubkey == k && a[0].isSigner)
        || (|a| > 1 && a[1].pubkey == k && a[1].isSigner)
        || (|a| > 2 && a[2].pubkey == k && a[2].isSigner))
      && (WrittenBy(ix, k) <==>
        || (a[0].pubkey == k && a[0].isWritable)
        || (|a| > 1 && a[1].pubkey == k && a[1].isWritable)
        || (|a| > 2 && a[2].pubkey == k && a[2].isWritable))
  {
    var a := ix.accounts;
    assert a[0] in a && (|a| > 1 ==> a[1] in a) && (|a| > 2 ==> a[2] in a);
    forall m | m in a
      ensures m == a[0] || (|a| > 1 && m == a[1]) || (|a| > 2 && m == a[2])
    {
      var i: nat :| i < |a| && a[i] == m;
    }
  }

  ghost function InstructionKeys(ix: Instruction): set<Pubkey> {
    {ix.programId} + set m | m in ix.accounts :: m.pubkey
  }

  /** Every key some instruction names, and the payer if there is one. */
  ghost function ReferencedKeys(ixs: seq<Instruction>, payer: Option<Pubkey>): set<Pubkey> {
    (set ix, k | ix in ixs && k in InstructionKeys(ix) :: k) + (if payer.Some? then {payer.value} else {})
  }

  /** The OR of the signer flags of k over all instructions; the payer always signs. */
  ghost predicate MustSign(ixs: seq<Instruction>, payer: Option<Pubkey>, k: Pubkey) {
    payer == Some(k) || exists ix :: ix in ixs && SignedBy(ix, k)
  }

  ghost predicate MustWrite(ixs: seq<Instruction>, payer: Option<Pubkey>, k: Pubkey) {
    payer == Some(k) || exists ix :: ix in ixs && WrittenBy(ix, k)
  }

  ghost function Merged(ixs: seq<Instruction>, payer: Option<Pubkey>): map<Pubkey, Privilege> {
    map k | k in ReferencedKeys(ixs, payer) :: Privilege(MustSign(ixs, payer, k), MustWrite(ixs, payer, k))
  }

  // ---------------------------------------------------------------- the table order

  /** Payer, writable signers, readonly signers, writable non-signers, readonly non-signers. */
  function Rank(p: Privilege, isPayer: bool): nat {
    if isPayer then 0
    else if p.signer then (if p.writable then 1 else 2)
    else (if p.writable then 3 else 4)
  }

  /** Only the payer is treated apart, and the payer is a writable signer. */
  ghost predicate PayerPrivileged(p: map<Pubkey, Privilege>, payer: Option<Pubkey>) {
    payer.Some? ==> payer.value in p && p[payer.value] == Privilege(true, true)
  }

  ghost predicate Before(p: map<Pubkey, Privilege>, payer: Option<Pubkey>, a: Pubkey, b: Pubkey)
    requires a in p && b in p
  {
    var ra, rb := Rank(p[a], payer == Some(a)), Rank(p[b], payer == Some(b));
    ra < rb || (ra == rb && LexLess(a, b))
  }

  ghost predicate Ordered(p: map<Pubkey, Privilege>, payer: Option<Pubkey>, t: seq<Pubkey>) {
    && (forall k :: k in t ==> k in p)
    && forall i, j :: 0 <= i < j < |t| ==> Before(p, payer, t[i], t[j])
  }

  lemma BeforeIrreflexive(p: map<Pubkey, Privilege>, payer: Option<Pubkey>, a: Pubkey)
    requires a in p
    ensures !Before(p, payer, a, a)
  {
    LexIrreflexive(a);
  }

  lemma BeforeTransitive(p: map<Pubkey, Privilege>, payer: Option<Pubkey>, a: Pubkey, b: Pubkey, c: Pubkey)
    requires a in p && b in p && c in p
    requires Before(p, payer, a, b) && Before(p, payer, b, c)
    ensures Before(p, payer, a, c)
  {
    if LexLess(a, b) && LexLess(b, c) { LexTransitive(a, b, c); }
  }

  lemma BeforeTotal(p: map<Pubkey, Privilege>, payer: Option<Pubkey>, a: Pubkey, b: Pubkey)
    requires a in p && b in p && a != b
    ensures Before(p, payer, a, b) || Before(p, payer, b, a)
  {
    LexTotal(a, b);
  }

  lemma OrderedDistinct(p: map<Pubkey, Privilege>, payer: Option<Pubkey>, t: seq<Pubkey>)
    requires Ordered(p, payer, t)
    ensures Distinct(t)
  {
    forall i, j | 0 <= i < j < |t|
      ensures t[i] != t[j]
    {
      BeforeIrreflexive(p, payer, t[i]);
    }
  }

  /** There is at most one ordered enumeration of a set of keys. */
  lemma {:induction false} OrderedUnique(
    p: map<Pubkey, Privilege>, payer: Option<Pubkey>, t: seq<Pubkey>, u: seq<Pubkey>)
    requires Ordered(p, payer, t) && Ordered(p, payer, u)
    requires Elements(t) == Elements(u)
    ensures t == u
  {
    OrderedDistinct(p, payer, t);
    OrderedDistinct(p, payer, u);
    DistinctCardinality(t);
    DistinctCardinality(u);
    if t != [] {
      assert t[0] in Elements(u);
      assert u[0] in Elements(t);
      if t[0] != u[0] {
        BeforeIrreflexive(p, payer, t[0]);
        BeforeTransitive(p, payer, t[0], u[0], t[0]);
      }
      assert Elements(t[1..]) == Elements(t) - {t[0]};
      assert Elements(u[1..]) == Elements(u) - {u[0]};
      OrderedUnique(p, payer, t[1..], u[1..]);
      assert t == [t[0]] + t[1..] && u == [u[0]] + u[1..];
    }
  }

  ghost function Insert(p: map<Pubkey, Privilege>, payer: Option<Pubkey>, k: Pubkey, t: seq<Pubkey>): (r: seq<Pubkey>)
    requires k in p && k !in t && Ordered(p, payer, t)
    ensures Ordered(p, payer, r) && Elements(r) == Elements(t) + {k}
  {
    if t == [] then [k]
    else if Before(p, payer, k, t[0]) then
      InsertFront(p, payer, k, t);
      [k] + t
    else
      var r := Insert(p, payer, k, t[1..]);
      InsertBehind(p, payer, k, t, r);
      [t[0]] + r
  }

  lemma InsertFront(p: map<Pubkey, Privilege>, payer: Option<Pubkey>, k: Pubkey, t: seq<Pubkey>)
    requires k in p && t != [] && Ordered(p, payer, t) && Before(p, payer, k, t[0])
    ensures Ordered(p, payer, [k] + t) && Elements([k] + t) == Elements(t) + {k}
  {
    forall j | 0 < j < |t|
      ensures Before(p, payer, k, t[j])
    {
      BeforeTransitive(p, payer, k, t[0], t[j]);
    }
  }

  lemma InsertBehind(p: map<Pubkey, Privilege>, payer: Option<Pubkey>, k: Pubkey, t: seq<Pubkey>, r: seq<Pubkey>)
    requires k in p && t != [] && k !in t && Ordered(p, payer, t) && !Before(p, payer, k, t[0])
    requires Ordered(p, payer, r) && Elements(r) == Elements(t[1..]) + {k}
    ensures Ordered(p, payer, [t[0]] + r) && Elements([t[0]] + r) == Elements(t) + {k}
  {
    BeforeTotal(p, payer, k, t[0]);
    forall j | 0 <= j < |r|
      ensures Before(p, payer, t[0], r[j])
    {
      assert r[j] in Elements(r);
    }
    assert t == [t[0]] + t[1..];
    ElementsConcat([t[0]], t[1..]);
    ElementsConcat([t[0]], r);
  }

  ghost function Enumerate(p: map<Pubkey, Privilege>, payer: Option<Pubkey>, s: set<Pubkey>): (t: seq<Pubkey>)
    requires s <= p.Keys
    ensures Ordered(p, payer, t) && Elements(t) == s
  {
    if s == {} then []
    else
      var k :| k in s;
      var t := Enumerate(p, payer, s - {k});
      assert k !in Elements(t);
      Insert(p, payer, k, t)
  }

  /** The key table of a set of merged privileges: its keys in table order. */
  ghost function Table(p: map<Pubkey, Privilege>, payer: Option<Pubkey>): (t: seq<Pubkey>)
    ensures Ordered(p, payer, t) && Elements(t) == p.Keys && Distinct(t) && |t| == |p.Keys|
  {
    var t := Enumerate(p, payer, p.Keys);
    OrderedDistinct(p, payer, t);
    DistinctCardinality(t);
    t
  }

  // ---------------------------------------------------------------- header counts

  ghost function Signers(p: map<Pubkey, Privilege>): set<Pubkey> {
    set k | k in p && p[k].signer
  }

  ghost function ReadonlySigners(p: map<Pubkey, Privilege>): set<Pubkey> {
    set k | k in p && p[k].signer && !p[k].writable
  }

  ghost function ReadonlyNonSigners(p: map<Pubkey, Privilege>): set<Pubkey> {
    set k | k in p && !p[k].signer && !p[k].writable
  }

  /** The only reason compilation may fail. */
  ghost predicate TableFits(p: map<Pubkey, Privilege>) {
    |Signers(p)| <= 255 && |ReadonlyNonSigners(p)| <= 255 && |p.Keys| <= 256
  }

  ghost function Header(p: map<Pubkey, Privilege>): MessageHeader
    requires TableFits(p)
  {
    assert ReadonlySigners(p) <= Signers(p);
    SubsetCardinality(ReadonlySigners(p), Signers(p));
    MessageHeader(|Signers(p)| as byte, |ReadonlySigners(p)| as byte, |ReadonlyNonSigners(p)| as byte)
  }

  // ---------------------------------------------------------------- compiled instructions

  ghost function IndexOf(t: seq<Pubkey>, k: Pubkey): (i: nat)
    requires k in t
    ensures i < |t| && t[i] == k
  {
    var i: nat :| i < |t| && t[i] == k; i
  }

  ghost predicate Resolves(t: seq<Pubkey>, ix: Instruction) {
    ix.programId in t && forall m :: m in ix.accounts ==> m.pubkey in t
  }

  ghost function Index(t: seq<Pubkey>, ix: Instruction): SanitizedInstruction
    requires |t| <= 256 && Resolves(t, ix)
  {
    SanitizedInstruction(
      IndexOf(t, ix.programId) as byte,
      seq(|ix.accounts|, j requires 0 <= j < |ix.accounts| => IndexOf(t, ix.accounts[j].pubkey) as byte),
      ix.data)
  }

  lemma MergedKeys(ixs: seq<Instruction>, payer: Option<Pubkey>)
    ensures Merged(ixs, payer).Keys == ReferencedKeys(ixs, payer)
    ensures PayerPrivileged(Merged(ixs, payer), payer)
  {
  }

  lemma TableResolves(ixs: seq<Instruction>, payer: Option<Pubkey>)
    ensures forall ix :: ix in ixs ==> Resolves(Table(Merged(ixs, payer), payer), ix)
  {
    var t := Table(Merged(ixs, payer), payer);
    forall ix | ix in ixs
      ensures Resolves(t, ix)
    {
      assert ix.programId in InstructionKeys(ix);
      assert ix.programId in Elements(t);
      forall m | m in ix.accounts
        ensures m.pubkey in t
      {
        assert m.pubkey in InstructionKeys(ix);
        assert m.pubkey in Elements(t);
      }
    }
  }

  /** The message compile.go must return, or None where it must report an index overflow. */
  ghost function Compile(ixs: seq<Instruction>, payer: Option<Pubkey>, blockhash: Hash): Option<SanitizedMessage> {
    var p := Merged(ixs, payer);
    if !TableFits(p) then None
    else
      var t := Table(p, payer);
      TableResolves(ixs, payer);
      Some(SanitizedMessage(
        Header(p), t, blockhash,
        seq(|ixs|, i requires 0 <= i < |ixs| => Index(t, ixs[i]))))
  }

  lemma CompiledShape(ixs: seq<Instruction>, payer: Option<Pubkey>, blockhash: Hash, m: SanitizedMessage)
    requires Compile(ixs, payer, blockhash) == Some(m)
    ensures |m.instructions| == |ixs| && |m.accountKeys| <= 256
  {
  }

  lemma CompiledAt(ixs: seq<Instruction>, payer: Option<Pubkey>, blockhash: Hash, i: nat)
    requires Compile(ixs, payer, blockhash).Some? && i < |ixs|
    ensures var m := Compile(ixs, payer, blockhash).value;
      && |m.instructions| == |ixs| && |m.accountKeys| <= 256
      && Resolves(m.accountKeys, ixs[i])
      && m.instructions[i] == Index(m.accountKeys, ixs[i])
  {
    TableResolves(ixs, payer);
    hide Merged, Index, Resolves, Header;
  }
}
