/** The scalar layouts instruction data is made of (appendU32, appendU64, appendString, appendOptionalPubkey, raw keys
    and bytes), with the decoder that reads a known list of them back. */
module Fields {
  import opened Bytes
  import opened Keys

  datatype Field =
    | U8(b: byte)
    | U32(n: u32)
    | U64(v: u64)
    | Key(k: Pubkey)
    | Str(s: GoBytes)                 // u64 length, then the bytes
    | OptKey(o: Option<Pubkey>)       // 0, or 1 and the key

  datatype Kind = KU8 | KU32 | KU64 | KKey | KStr | KOptKey

  function KindOf(f: Field): Kind {
    match f
    case U8(_) => KU8
    case U32(_) => KU32
    case U64(_) => KU64
    case Key(_) => KKey
    case Str(_) => KStr
    case OptKey(_) => KOptKey
  }

  function KindsOf(fs: seq<Field>): (ks: seq<Kind>)
    ensures |ks| == |fs|
    ensures forall i :: 0 <= i < |fs| ==> ks[i] == KindOf(fs[i])
  {
    if fs == [] then [] else [KindOf(fs[0])] + KindsOf(fs[1..])
  }

  predicate HasKinds(fs: seq<Field>, ks: seq<Kind>) {
    |fs| == |ks| && forall i :: 0 <= i < |fs| ==> KindOf(fs[i]) == ks[i]
  }

  function EncodeField(f: Field): seq<byte> {
    match f
    case U8(b) => [b]
    case U32(n) => LittleEndian(n, 4)
    case U64(v) => LittleEndian(v, 8)
    case Key(k) => k
    case Str(s) => LittleEndian(|s|, 8) + s
    case OptKey(None) => [0]
    case OptKey(Some(k)) => [1] + k
  }

  function Encode(fs: seq<Field>): seq<byte> {
    if fs == [] then [] else EncodeField(fs[0]) + Encode(fs[1..])
  }

  function DecodeField(k: Kind, b: seq<byte>): (r: Option<Parsed<Field>>)
    ensures r.Some? ==> KindOf(r.value.value) == k
  {
    match k
    case KU8 => if |b| < 1 then None else Some(Parsed(U8(b[0]), b[1..]))
    case KU32 =>
      if |b| < 4 then None else
      TakeU32Sound(b);
      Some(Parsed(U32(FromLittleEndian(b[..4])), b[4..]))
    case KU64 =>
      if |b| < 8 then None else
      U64Bound(b[..8]);
      Some(Parsed(U64(FromLittleEndian(b[..8])), b[8..]))
    case KKey => if |b| < 32 then None else Some(Parsed(Key(b[..32]), b[32..]))
    case KStr =>
      if |b| < 8 then None else
      var n := FromLittleEndian(b[..8]);
      if n >= GO_LEN_LIMIT || |b| - 8 < n then None else
      Some(Parsed(Str(b[8..8 + n]), b[8 + n..]))
    case KOptKey =>
      if |b| < 1 then None
      else if b[0] == 0 then Some(Parsed(OptKey(None), b[1..]))
      else if b[0] == 1 && |b| >= 33 then Some(Parsed(OptKey(Some(b[1..33])), b[33..]))
      else None
  }

  lemma U64Bound(b: seq<byte>)
    requires |b| == 8
    ensures FromLittleEndian(b) < U64_LIMIT
  {
    Pow256Values();
    FromLittleEndianRoundTrip(b);
  }

  function Decode(ks: seq<Kind>, b: seq<byte>): (r: Option<seq<Field>>)
    ensures r.Some? ==> HasKinds(r.value, ks)
  {
    if ks == [] then (if b == [] then Some([]) else None)
    else
      var head := DecodeField(ks[0], b);
      if head.None? then None else
      var tail := Decode(ks[1..], head.value.rest);
      if tail.None? then None else Some([head.value.value] + tail.value)
  }

  lemma FieldRoundTrip(f: Field, rest: seq<byte>)
    ensures DecodeField(KindOf(f), EncodeField(f) + rest) == Some(Parsed(f, rest))
  {
    hide LittleEndian, FromLittleEndian;
    var e := EncodeField(f);
    match f
    case U8(b) => TakeBytesOfConcat(e, rest);
    case U32(n) => TakeU32(n, rest);
    case U64(v) => TakeU64(v, rest);
    case Key(k) => TakeBytesOfConcat(k, rest);
    case Str(s) =>
      assert e + rest == LittleEndian(|s|, 8) + (s + rest);
      TakeU64(|s|, s + rest);
      TakeBytesOfConcat(s, rest);
      StrSlices(LittleEndian(|s|, 8), s, rest);
    case OptKey(None) => TakeBytesOfConcat(e, rest);
    case OptKey(Some(k)) =>
      assert e + rest == [1] + (k + rest);
      StrSlices([1], k, rest);
  }

  lemma StrSlices(a: seq<byte>, b: seq<byte>, c: seq<byte>)
    ensures var x := a + b + c;
      x[..|a|] == a && x[|a|..|a| + |b|] == b && x[|a| + |b|..] == c
  {
  }

  lemma HasKindsOf(fs: seq<Field>, ks: seq<Kind>)
    requires HasKinds(fs, ks)
    ensures KindsOf(fs) == ks
  {
  }

  /** Any list of fields is recovered from its encoding, given the kinds only. */
  lemma {:induction false} FieldsRoundTrip(fs: seq<Field>)
    ensures Decode(KindsOf(fs), Encode(fs)) == Some(fs)
  {
    if fs != [] {
      hide EncodeField, DecodeField;
      FieldRoundTrip(fs[0], Encode(fs[1..]));
      FieldsRoundTrip(fs[1..]);
      assert KindsOf(fs)[1..] == KindsOf(fs[1..]);
      assert fs == [fs[0]] + fs[1..];
    }
  }

  lemma U32Tag(fs: seq<Field>)
    requires fs != [] && fs[0].U32?
    ensures |Encode(fs)| >= 4 && FromLittleEndian(Encode(fs)[..4]) == fs[0].n
  {
    U32RoundTrip(fs[0].n);
    assert Encode(fs)[..4] == LittleEndian(fs[0].n, 4);
  }

  // ---------------------------------------------------------------- only encodings decode

  lemma FieldSound(k: Kind, b: seq<byte>)
    requires DecodeField(k, b).Some?
    ensures var p := DecodeField(k, b).value; b == EncodeField(p.value) + p.rest
  {
    hide LittleEndian, FromLittleEndian;
    match k
    case KU8 =>
    case KU32 => TakeU32Sound(b);
    case KU64 =>
      U64Sound(b[..8]);
      assert b == b[..8] + b[8..];
    case KKey => assert b == b[..32] + b[32..];
    case KStr =>
      var n := FromLittleEndian(b[..8]);
      U64Sound(b[..8]);
      assert b == b[..8] + (b[8..8 + n] + b[8 + n..]);
    case KOptKey =>
      if b[0] == 1 { assert b == [b[0]] + (b[1..33] + b[33..]); }
  }

  lemma U64Sound(b: seq<byte>)
    requires |b| == 8
    ensures LittleEndian(FromLittleEndian(b), 8) == b
  {
    FromLittleEndianRoundTrip(b);
  }

  /** What decodes is the encoding of what it decodes to. */
  lemma {:induction false} FieldsSound(ks: seq<Kind>, b: seq<byte>)
    requires Decode(ks, b).Some?
    ensures Encode(Decode(ks, b).value) == b
  {
    if ks != [] {
      hide DecodeField, EncodeField;
      FieldSound(ks[0], b);
      FieldsSound(ks[1..], DecodeField(ks[0], b).value.rest);
      var fs := Decode(ks, b).value;
      assert fs[1..] == Decode(ks[1..], DecodeField(ks[0], b).value.rest).value;
    }
  }
}
