/** Bytes, little-endian integers, lowercase hex, and the small parsers the wire format is read with. */
module Bytes {

  datatype Option<+T> = None | Some(value: T)

  datatype Result<+T, +E> = Ok(value: T) | Err(error: E)

  newtype byte = x: int | 0 <= x < 256

  const U32_LIMIT: nat := 0x1_0000_0000
  const U64_LIMIT: nat := 0x1_0000_0000_0000_0000

  type u32 = v: nat | v < U32_LIMIT
  type u64 = v: nat | v < U64_LIMIT

  // Go's `len` is a signed 64-bit int, so no Go string or slice is longer than this.
  const GO_LEN_LIMIT: nat := 0x8000_0000_0000_0000

  type GoBytes = s: seq<byte> | |s| < GO_LEN_LIMIT

  // ---------------------------------------------------------------- little endian

  /** The low `width` bytes of `v`, least significant first.  Go's `uint32(n)` and `uint8(n)` conversions
      drop the high bytes, so this is also what `AppendUint32(buf, uint32(n))` writes for any n. */
  function LittleEndian(v: nat, width: nat): (b: seq<byte>)
    ensures |b| == width
  {
    if width == 0 then [] else [(v % 256) as byte] + LittleEndian(v / 256, width - 1)
  }

  function FromLittleEndian(b: seq<byte>): nat {
    if b == [] then 0 else b[0] as nat + 256 * FromLittleEndian(b[1..])
  }

  function Pow256(width: nat): (p: nat)
    ensures p > 0
  {
    if width == 0 then 1 else 256 * Pow256(width - 1)
  }

  lemma Pow256Values()
    ensures Pow256(1) == 256 && Pow256(4) == U32_LIMIT && Pow256(8) == U64_LIMIT
  {
    assert Pow256(2) == 256 * 256;
    assert Pow256(4) == 256 * 256 * Pow256(2);
    assert Pow256(6) == 256 * 256 * Pow256(4);
    assert Pow256(8) == 256 * 256 * Pow256(6);
  }

  lemma {:induction false} LittleEndianRoundTrip(v: nat, width: nat)
    requires v < Pow256(width)
    ensures FromLittleEndian(LittleEndian(v, width)) == v
  {
    if width > 0 {
      LittleEndianRoundTrip(v / 256, width - 1);
      assert LittleEndian(v, width)[1..] == LittleEndian(v / 256, width - 1);
    }
  }

  lemma LowByte(r: nat, w: nat)
    requires r < 256
    ensures (r + 256 * w) % 256 == r && (r + 256 * w) / 256 == w
  {
  }

  lemma {:induction false} FromLittleEndianRoundTrip(b: seq<byte>)
    ensures FromLittleEndian(b) < Pow256(|b|)
    ensures LittleEndian(FromLittleEndian(b), |b|) == b
  {
    if b != [] {
      FromLittleEndianRoundTrip(b[1..]);
      LowByte(b[0] as nat, FromLittleEndian(b[1..]));
      assert b == [b[0]] + b[1..];
    }
  }

  /** v shifted right by i bytes. */
  function Shifted(v: nat, i: nat): nat {
    if i == 0 then v else Shifted(v / 256, i - 1)
  }

  /** Byte i is what shifting the number right by i bytes brings to the bottom: the lowest byte comes first. */
  lemma {:induction false} LowestByteFirst(v: nat, width: nat, i: nat)
    requires i < width
    ensures LittleEndian(v, width)[i] as nat == Shifted(v, i) % 256
  {
    if i > 0 { LowestByteFirst(v / 256, width - 1, i - 1); }
  }

  lemma U32RoundTrip(v: nat)
    ensures FromLittleEndian(LittleEndian(v, 4)) < U32_LIMIT
    ensures v < U32_LIMIT ==> FromLittleEndian(LittleEndian(v, 4)) == v
  {
    Pow256Values();
    FromLittleEndianRoundTrip(LittleEndian(v, 4));
    if v < U32_LIMIT { LittleEndianRoundTrip(v, 4); }
  }

  lemma U64RoundTrip(v: nat)
    requires v < U64_LIMIT
    ensures FromLittleEndian(LittleEndian(v, 8)) == v
  {
    Pow256Values();
    LittleEndianRoundTrip(v, 8);
  }

  // ---------------------------------------------------------------- parsers

  /** A successful parse: the value, and the input that was not consumed. */
  datatype Parsed<+T> = Parsed(value: T, rest: seq<byte>)

  function TakeBytes(b: seq<byte>, n: nat): Option<Parsed<seq<byte>>> {
    if |b| < n then None else Some(Parsed(b[..n], b[n..]))
  }

  function TakeInt(b: seq<byte>, width: nat): Option<Parsed<nat>> {
    if |b| < width then None else Some(Parsed(FromLittleEndian(b[..width]), b[width..]))
  }

  lemma TakeBytesOfConcat(a: seq<byte>, rest: seq<byte>)
    ensures TakeBytes(a + rest, |a|) == Some(Parsed(a, rest))
  {
    assert (a + rest)[..|a|] == a && (a + rest)[|a|..] == rest;
  }

  lemma TakeU32(v: nat, rest: seq<byte>)
    requires v < U32_LIMIT
    ensures TakeInt(LittleEndian(v, 4) + rest, 4) == Some(Parsed(v, rest))
  {
    TakeBytesOfConcat(LittleEndian(v, 4), rest);
    U32RoundTrip(v);
  }

  lemma TakeU64(v: nat, rest: seq<byte>)
    requires v < U64_LIMIT
    ensures TakeInt(LittleEndian(v, 8) + rest, 8) == Some(Parsed(v, rest))
  {
    TakeBytesOfConcat(LittleEndian(v, 8), rest);
    U64RoundTrip(v);
  }

  /** Whatever four bytes are read as a u32 are the bytes that u32 is written as. */
  lemma TakeU32Sound(b: seq<byte>)
    requires |b| >= 4
    ensures var v := FromLittleEndian(b[..4]); v < U32_LIMIT && b == LittleEndian(v, 4) + b[4..]
  {
    Pow256Values();
    FromLittleEndianRoundTrip(b[..4]);
  }

  // ---------------------------------------------------------------- lists of fixed-width items

  function Flatten(items: seq<seq<byte>>): seq<byte> {
    if items == [] then [] else items[0] + Flatten(items[1..])
  }

  lemma FlattenCons(x: seq<byte>, items: seq<seq<byte>>)
    ensures Flatten([x] + items) == x + Flatten(items)
  {
    assert ([x] + items)[1..] == items;
  }

  /** The loops that append one fixed-size item after another to a buffer. */
  method AppendItems(prefix: seq<byte>, items: seq<seq<byte>>) returns (buf: seq<byte>)
    ensures buf == prefix + Flatten(items)
  {
    buf := prefix;
    for i := 0 to |items|
      invariant buf + Flatten(items[i..]) == prefix + Flatten(items)
    {
      buf := buf + items[i];
      assert items[i..][1..] == items[i + 1..];
    }
  }

  function TakeItems(b: seq<byte>, n: nat, width: nat): (r: Option<Parsed<seq<seq<byte>>>>)
    ensures r.Some? ==> |r.value.value| == n && forall x :: x in r.value.value ==> |x| == width
  {
    if n == 0 then Some(Parsed([], b))
    else if |b| < width then None
    else
      var tail := TakeItems(b[width..], n - 1, width);
      if tail.None? then None else Some(Parsed([b[..width]] + tail.value.value, tail.value.rest))
  }

  lemma TakeOneItem(x: seq<byte>, tail: seq<byte>, n: nat, items: seq<seq<byte>>, rest: seq<byte>)
    requires TakeItems(tail, n, |x|) == Some(Parsed(items, rest))
    ensures TakeItems(x + tail, n + 1, |x|) == Some(Parsed([x] + items, rest))
  {
    assert (x + tail)[..|x|] == x && (x + tail)[|x|..] == tail;
  }

  lemma TakeNothing(b: seq<byte>, width: nat)
    ensures TakeItems(Flatten([]) + b, 0, width) == Some(Parsed([], b))
  {
    assert [] + b == b;
  }

  lemma FlattenHead(items: seq<seq<byte>>, rest: seq<byte>)
    requires items != []
    ensures Flatten(items) + rest == items[0] + (Flatten(items[1..]) + rest)
  {
  }

  lemma {:induction false} TakeItemsOfFlatten(items: seq<seq<byte>>, width: nat, rest: seq<byte>)
    requires forall x :: x in items ==> |x| == width
    ensures TakeItems(Flatten(items) + rest, |items|, width) == Some(Parsed(items, rest))
  {
    hide TakeItems, Flatten;
    if items == [] {
      TakeNothing(rest, width);
    } else {
      TakeItemsOfFlatten(items[1..], width, rest);
      FlattenHead(items, rest);
      assert |items[0]| == width;
      TakeOneItem(items[0], Flatten(items[1..]) + rest, |items| - 1, items[1..], rest);
      assert items == [items[0]] + items[1..];
    }
  }

  lemma TookOneItem(b: seq<byte>, n: nat, width: nat)
    requires n > 0 && TakeItems(b, n, width).Some?
    ensures |b| >= width && TakeItems(b[width..], n - 1, width).Some?
    ensures var t := TakeItems(b[width..], n - 1, width).value;
      TakeItems(b, n, width).value == Parsed([b[..width]] + t.value, t.rest)
  {
  }

  lemma JoinFront(b: seq<byte>, width: nat, middle: seq<byte>, rest: seq<byte>)
    requires width <= |b| && b[width..] == middle + rest
    ensures b == (b[..width] + middle) + rest
  {
    assert b == b[..width] + b[width..];
  }

  lemma {:induction false} TakeItemsSound(b: seq<byte>, n: nat, width: nat)
    requires TakeItems(b, n, width).Some?
    ensures var p := TakeItems(b, n, width).value; b == Flatten(p.value) + p.rest
  {
    if n == 0 {
      assert b == [] + b;
    } else {
      TookOneItem(b, n, width);
      hide TakeItems, Flatten;
      TakeItemsSound(b[width..], n - 1, width);
      var tail := TakeItems(b[width..], n - 1, width).value;
      FlattenCons(b[..width], tail.value);
      JoinFront(b, width, Flatten(tail.value), tail.rest);
    }
  }

  lemma MulSucc(n: nat, width: nat)
    ensures (n + 1) * width == n * width + width
  {
  }

  lemma {:induction false} FlattenLength(items: seq<seq<byte>>, width: nat)
    requires forall x :: x in items ==> |x| == width
    ensures |Flatten(items)| == |items| * width
  {
    if items != [] {
      FlattenLength(items[1..], width);
      MulSucc(|items[1..]|, width);
    }
  }

  // ---------------------------------------------------------------- lowercase hex (RFC 4648, section 8)

  function HexDigit(n: nat): byte
    requires n < 16
  {
    if n < 10 then (48 + n) as byte else (87 + n) as byte
  }

  /** encoding/hex accepts both cases when decoding. */
  function HexValue(c: byte): Option<nat> {
    if 48 <= c <= 57 then Some(c as nat - 48)
    else if 97 <= c <= 102 then Some(c as nat - 87)
    else if 65 <= c <= 70 then Some(c as nat - 55)
    else None
  }

  function HexEncode(b: seq<byte>): (h: seq<byte>)
    ensures |h| == 2 * |b|
  {
    if b == [] then [] else [HexDigit(b[0] as nat / 16), HexDigit(b[0] as nat % 16)] + HexEncode(b[1..])
  }

  function HexDecode(h: seq<byte>): Option<seq<byte>> {
    if h == [] then Some([])
    else if |h| == 1 then None
    else
      var hi, lo, tail := HexValue(h[0]), HexValue(h[1]), HexDecode(h[2..]);
      if hi.None? || lo.None? || tail.None? then None
      else Some([(16 * hi.value + lo.value) as byte] + tail.value)
  }

  lemma {:induction false} HexRoundTrip(b: seq<byte>)
    ensures HexDecode(HexEncode(b)) == Some(b)
  {
    if b != [] {
      HexRoundTrip(b[1..]);
      assert HexEncode(b)[2..] == HexEncode(b[1..]);
      assert b == [b[0]] + b[1..];
    }
  }

  predicate IsLowerHex(c: byte) {
    48 <= c <= 57 || 97 <= c <= 102 // 0-9, a-f
  }

  predicate IsHex(c: byte) {
    IsLowerHex(c) || 65 <= c <= 70 // A-F
  }

  /** Encoding writes lowercase digits. */
  lemma {:induction false} HexIsLower(b: seq<byte>)
    ensures forall c :: c in HexEncode(b) ==> IsLowerHex(c)
  {
    if b != [] {
      HexIsLower(b[1..]);
      var hi, lo := HexDigit(b[0] as nat / 16), HexDigit(b[0] as nat % 16);
      assert HexEncode(b) == [hi, lo] + HexEncode(b[1..]);
    }
  }

  /** Decoding accepts exactly an even number of hex digits, of either case. */
  lemma {:induction false} HexDecodesIff(h: seq<byte>)
    ensures HexDecode(h).Some? <==> |h| % 2 == 0 && forall c :: c in h ==> IsHex(c)
    ensures HexDecode(h).Some? ==> 2 * |HexDecode(h).value| == |h|
  {
    if |h| >= 2 {
      HexDecodesIff(h[2..]);
      assert h[0] in h && h[1] in h && forall c :: c in h <==> c == h[0] || c == h[1] || c in h[2..];
      assert |h[2..]| % 2 == |h| % 2;
    } else if |h| == 1 {
      assert |h| % 2 == 1;
    }
  }

  function Lowered(h: seq<byte>): (l: seq<byte>)
    ensures |l| == |h|
  {
    if h == [] then [] else [if 65 <= h[0] <= 70 then h[0] + 32 else h[0]] + Lowered(h[1..])
  }

  /** The case of the digits does not matter. */
  lemma {:induction false} HexIgnoresCase(h: seq<byte>)
    ensures HexDecode(Lowered(h)) == HexDecode(h)
  {
    if |h| >= 2 {
      HexIgnoresCase(h[2..]);
      var l := Lowered(h);
      assert l[0] == Lowered(h)[0] && Lowered(h[1..])[1..] == Lowered(h[2..]);
      assert l[2..] == Lowered(h[2..]) && l[1] == Lowered(h[1..])[0];
    } else if |h| == 1 {
      assert |Lowered(h)| == 1;
    }
  }

  lemma HexInjective(a: seq<byte>, b: seq<byte>)
    requires HexEncode(a) == HexEncode(b)
    ensures a == b
  {
    HexRoundTrip(a);
    HexRoundTrip(b);
  }
}
