/** message.go: the message datatypes, their binary format, and the parser that inverts it. */
module Message {
  import opened Bytes
  import opened Keys

  datatype AccountMeta = AccountMeta(pubkey: Pubkey, isSigner: bool, isWritable: bool)

  function WritableSigner(k: Pubkey): AccountMeta { AccountMeta(k, true, true) }
  function ReadonlySigner(k: Pubkey): AccountMeta { AccountMeta(k, true, false) }
  function Writable(k: Pubkey): AccountMeta { AccountMeta(k, false, true) }
  function Readonly(k: Pubkey): AccountMeta { AccountMeta(k, false, false) }

  datatype Instruction = Instruction(programId: Pubkey, accounts: seq<AccountMeta>, data: seq<byte>)

  datatype MessageHeader = MessageHeader(
    numRequiredSignatures: byte,
    numReadonlySignedAccounts: byte,
    numReadonlyUnsignedAccounts: byte)

  datatype SanitizedInstruction = SanitizedInstruction(programIdIndex: byte, accounts: seq<byte>, data: seq<byte>)

  datatype SanitizedMessage = SanitizedMessage(
    header: MessageHeader,
    accountKeys: seq<Pubkey>,
    recentBlockhash: Hash,
    instructions: seq<SanitizedInstruction>)

  // ---------------------------------------------------------------- layout

  function InstructionBytes(si: SanitizedInstruction): seq<byte> {
    [si.programIdIndex]
    + (LittleEndian(|si.accounts|, 4)
    + (si.accounts
    + (LittleEndian(|si.data|, 4)
    + si.data)))
  }

  function InstructionsBytes(ixs: seq<SanitizedInstruction>): seq<byte> {
    if ixs == [] then [] else InstructionBytes(ixs[0]) + InstructionsBytes(ixs[1..])
  }

  function HeaderBytes(h: MessageHeader): seq<byte> {
    [h.numRequiredSignatures, h.numReadonlySignedAccounts, h.numReadonlyUnsignedAccounts]
  }

  function MessageBytes(m: SanitizedMessage): seq<byte> {
    HeaderBytes(m.header)
    + (LittleEndian(|m.accountKeys|, 4)
    + (Flatten(m.accountKeys)
    + (m.recentBlockhash
    + (LittleEndian(|m.instructions|, 4)
    + InstructionsBytes(m.instructions)))))
  }

  lemma InstructionBytesThen(si: SanitizedInstruction, rest: seq<byte>)
    ensures InstructionBytes(si) + rest
      == [si.programIdIndex]
      + (LittleEndian(|si.accounts|, 4) + (si.accounts + (LittleEndian(|si.data|, 4) + (si.data + rest))))
  {
  }

  lemma MessageBytesThen(m: SanitizedMessage, rest: seq<byte>)
    ensures MessageBytes(m) + rest
      == HeaderBytes(m.header)
      + (LittleEndian(|m.accountKeys|, 4)
      + (Flatten(m.accountKeys)
      + (m.recentBlockhash
      + (LittleEndian(|m.instructions|, 4)
      + (InstructionsBytes(m.instructions) + rest)))))
  {
  }

  // ---------------------------------------------------------------- the serializers

  method SerializeInstruction(si: SanitizedInstruction) returns (buf: seq<byte>)
    ensures buf == InstructionBytes(si)
  {
    buf := [si.programIdIndex];
    buf := buf + LittleEndian(|si.accounts|, 4);
    buf := buf + si.accounts;
    buf := buf + LittleEndian(|si.data|, 4);
    buf := buf + si.data;
  }

  method AppendInstructions(prefix: seq<byte>, ixs: seq<SanitizedInstruction>) returns (buf: seq<byte>)
    ensures buf == prefix + InstructionsBytes(ixs)
  {
    hide InstructionBytes;
    buf := prefix;
    for i := 0 to |ixs|
      invariant buf + InstructionsBytes(ixs[i..]) == prefix + InstructionsBytes(ixs)
    {
      var ix := SerializeInstruction(ixs[i]);
      buf := buf + ix;
      assert ixs[i..][1..] == ixs[i + 1..];
    }
  }

  method SerializeMessage(m: SanitizedMessage) returns (buf: seq<byte>)
    ensures buf == MessageBytes(m)
  {
    buf := [m.header.numRequiredSignatures, m.header.numReadonlySignedAccounts, m.header.numReadonlyUnsignedAccounts];
    buf := buf + LittleEndian(|m.accountKeys|, 4);
    buf := AppendItems(buf, m.accountKeys);
    buf := buf + m.recentBlockhash;
    buf := buf + LittleEndian(|m.instructions|, 4);
    buf := AppendInstructions(buf, m.instructions);
  }

  // ---------------------------------------------------------------- the parser

  function ParseInstruction(b: seq<byte>): Option<Parsed<SanitizedInstruction>> {
    if |b| < 1 then None else
    var n := TakeInt(b[1..], 4);
    if n.None? then None else
    var accounts := TakeBytes(n.value.rest, n.value.value);
    if accounts.None? then None else
    var len := TakeInt(accounts.value.rest, 4);
    if len.None? then None else
    var data := TakeBytes(len.value.rest, len.value.value);
    if data.None? then None else
    Some(Parsed(SanitizedInstruction(b[0], accounts.value.value, data.value.value), data.value.rest))
  }

  function ParseInstructions(b: seq<byte>, n: nat): Option<Parsed<seq<SanitizedInstruction>>> {
    if n == 0 then Some(Parsed([], b)) else
    var head := ParseInstruction(b);
    if head.None? then None else
    var tail := ParseInstructions(head.value.rest, n - 1);
    if tail.None? then None else
    Some(Parsed([head.value.value] + tail.value.value, tail.value.rest))
  }

  function ParseMessage(b: seq<byte>): Option<Parsed<SanitizedMessage>> {
    if |b| < 3 then None else
    var n := TakeInt(b[3..], 4);
    if n.None? then None else
    var keys := TakeItems(n.value.rest, n.value.value, 32);
    if keys.None? then None else
    var blockhash := TakeBytes(keys.value.rest, 32);
    if blockhash.None? then None else
    var count := TakeInt(blockhash.value.rest, 4);
    if count.None? then None else
    var ixs := ParseInstructions(count.value.rest, count.value.value);
    if ixs.None? then None else
    Some(Parsed(
      SanitizedMessage(MessageHeader(b[0], b[1], b[2]), keys.value.value, blockhash.value.value, ixs.value.value),
      ixs.value.rest))
  }

  // ---------------------------------------------------------------- round trips

  /** The counts and lengths the format writes as u32 do fit in a u32. */
  predicate InstructionFits(si: SanitizedInstruction) {
    |si.accounts| < U32_LIMIT && |si.data| < U32_LIMIT
  }

  predicate MessageFits(m: SanitizedMessage) {
    && |m.accountKeys| < U32_LIMIT
    && |m.instructions| < U32_LIMIT
    && forall si :: si in m.instructions ==> InstructionFits(si)
  }

  lemma InstructionRoundTrip(si: SanitizedInstruction, rest: seq<byte>)
    requires InstructionFits(si)
    ensures ParseInstruction(InstructionBytes(si) + rest) == Some(Parsed(si, rest))
  {
    var r4 := si.data + rest;
    var r3 := LittleEndian(|si.data|, 4) + r4;
    var r2 := si.accounts + r3;
    var r1 := LittleEndian(|si.accounts|, 4) + r2;
    var b := InstructionBytes(si) + rest;
    assert b == [si.programIdIndex] + r1;
    assert b[1..] == r1;
    TakeU32(|si.accounts|, r2);
    TakeBytesOfConcat(si.accounts, r3);
    TakeU32(|si.data|, r4);
    TakeBytesOfConcat(si.data, rest);
  }

  lemma {:induction false} InstructionsRoundTrip(ixs: seq<SanitizedInstruction>, rest: seq<byte>)
    requires forall si :: si in ixs ==> InstructionFits(si)
    ensures ParseInstructions(InstructionsBytes(ixs) + rest, |ixs|) == Some(Parsed(ixs, rest))
  {
    hide InstructionBytes, ParseInstruction, InstructionFits;
    if ixs == [] {
      assert InstructionsBytes(ixs) + rest == rest;
    } else {
      var head, tail := InstructionBytes(ixs[0]), InstructionsBytes(ixs[1..]) + rest;
      assert InstructionsBytes(ixs) == head + InstructionsBytes(ixs[1..]);
      assert InstructionsBytes(ixs) + rest == head + tail;
      InstructionRoundTrip(ixs[0], tail);
      InstructionsRoundTrip(ixs[1..], rest);
      assert ixs == [ixs[0]] + ixs[1..];
    }
  }

  /** The parser's stages put together. */
  lemma ParsedInStages(
    b: seq<byte>, m: SanitizedMessage, r2: seq<byte>, r3: seq<byte>, r4: seq<byte>, r5: seq<byte>, rest: seq<byte>)
    requires |b| >= 3 && m.header == MessageHeader(b[0], b[1], b[2])
    requires TakeInt(b[3..], 4) == Some(Parsed(|m.accountKeys|, r2))
    requires TakeItems(r2, |m.accountKeys|, 32) == Some(Parsed(m.accountKeys, r3))
    requires TakeBytes(r3, 32) == Some(Parsed(m.recentBlockhash, r4))
    requires TakeInt(r4, 4) == Some(Parsed(|m.instructions|, r5))
    requires ParseInstructions(r5, |m.instructions|) == Some(Parsed(m.instructions, rest))
    ensures ParseMessage(b) == Some(Parsed(m, rest))
  {
    hide TakeInt, TakeItems, TakeBytes, ParseInstructions;
  }

  /** The parser inverts the serializer and stops exactly where the message ends. */
  lemma MessageRoundTrip(m: SanitizedMessage, rest: seq<byte>)
    requires MessageFits(m)
    ensures ParseMessage(MessageBytes(m) + rest) == Some(Parsed(m, rest))
  {
    var r5 := InstructionsBytes(m.instructions) + rest;
    var r4 := LittleEndian(|m.instructions|, 4) + r5;
    var r3 := m.recentBlockhash + r4;
    var r2 := Flatten(m.accountKeys) + r3;
    var r1 := LittleEndian(|m.accountKeys|, 4) + r2;
    var b := MessageBytes(m) + rest;
    MessageBytesThen(m, rest);
    assert b == HeaderBytes(m.header) + r1;
    assert b[3..] == r1;
    hide LittleEndian, Flatten, TakeInt, TakeItems, TakeBytes, InstructionsBytes, ParseInstructions, MessageBytes,
      ParseMessage;
    TakeU32(|m.accountKeys|, r2);
    TakeItemsOfFlatten(m.accountKeys, 32, r3);
    TakeBytesOfConcat(m.recentBlockhash, r4);
    TakeU32(|m.instructions|, r5);
    InstructionsRoundTrip(m.instructions, rest);
    ParsedInStages(b, m, r2, r3, r4, r5, rest);
  }

  lemma ParseInstructionSound(b: seq<byte>)
    requires ParseInstruction(b).Some?
    ensures var p := ParseInstruction(b).value; b == InstructionBytes(p.value) + p.rest && InstructionFits(p.value)
  {
    hide LittleEndian, FromLittleEndian;
    var p := ParseInstruction(b).value;
    var r1 := b[1..];
    TakeU32Sound(r1);
    var r2 := r1[4..];
    var accounts, data := p.value.accounts, p.value.data;
    assert |accounts| == FromLittleEndian(r1[..4]);
    var r3 := r2[|accounts|..];
    assert r2 == accounts + r3;
    TakeU32Sound(r3);
    var r4 := r3[4..];
    assert |data| == FromLittleEndian(r3[..4]);
    assert r4 == data + p.rest;
    InstructionBytesThen(p.value, p.rest);
    assert b == [b[0]] + r1;
  }

  lemma {:induction false} ParseInstructionsSound(b: seq<byte>, n: nat)
    requires ParseInstructions(b, n).Some?
    ensures var p := ParseInstructions(b, n).value;
      && |p.value| == n && b == InstructionsBytes(p.value) + p.rest
      && forall si :: si in p.value ==> InstructionFits(si)
    decreases n
  {
    hide InstructionBytes, ParseInstruction;
    if n > 0 {
      ParseInstructionSound(b);
      var head := ParseInstruction(b).value;
      ParseInstructionsSound(head.rest, n - 1);
      var tail := ParseInstructions(head.rest, n - 1).value;
      var p := ParseInstructions(b, n).value;
      assert p.value[1..] == tail.value;
      assert b == InstructionBytes(head.value) + (InstructionsBytes(tail.value) + tail.rest);
    }
  }

  /** Everything the parser accepts is the serialization of what it returns, so each message has one encoding. */
  lemma ParseMessageSound(b: seq<byte>)
    requires ParseMessage(b).Some?
    ensures var p := ParseMessage(b).value; b == MessageBytes(p.value) + p.rest && MessageFits(p.value)
  {
    hide LittleEndian, FromLittleEndian, TakeItems, ParseInstructions, InstructionsBytes, Flatten;
    var p := ParseMessage(b).value;
    var m := p.value;
    var r1 := b[3..];
    TakeU32Sound(r1);
    var r2 := r1[4..];
    var n := FromLittleEndian(r1[..4]);
    TakeItemsSound(r2, n, 32);
    var r3 := TakeItems(r2, n, 32).value.rest;
    var r4 := r3[32..];
    assert r3 == m.recentBlockhash + r4;
    TakeU32Sound(r4);
    var r5 := r4[4..];
    ParseInstructionsSound(r5, FromLittleEndian(r4[..4]));
    MessageBytesThen(m, p.rest);
    assert b == HeaderBytes(m.header) + r1;
  }

  /** Exactly when a message survives the wire: its counts fit the u32 fields they are truncated to. */
  lemma MessageRoundTripIff(m: SanitizedMessage, rest: seq<byte>)
    ensures ParseMessage(MessageBytes(m) + rest) == Some(Parsed(m, rest)) <==> MessageFits(m)
  {
    if MessageFits(m) {
      MessageRoundTrip(m, rest);
    } else if ParseMessage(MessageBytes(m) + rest).Some? {
      ParseMessageSound(MessageBytes(m) + rest);
    }
  }

  /** No serialized message is a proper prefix of another, and equal bytes mean equal messages. */
  lemma MessageBytesPrefixFree(m: SanitizedMessage, n: SanitizedMessage, x: seq<byte>, y: seq<byte>)
    requires MessageFits(m) && MessageFits(n)
    requires MessageBytes(m) + x == MessageBytes(n) + y
    ensures m == n && x == y
  {
    MessageRoundTrip(m, x);
    MessageRoundTrip(n, y);
  }

  // ---------------------------------------------------------------- the signing digest

  /** SHA-256 is a parameter: nothing below depends on which hash function it is. */
  type Sha256 = seq<byte> -> Hash

  function HexDoubleHash(sha: Sha256, b: seq<byte>): (h: seq<byte>)
    ensures |h| == 64
  {
    HexEncode(sha(HexEncode(sha(b))))
  }

  function MessageHash(sha: Sha256, m: SanitizedMessage): seq<byte> {
    HexDoubleHash(sha, MessageBytes(m))
  }

  /** d is the lowercase hex of the SHA-256 of the 64 lowercase hex digits of the SHA-256 of b. */
  ghost predicate IsHexDoubleHash(sha: Sha256, b: seq<byte>, d: seq<byte>) {
    && |d| == 64 && (forall c :: c in d ==> IsLowerHex(c))
    && exists h :: InnerHex(sha, b, h) && HexDecode(d) == Some(sha(h))
  }

  ghost predicate InnerHex(sha: Sha256, b: seq<byte>, h: seq<byte>) {
    |h| == 64 && (forall c :: c in h ==> IsLowerHex(c)) && HexDecode(h) == Some(sha(b))
  }

  lemma HexDoubleHashIs(sha: Sha256, b: seq<byte>)
    ensures IsHexDoubleHash(sha, b, HexDoubleHash(sha, b))
  {
    var h := HexEncode(sha(b));
    HexIsLower(sha(b));
    HexRoundTrip(sha(b));
    HexIsLower(sha(h));
    HexRoundTrip(sha(h));
    hide HexEncode, HexDecode, IsLowerHex;
    assert InnerHex(sha, b, h);
  }

  /** What every signer signs. */
  lemma SigningDigest(sha: Sha256, m: SanitizedMessage)
    ensures IsHexDoubleHash(sha, MessageBytes(m), MessageHash(sha, m))
  {
    HexDoubleHashIs(sha, MessageBytes(m));
  }

  ghost predicate Collision(sha: Sha256, x: seq<byte>, y: seq<byte>) {
    x != y && sha(x) == sha(y)
  }

  /** Equal double hashes of different inputs exhibit a collision, at the outer or the inner hash. */
  lemma HexDoubleHashBinds(sha: Sha256, x: seq<byte>, y: seq<byte>)
    requires HexDoubleHash(sha, x) == HexDoubleHash(sha, y)
    ensures x == y || Collision(sha, x, y) || Collision(sha, HexEncode(sha(x)), HexEncode(sha(y)))
  {
    HexInjective(sha(HexEncode(sha(x))), sha(HexEncode(sha(y))));
    if HexEncode(sha(x)) == HexEncode(sha(y)) { HexInjective(sha(x), sha(y)); }
  }

  lemma MessageHashBinds(sha: Sha256, m: SanitizedMessage, n: SanitizedMessage)
    requires MessageFits(m) && MessageFits(n)
    requires MessageHash(sha, m) == MessageHash(sha, n)
    ensures
      || m == n
      || Collision(sha, MessageBytes(m), MessageBytes(n))
      || Collision(sha, HexEncode(sha(MessageBytes(m))), HexEncode(sha(MessageBytes(n))))
  {
    HexDoubleHashBinds(sha, MessageBytes(m), MessageBytes(n));
    if MessageBytes(m) == MessageBytes(n) {
      MessageBytesPrefixFree(m, n, [], []);
    }
  }
}
