/** transaction.go: the signed envelope, its binary format, its id, and the assembly of its signatures. */
module Transaction {
  import opened Bytes
  import opened Keys
  import opened Message
  import opened KeyTable
  import opened CompileTheorems

  const RUNTIME_TX_VERSION: u32 := 0

  datatype RuntimeTransaction = RuntimeTransaction(version: u32, signatures: seq<Signature>, message: SanitizedMessage)

  // ---------------------------------------------------------------- layout

  /** The signature count is one byte: `uint8(len(tx.Signatures))`. */
  function TransactionBytes(tx: RuntimeTransaction): seq<byte> {
    LittleEndian(tx.version, 4)
    + ([(|tx.signatures| % 256) as byte]
    + (Flatten(tx.signatures)
    + MessageBytes(tx.message)))
  }

  method SerializeTransaction(tx: RuntimeTransaction) returns (buf: seq<byte>)
    ensures buf == TransactionBytes(tx)
  {
    hide LittleEndian, Flatten, MessageBytes;
    buf := LittleEndian(tx.version, 4);
    buf := buf + [(|tx.signatures| % 256) as byte];
    buf := AppendItems(buf, tx.signatures);
    var message := SerializeMessage(tx.message);
    buf := buf + message;
  }

  function ParseTransaction(b: seq<byte>): Option<Parsed<RuntimeTransaction>> {
    if |b| < 5 then None else
    U32RoundTripOf(b[..4]);
    var signatures := TakeItems(b[5..], b[4] as nat, 64);
    if signatures.None? then None else
    var message := ParseMessage(signatures.value.rest);
    if message.None? then None else
    Some(Parsed(
      RuntimeTransaction(FromLittleEndian(b[..4]), signatures.value.value, message.value.value),
      message.value.rest))
  }

  lemma U32RoundTripOf(b: seq<byte>)
    requires |b| == 4
    ensures FromLittleEndian(b) < U32_LIMIT && LittleEndian(FromLittleEndian(b), 4) == b
  {
    Pow256Values();
    FromLittleEndianRoundTrip(b);
  }

  predicate TransactionFits(tx: RuntimeTransaction) {
    |tx.signatures| <= 255 && MessageFits(tx.message)
  }

  lemma TransactionRoundTrip(tx: RuntimeTransaction, rest: seq<byte>)
    requires TransactionFits(tx)
    ensures ParseTransaction(TransactionBytes(tx) + rest) == Some(Parsed(tx, rest))
  {
    hide LittleEndian, FromLittleEndian, MessageBytes, ParseMessage, TakeItems, Flatten, MessageFits;
    var r2 := MessageBytes(tx.message) + rest;
    var r1 := Flatten(tx.signatures) + r2;
    var b := TransactionBytes(tx) + rest;
    var count := [|tx.signatures| as byte];
    assert b == LittleEndian(tx.version, 4) + (count + r1);
    U32RoundTrip(tx.version);
    assert b[..4] == LittleEndian(tx.version, 4);
    assert b[5..] == r1;
    assert b[4] == count[0];
    TakeItemsOfFlatten(tx.signatures, 64, r2);
    MessageRoundTrip(tx.message, rest);
  }

  lemma ParseTransactionSound(b: seq<byte>)
    requires ParseTransaction(b).Some?
    ensures var p := ParseTransaction(b).value; b == TransactionBytes(p.value) + p.rest && TransactionFits(p.value)
  {
    hide LittleEndian, FromLittleEndian, MessageBytes, ParseMessage, TakeItems, Flatten, MessageFits;
    var p := ParseTransaction(b).value;
    U32RoundTripOf(b[..4]);
    TakeItemsSound(b[5..], b[4] as nat, 64);
    var r2 := TakeItems(b[5..], b[4] as nat, 64).value.rest;
    ParseMessageSound(r2);
    assert b == b[..4] + ([b[4]] + b[5..]);
  }

  /** Exactly when a transaction survives the wire: at most 255 signatures, and a message that does. */
  lemma TransactionRoundTripIff(tx: RuntimeTransaction, rest: seq<byte>)
    ensures ParseTransaction(TransactionBytes(tx) + rest) == Some(Parsed(tx, rest)) <==> TransactionFits(tx)
  {
    hide TransactionBytes, ParseTransaction;
    if TransactionFits(tx) {
      TransactionRoundTrip(tx, rest);
    } else if ParseTransaction(TransactionBytes(tx) + rest).Some? {
      ParseTransactionSound(TransactionBytes(tx) + rest);
    }
  }

  function TxID(sha: Sha256, tx: RuntimeTransaction): seq<byte> {
    HexDoubleHash(sha, TransactionBytes(tx))
  }

  lemma TransactionId(sha: Sha256, tx: RuntimeTransaction)
    ensures IsHexDoubleHash(sha, TransactionBytes(tx), TxID(sha, tx))
  {
    HexDoubleHashIs(sha, TransactionBytes(tx));
  }

  /** Two transactions with one id are equal, or show a SHA-256 collision. */
  lemma TxIDBinds(sha: Sha256, tx: RuntimeTransaction, ty: RuntimeTransaction)
    requires TransactionFits(tx) && TransactionFits(ty)
    requires TxID(sha, tx) == TxID(sha, ty)
    ensures
      || tx == ty
      || Collision(sha, TransactionBytes(tx), TransactionBytes(ty))
      || Collision(sha, HexEncode(sha(TransactionBytes(tx))), HexEncode(sha(TransactionBytes(ty))))
  {
    hide TransactionBytes, HexDoubleHash, HexEncode;
    HexDoubleHashBinds(sha, TransactionBytes(tx), TransactionBytes(ty));
    if TransactionBytes(tx) == TransactionBytes(ty) {
      TransactionRoundTrip(tx, []);
      TransactionRoundTrip(ty, []);
    }
  }

  // ---------------------------------------------------------------- signing

  /** A private key is known by its secret scalar.  Key derivation, BIP-322 signing, which may fail, and verification
      are parameters. */
  type PrivateKey = nat

  datatype Scheme = Scheme(
    sha: Sha256,
    xOnly: PrivateKey -> Pubkey,
    sign: (PrivateKey, seq<byte>) -> Option<Signature>,
    verify: (seq<byte>, Pubkey, Signature) -> bool)

  datatype SignError = TooFewKeys | SignerNotFound(key: Pubkey) | SigningFailed(key: Pubkey)

  /** The signer registered for a key: a later one with the same key replaces an earlier one. */
  function SignerFor(c: Scheme, signers: seq<PrivateKey>, key: Pubkey): Option<PrivateKey> {
    if signers == [] then None
    else
      var n := |signers| - 1;
      if c.xOnly(signers[n]) == key then Some(signers[n]) else SignerFor(c, signers[..n], key)
  }

  function SignAll(c: Scheme, digest: seq<byte>, signers: seq<PrivateKey>, keys: seq<Pubkey>)
    : Result<seq<Signature>, SignError>
  {
    if keys == [] then Ok([])
    else
      var signer := SignerFor(c, signers, keys[0]);
      if signer.None? then Err(SignerNotFound(keys[0])) else
      var sig := c.sign(signer.value, digest);
      if sig.None? then Err(SigningFailed(keys[0])) else
      var tail := SignAll(c, digest, signers, keys[1..]);
      if tail.Err? then tail else Ok([sig.value] + tail.value)
  }

  function RequiredKeys(m: SanitizedMessage): seq<Pubkey>
    requires m.header.numRequiredSignatures as nat <= |m.accountKeys|
  {
    m.accountKeys[..m.header.numRequiredSignatures]
  }

  function SignedTransaction(c: Scheme, m: SanitizedMessage, signers: seq<PrivateKey>)
    : Result<RuntimeTransaction, SignError>
  {
    if m.header.numRequiredSignatures as nat > |m.accountKeys| then Err(TooFewKeys)
    else
      var sigs := SignAll(c, MessageHash(c.sha, m), signers, RequiredKeys(m));
      match sigs
      case Ok(s) => Ok(RuntimeTransaction(RUNTIME_TX_VERSION, s, m))
      case Err(e) => Err(e)
  }

  method RegisterSigners(c: Scheme, signers: seq<PrivateKey>) returns (byPubkey: map<Pubkey, PrivateKey>)
    ensures forall k :: SignerFor(c, signers, k) == if k in byPubkey then Some(byPubkey[k]) else None
  {
    byPubkey := map[];
    for i := 0 to |signers|
      invariant forall k :: SignerFor(c, signers[..i], k) == if k in byPubkey then Some(byPubkey[k]) else None
    {
      byPubkey := byPubkey[c.xOnly(signers[i]) := signers[i]];
      assert signers[..i + 1][..i] == signers[..i];
    }
    assert signers[..|signers|] == signers;
  }

  ghost function After(done: seq<Signature>, rest: Result<seq<Signature>, SignError>)
    : Result<seq<Signature>, SignError>
  {
    if rest.Err? then rest else Ok(done + rest.value)
  }

  lemma AfterNothing(rest: Result<seq<Signature>, SignError>, done: seq<Signature>)
    ensures After([], rest) == rest && After(done, Ok([])) == Ok(done)
  {
    if rest.Ok? { assert [] + rest.value == rest.value; }
    assert done + [] == done;
  }

  lemma SignOne(c: Scheme, digest: seq<byte>, signers: seq<PrivateKey>, done: seq<Signature>, keys: seq<Pubkey>, i: nat)
    requires i < |keys|
    ensures var all := After(done, SignAll(c, digest, signers, keys[i..]));
      match SignerFor(c, signers, keys[i])
      case None => all == Err(SignerNotFound(keys[i]))
      case Some(s) =>
        match c.sign(s, digest)
        case None => all == Err(SigningFailed(keys[i]))
        case Some(sig) => all == After(done + [sig], SignAll(c, digest, signers, keys[i + 1..]))
  {
    assert keys[i..][1..] == keys[i + 1..];
    var tail := SignAll(c, digest, signers, keys[i + 1..]);
    if tail.Ok? {
      forall sig: Signature
        ensures done + ([sig] + tail.value) == (done + [sig]) + tail.value
      {
      }
    }
  }

  method BuildAndSignTransaction(c: Scheme, message: SanitizedMessage, signers: seq<PrivateKey>)
    returns (r: Result<RuntimeTransaction, SignError>)
    ensures r == SignedTransaction(c, message, signers)
  {
    var digest := MessageHash(c.sha, message);
    var numRequired := message.header.numRequiredSignatures as nat;
    if numRequired > |message.accountKeys| {
      return Err(TooFewKeys);
    }
    var byPubkey := RegisterSigners(c, signers);
    var signatures: seq<Signature> := [];
    ghost var keys := RequiredKeys(message);
    hide SignAll, SignerFor, MessageHash;
    ghost var all := SignAll(c, digest, signers, keys);
    assert keys[0..] == keys;
    AfterNothing(all, signatures);
    for i := 0 to numRequired
      invariant After(signatures, SignAll(c, digest, signers, keys[i..])) == all
    {
      var key := message.accountKeys[i];
      SignOne(c, digest, signers, signatures, keys, i);
      if key !in byPubkey {
        return Err(SignerNotFound(key));
      }
      var sig := c.sign(byPubkey[key], digest);
      match sig {
        case None => return Err(SigningFailed(key));
        case Some(s) => signatures := signatures + [s];
      }
    }
    SignNothing(c, digest, signers);
    assert keys[numRequired..] == [];
    AfterNothing(all, signatures);
    r := Ok(RuntimeTransaction(RUNTIME_TX_VERSION, signatures, message));
  }

  lemma SignNothing(c: Scheme, digest: seq<byte>, signers: seq<PrivateKey>)
    ensures SignAll(c, digest, signers, []) == Ok([])
  {
  }

  /** The hypothesis on BIP-322, for the signers and the digest in hand: signing succeeds, and what it returns verifies
      under the signer's own key. */
  ghost predicate SignsSoundly(c: Scheme, signers: seq<PrivateKey>, digest: seq<byte>) {
    forall s :: s in signers ==> c.sign(s, digest).Some? && c.verify(digest, c.xOnly(s), c.sign(s, digest).value)
  }

  ghost predicate HasSigner(c: Scheme, signers: seq<PrivateKey>, key: Pubkey) {
    exists s :: s in signers && c.xOnly(s) == key
  }

  lemma {:induction false} SignerForFinds(c: Scheme, signers: seq<PrivateKey>, key: Pubkey)
    ensures SignerFor(c, signers, key).Some? <==> HasSigner(c, signers, key)
    ensures SignerFor(c, signers, key).Some? ==>
      && SignerFor(c, signers, key).value in signers && c.xOnly(SignerFor(c, signers, key).value) == key
      && exists n: nat :: LastWith(c, signers, key, n) && signers[n] == SignerFor(c, signers, key).value
  {
    if signers != [] {
      var n := |signers| - 1;
      SignerForFinds(c, signers[..n], key);
      assert forall s :: s in signers <==> s in signers[..n] || s == signers[n];
      if c.xOnly(signers[n]) == key {
        assert LastWith(c, signers, key, n);
      } else if SignerFor(c, signers, key).Some? {
        var i: nat :| LastWith(c, signers[..n], key, i) && signers[..n][i] == SignerFor(c, signers[..n], key).value;
        assert LastWith(c, signers, key, i);
      }
    }
  }

  /** The signer at n has the key, and none after it does. */
  ghost predicate LastWith(c: Scheme, signers: seq<PrivateKey>, key: Pubkey, n: nat) {
    n < |signers| && c.xOnly(signers[n]) == key && forall i :: n < i < |signers| ==> c.xOnly(signers[i]) != key
  }

  /** The signer registered for a key, the last one listed with it, signs the digest. */
  predicate CanSign(c: Scheme, digest: seq<byte>, signers: seq<PrivateKey>, key: Pubkey) {
    var s := SignerFor(c, signers, key);
    s.Some? && c.sign(s.value, digest).Some?
  }

  function SignatureFor(c: Scheme, digest: seq<byte>, signers: seq<PrivateKey>, key: Pubkey): Signature
    requires CanSign(c, digest, signers, key)
  {
    c.sign(SignerFor(c, signers, key).value, digest).value
  }

  lemma {:induction false} SignAllExactly(c: Scheme, digest: seq<byte>, signers: seq<PrivateKey>, keys: seq<Pubkey>)
    ensures var r := SignAll(c, digest, signers, keys);
      && (r.Ok? <==> forall k :: k in keys ==> CanSign(c, digest, signers, k))
      && (r.Ok? ==> |r.value| == |keys| && forall i :: 0 <= i < |keys| ==>
        CanSign(c, digest, signers, keys[i]) && r.value[i] == SignatureFor(c, digest, signers, keys[i]))
      && (r.Err? ==> exists i: nat ::
        FailsFirstAt(c, digest, signers, keys, i) && r.error == ErrorAt(c, signers, keys[i]))
  {
    if keys != [] {
      if SignAll(c, digest, signers, keys).Err? { FirstFailure(c, digest, signers, keys); }
      SignAllExactly(c, digest, signers, keys[1..]);
      assert keys[0] in keys;
      assert CanSign(c, digest, signers, keys[0]) ==>
        SignAll(c, digest, signers, keys).Ok? == SignAll(c, digest, signers, keys[1..]).Ok?;
      hide SignerFor;
      assert forall k :: k in keys <==> k == keys[0] || k in keys[1..];
    }
  }

  /** Key i is the first that cannot be signed for. */
  ghost predicate FailsFirstAt(c: Scheme, digest: seq<byte>, signers: seq<PrivateKey>, keys: seq<Pubkey>, i: nat) {
    && i < |keys| && !CanSign(c, digest, signers, keys[i])
    && forall j :: 0 <= j < i ==> CanSign(c, digest, signers, keys[j])
  }

  /** No signer has the key, or the one that has it fails. */
  ghost function ErrorAt(c: Scheme, signers: seq<PrivateKey>, key: Pubkey): SignError {
    if HasSigner(c, signers, key) then SigningFailed(key) else SignerNotFound(key)
  }

  lemma {:induction false} FirstFailure(c: Scheme, digest: seq<byte>, signers: seq<PrivateKey>, keys: seq<Pubkey>)
    requires SignAll(c, digest, signers, keys).Err?
    ensures exists i: nat ::
      FailsFirstAt(c, digest, signers, keys, i)
      && SignAll(c, digest, signers, keys).error == ErrorAt(c, signers, keys[i])
  {
    SignerForFinds(c, signers, keys[0]);
    if !CanSign(c, digest, signers, keys[0]) {
      hide HasSigner, SignerFor;
      assert FailsFirstAt(c, digest, signers, keys, 0);
    } else {
      hide HasSigner, SignerFor;
      FirstFailure(c, digest, signers, keys[1..]);
      var i: nat :| FailsFirstAt(c, digest, signers, keys[1..], i)
        && SignAll(c, digest, signers, keys[1..]).error == ErrorAt(c, signers, keys[1..][i]);
      hide ErrorAt, CanSign;
      assert keys[1..][i] == keys[i + 1];
      assert forall j :: 0 < j < i + 1 ==> keys[j] == keys[1..][j - 1];
      assert FailsFirstAt(c, digest, signers, keys, i + 1);
    }
  }

  /** Signers that sign soundly can sign for exactly the keys they hold. */
  lemma SoundSigners(c: Scheme, digest: seq<byte>, signers: seq<PrivateKey>, key: Pubkey)
    requires SignsSoundly(c, signers, digest)
    ensures CanSign(c, digest, signers, key) <==> HasSigner(c, signers, key)
    ensures CanSign(c, digest, signers, key) ==> c.verify(digest, key, SignatureFor(c, digest, signers, key))
  {
    SignerForFinds(c, signers, key);
    hide HasSigner, SignerFor;
  }

  /** On a compiled message, whatever the signing scheme, signing succeeds exactly when for the payer and for every key
      some instruction flags as a signer the last signer listed with that key signs the digest; then there is one
      signature per required key, and signature i is that signer's for account key i. */
  lemma SignsExactlyWhenAble(
    c: Scheme, ixs: seq<Instruction>, payer: Option<Pubkey>, blockhash: Hash, m: SanitizedMessage,
    signers: seq<PrivateKey>)
    requires Compile(ixs, payer, blockhash) == Some(m)
    ensures var r := SignedTransaction(c, m, signers); var d := MessageHash(c.sha, m);
      && (r.Ok? <==> forall k :: MustSign(ixs, payer, k) ==> CanSign(c, d, signers, k))
      && (r.Ok? ==>
        && r.value.message == m && r.value.version == RUNTIME_TX_VERSION
        && |r.value.signatures| == m.header.numRequiredSignatures as nat <= |m.accountKeys|
        && forall i :: 0 <= i < |r.value.signatures| ==>
          && CanSign(c, d, signers, m.accountKeys[i])
          && r.value.signatures[i] == SignatureFor(c, d, signers, m.accountKeys[i]))
      && (r.Err? ==> exists i: nat ::
        FailsFirstAt(c, d, signers, m.accountKeys, i) && r.error == ErrorAt(c, signers, m.accountKeys[i]))
  {
    hide Compile, MustSign, CanSign, SignatureFor, SignAll, MessageHash, ErrorAt;
    RequiredKeysSign(ixs, payer, blockhash, m);
    var d, keys := MessageHash(c.sha, m), RequiredKeys(m);
    SignAllExactly(c, d, signers, keys);
    if SignedTransaction(c, m, signers).Err? {
      var i: nat :| FailsFirstAt(c, d, signers, keys, i)
        && SignAll(c, d, signers, keys).error == ErrorAt(c, signers, keys[i]);
      assert FailsFirstAt(c, d, signers, m.accountKeys, i);
    }
  }

  /** If the signers in hand sign this message's digest soundly, signing succeeds exactly when they, in any order and
      with repeats, cover the payer and every key some instruction flags as a signer; then there is one signature per
      required key, and signature i verifies under account key i. */
  lemma SignsExactlyWhenCovered(
    c: Scheme, ixs: seq<Instruction>, payer: Option<Pubkey>, blockhash: Hash, m: SanitizedMessage,
    signers: seq<PrivateKey>)
    requires SignsSoundly(c, signers, MessageHash(c.sha, m))
    requires Compile(ixs, payer, blockhash) == Some(m)
    ensures var r := SignedTransaction(c, m, signers);
      && (r.Ok? <==> forall k :: MustSign(ixs, payer, k) ==> HasSigner(c, signers, k))
      && (r.Ok? ==>
        && r.value.message == m && r.value.version == RUNTIME_TX_VERSION
        && |r.value.signatures| == m.header.numRequiredSignatures as nat <= |m.accountKeys|
        && forall i :: 0 <= i < |r.value.signatures| ==>
          c.verify(MessageHash(c.sha, m), m.accountKeys[i], r.value.signatures[i]))
  {
    hide Compile, MustSign, HasSigner, CanSign, SignatureFor, SignedTransaction, MessageHash, SignsSoundly;
    SignsExactlyWhenAble(c, ixs, payer, blockhash, m, signers);
    forall k { SoundSigners(c, MessageHash(c.sha, m), signers, k); }
  }

  lemma RequiredKeySigns(
    ixs: seq<Instruction>, payer: Option<Pubkey>, blockhash: Hash, m: SanitizedMessage, k: Pubkey)
    requires Compile(ixs, payer, blockhash) == Some(m) && m.header.numRequiredSignatures as nat <= |m.accountKeys|
    requires k in RequiredKeys(m)
    ensures MustSign(ixs, payer, k)
  {
    hide Compile, MustSign, MustWrite, WritableAt;
    var i: nat :| i < |RequiredKeys(m)| && RequiredKeys(m)[i] == k;
    PrivilegesFromPositions(ixs, payer, blockhash, m, i);
  }

  lemma SigningKeyRequired(
    ixs: seq<Instruction>, payer: Option<Pubkey>, blockhash: Hash, m: SanitizedMessage, k: Pubkey)
    requires Compile(ixs, payer, blockhash) == Some(m) && m.header.numRequiredSignatures as nat <= |m.accountKeys|
    requires MustSign(ixs, payer, k)
    ensures k in RequiredKeys(m)
  {
    hide Compile, MustSign, MustWrite, WritableAt, ReferencedKeys, Distinct;
    KeysExactlyOnce(ixs, payer, blockhash);
    MustSignReferenced(ixs, payer, k);
    assert k in Elements(m.accountKeys);
    var i: nat :| i < |m.accountKeys| && m.accountKeys[i] == k;
    PrivilegesFromPositions(ixs, payer, blockhash, m, i);
    assert RequiredKeys(m)[i] == k;
  }

  /** The first numRequiredSignatures keys are exactly the keys that must sign. */
  lemma RequiredKeysSign(ixs: seq<Instruction>, payer: Option<Pubkey>, blockhash: Hash, m: SanitizedMessage)
    requires Compile(ixs, payer, blockhash) == Some(m)
    ensures m.header.numRequiredSignatures as nat <= |m.accountKeys|
    ensures forall k :: k in RequiredKeys(m) <==> MustSign(ixs, payer, k)
  {
    HeaderWithinTable(ixs, payer, blockhash, m);
    hide Compile, MustSign, RequiredKeys;
    forall k
      ensures k in RequiredKeys(m) <==> MustSign(ixs, payer, k)
    {
      if MustSign(ixs, payer, k) { SigningKeyRequired(ixs, payer, blockhash, m, k); }
      if k in RequiredKeys(m) { RequiredKeySigns(ixs, payer, blockhash, m, k); }
    }
  }

  lemma MustSignReferenced(ixs: seq<Instruction>, payer: Option<Pubkey>, k: Pubkey)
    requires MustSign(ixs, payer, k)
    ensures k in ReferencedKeys(ixs, payer)
  {
    if payer != Some(k) {
      var ix :| ix in ixs && SignedBy(ix, k);
      assert k in InstructionKeys(ix);
    }
  }

  lemma HeaderWithinTable(ixs: seq<Instruction>, payer: Option<Pubkey>, blockhash: Hash, m: SanitizedMessage)
    requires Compile(ixs, payer, blockhash) == Some(m)
    ensures m.header.numRequiredSignatures as nat <= |m.accountKeys| <= 256
  {
    var p := Merged(ixs, payer);
    assert Signers(p) <= p.Keys;
    SubsetCardinality(Signers(p), p.Keys);
  }

  /** A signed transaction always fits its one-byte signature count. */
  lemma SignedTransactionCount(c: Scheme, m: SanitizedMessage, signers: seq<PrivateKey>)
    requires SignedTransaction(c, m, signers).Ok?
    ensures |SignedTransaction(c, m, signers).value.signatures| == m.header.numRequiredSignatures as nat <= 255
    ensures SignedTransaction(c, m, signers).value.message == m
    ensures SignedTransaction(c, m, signers).value.version == 0
  {
    hide SignAll, CanSign, SignatureFor;
    SignAllExactly(c, MessageHash(c.sha, m), signers, RequiredKeys(m));
  }

  /** The bytes of a signed transaction begin with version 0, in four zero bytes, then the signature count. */
  lemma SignedBytesBegin(c: Scheme, m: SanitizedMessage, signers: seq<PrivateKey>)
    requires SignedTransaction(c, m, signers).Ok?
    ensures var b := TransactionBytes(SignedTransaction(c, m, signers).value);
      |b| >= 5 && b[..5] == [0, 0, 0, 0, m.header.numRequiredSignatures]
  {
    SignedTransactionCount(c, m, signers);
    var tx := SignedTransaction(c, m, signers).value;
    var b := TransactionBytes(tx);
    hide SignedTransaction, Flatten, MessageBytes;
    assert b[..4] == LittleEndian(0, 4);
    forall i: nat | i < 4
      ensures b[i] == 0
    {
      LowestByteFirst(0, 4, i);
      assert b[i] == b[..4][i];
    }
    hide LittleEndian;
    assert b[4] == m.header.numRequiredSignatures;
  }
}
