/** pda.go: program-derived addresses and the downward bump search. */
module Pda {
  import opened Bytes
  import opened Keys
  import opened Message
  import opened ProgramIds

  const MAX_SEEDS: nat := 16
  const MAX_SEED_LEN: nat := 32

  datatype PdaError = TooManySeeds(n: nat) | SeedTooLong(i: nat) | OnCurve | NoBump

  /** SHA-256, and whether btcec.ParsePubKey accepts some bytes. */
  datatype Oracle = Oracle(sha: Sha256, onCurve: seq<byte> -> bool)

  predicate SeedsAllowed(seeds: seq<seq<byte>>) {
    |seeds| <= MAX_SEEDS && forall s :: s in seeds ==> |s| <= MAX_SEED_LEN
  }

  function Preimage(seeds: seq<seq<byte>>, programId: Pubkey): seq<byte> {
    Flatten(seeds) + programId
  }

  function Address(o: Oracle, seeds: seq<seq<byte>>, programId: Pubkey): Pubkey {
    o.sha(Preimage(seeds, programId))
  }

  /** When a seed list yields an address: it is within both limits, and its digest is not a curve point. */
  predicate Viable(o: Oracle, seeds: seq<seq<byte>>, programId: Pubkey) {
    SeedsAllowed(seeds) && !o.onCurve(Address(o, seeds, programId))
  }

  method CreateProgramAddress(o: Oracle, seeds: seq<seq<byte>>, programId: Pubkey) returns (r: Result<Pubkey, PdaError>)
    ensures r.Ok? <==> Viable(o, seeds, programId)
    ensures r.Ok? ==> r.value == Address(o, seeds, programId)
    ensures r.Err? ==>
      match r.error
      case TooManySeeds(n) => n == |seeds| > MAX_SEEDS
      case SeedTooLong(i) => |seeds| <= MAX_SEEDS && i < |seeds| && |seeds[i]| > MAX_SEED_LEN
        && forall j :: 0 <= j < i ==> |seeds[j]| <= MAX_SEED_LEN
      case OnCurve => SeedsAllowed(seeds) && o.onCurve(Address(o, seeds, programId))
      case NoBump => false
  {
    if |seeds| > MAX_SEEDS {
      return Err(TooManySeeds(|seeds|));
    }
    for i := 0 to |seeds|
      invariant forall j :: 0 <= j < i ==> |seeds[j]| <= MAX_SEED_LEN
    {
      if |seeds[i]| > MAX_SEED_LEN {
        return Err(SeedTooLong(i));
      }
    }
    var fed := AppendItems([], seeds);
    assert fed == Flatten(seeds);
    fed := fed + programId;
    var digest := o.sha(fed);
    if o.onCurve(digest) {
      return Err(OnCurve);
    }
    return Ok(digest);
  }

  function WithBump(seeds: seq<seq<byte>>, bump: byte): seq<seq<byte>> {
    seeds + [[bump]]
  }

  ghost predicate IsGreatestBump(o: Oracle, seeds: seq<seq<byte>>, programId: Pubkey, bump: byte) {
    && bump >= 1
    && Viable(o, WithBump(seeds, bump), programId)
    && forall b: byte :: b > bump ==> !Viable(o, WithBump(seeds, b), programId)
  }

  ghost predicate HasBump(o: Oracle, seeds: seq<seq<byte>>, programId: Pubkey) {
    exists b: byte :: b >= 1 && Viable(o, WithBump(seeds, b), programId)
  }

  /** The search returns the greatest viable bump between 1 and 255 and fails exactly when there is none. */
  method FindProgramAddress(o: Oracle, seeds: seq<seq<byte>>, programId: Pubkey)
    returns (r: Result<(Pubkey, byte), PdaError>)
    ensures r.Ok? <==> HasBump(o, seeds, programId)
    ensures r.Ok? ==>
      && IsGreatestBump(o, seeds, programId, r.value.1)
      && r.value.0 == Address(o, WithBump(seeds, r.value.1), programId)
    ensures r.Err? ==> r.error == NoBump
  {
    var bump := 255;
    while bump >= 1
      invariant 0 <= bump <= 255
      invariant forall b: byte :: b as int > bump ==> !Viable(o, WithBump(seeds, b), programId)
      decreases bump
    {
      var pda := CreateProgramAddress(o, WithBump(seeds, bump as byte), programId);
      match pda {
        case Ok(address) => return Ok((address, bump as byte));
        case Err(_) =>
      }
      bump := bump - 1;
    }
    return Err(NoBump);
  }

  /** btcec.ParsePubKey takes 33 or 65 bytes, so it rejects every 32-byte digest. */
  ghost predicate RejectsDigests(o: Oracle) {
    forall d: Hash :: !o.onCurve(d)
  }

  lemma BumpKeepsLimits(seeds: seq<seq<byte>>, b: byte)
    ensures SeedsAllowed(WithBump(seeds, b)) <==> |seeds| < MAX_SEEDS && forall s :: s in seeds ==> |s| <= MAX_SEED_LEN
  {
    var all := WithBump(seeds, b);
    assert forall s :: s in all <==> s in seeds || s == [b];
  }

  /** Then the search takes the first bump it tries, 255, for at most 15 seeds of at most 32 bytes, and fails for any
      other seed list. */
  lemma BumpIsAlways255(o: Oracle, seeds: seq<seq<byte>>, programId: Pubkey)
    requires RejectsDigests(o)
    ensures HasBump(o, seeds, programId) <==> |seeds| <= 15 && forall s :: s in seeds ==> |s| <= 32
    ensures forall b: byte :: IsGreatestBump(o, seeds, programId, b) ==> b == 255
  {
    forall b: byte
      ensures Viable(o, WithBump(seeds, b), programId) <==> |seeds| <= 15 && forall s :: s in seeds ==> |s| <= 32
    {
      BumpKeepsLimits(seeds, b);
    }
    hide Viable;
    var top: byte := 255;
    assert top >= 1 && (Viable(o, WithBump(seeds, top), programId) ==> HasBump(o, seeds, programId));
  }

  // ---------------------------------------------------------------- what an address determines

  /** The hash preimage determines the program and the seeds run together, but not where one seed ends and the next
      begins. */
  lemma PreimageDetermines(s: seq<seq<byte>>, p: Pubkey, t: seq<seq<byte>>, q: Pubkey)
    ensures Preimage(s, p) == Preimage(t, q) <==> p == q && Flatten(s) == Flatten(t)
  {
    hide Flatten;
    var x, y := Preimage(s, p), Preimage(t, q);
    if x == y {
      assert x[|x| - 32..] == p && y[|y| - 32..] == q;
      assert x[..|x| - 32] == Flatten(s) && y[..|y| - 32] == Flatten(t);
    }
  }

  /** Equal addresses come from one program and seeds that run together alike, or show a SHA-256 collision. */
  lemma AddressBinds(o: Oracle, s: seq<seq<byte>>, p: Pubkey, t: seq<seq<byte>>, q: Pubkey)
    ensures Address(o, s, p) == Address(o, t, q) ==>
      (p == q && Flatten(s) == Flatten(t)) || Collision(o.sha, Preimage(s, p), Preimage(t, q))
  {
    hide Preimage, Flatten;
    PreimageDetermines(s, p, t, q);
  }

  /** Seed lists cut differently share their address, whatever the hash function, the program and the bump. */
  lemma SeedBoundariesAreLost(o: Oracle, p: Pubkey, b: byte) returns (s: seq<seq<byte>>, t: seq<seq<byte>>)
    ensures s != t && SeedsAllowed(WithBump(s, b)) && SeedsAllowed(WithBump(t, b))
    ensures Address(o, WithBump(s, b), p) == Address(o, WithBump(t, b), p)
  {
    var bump: seq<byte> := [b];
    s, t := [[1, 2], [3]], [[1], [2, 3]];
    assert s[0] != t[0];
    assert WithBump(s, b) == [[1, 2]] + ([[3]] + ([bump] + [])) && WithBump(t, b) == [[1]] + ([[2, 3]] + ([bump] + []));
    FlattenCons([1, 2], [[3]] + ([bump] + []));
    FlattenCons([3], [bump] + []);
    FlattenCons([1], [[2, 3]] + ([bump] + []));
    FlattenCons([2, 3], [bump] + []);
    hide Flatten;
    var tail := Flatten([bump] + []);
    assert [1, 2] + ([3] + tail) == [1] + ([2, 3] + tail);
  }

  // ---------------------------------------------------------------- associated token addresses

  function AssociatedSeeds(wallet: Pubkey, mint: Pubkey): seq<seq<byte>> {
    [wallet, TOKEN_PROGRAM_ID, mint]
  }

  method AssociatedTokenAddress(o: Oracle, wallet: Pubkey, mint: Pubkey) returns (r: Result<(Pubkey, byte), PdaError>)
    ensures r.Ok? <==> HasBump(o, AssociatedSeeds(wallet, mint), ASSOCIATED_TOKEN_PROGRAM_ID)
    ensures r.Ok? ==>
      && IsGreatestBump(o, AssociatedSeeds(wallet, mint), ASSOCIATED_TOKEN_PROGRAM_ID, r.value.1)
      && r.value.0 == Address(o, WithBump(AssociatedSeeds(wallet, mint), r.value.1), ASSOCIATED_TOKEN_PROGRAM_ID)
  {
    hide HasBump, IsGreatestBump, AssociatedSeeds;
    r := FindProgramAddress(o, AssociatedSeeds(wallet, mint), ASSOCIATED_TOKEN_PROGRAM_ID);
  }

  lemma AssociatedPreimage(wallet: Pubkey, mint: Pubkey, b: byte)
    ensures Preimage(WithBump(AssociatedSeeds(wallet, mint), b), ASSOCIATED_TOKEN_PROGRAM_ID)
      == wallet + (TOKEN_PROGRAM_ID + (mint + ([b] + ASSOCIATED_TOKEN_PROGRAM_ID)))
  {
    var bump: seq<byte> := [b];
    var s0: seq<seq<byte>> := WithBump(AssociatedSeeds(wallet, mint), b);
    FlattenCons(wallet, [TOKEN_PROGRAM_ID, mint, bump]);
    FlattenCons(TOKEN_PROGRAM_ID, [mint, bump]);
    FlattenCons(mint, [bump]);
    FlattenCons(bump, []);
    hide Flatten;
    assert s0 == [wallet] + [TOKEN_PROGRAM_ID, mint, bump];
    assert [TOKEN_PROGRAM_ID, mint, bump] == [TOKEN_PROGRAM_ID] + [mint, bump];
    assert [mint, bump] == [mint] + [bump];
    assert [bump] == [bump] + [];
    FlattenNothing();
  }

  lemma FlattenNothing()
    ensures Flatten([]) == []
  {
  }

  /** Equal addresses come from equal wallets, mints and bumps, or show a SHA-256 collision. */
  lemma AssociatedAddressBinds(
    o: Oracle, wallet: Pubkey, mint: Pubkey, b: byte, wallet': Pubkey, mint': Pubkey, b': byte)
    ensures var x, y :=
        Preimage(WithBump(AssociatedSeeds(wallet, mint), b), ASSOCIATED_TOKEN_PROGRAM_ID),
        Preimage(WithBump(AssociatedSeeds(wallet', mint'), b'), ASSOCIATED_TOKEN_PROGRAM_ID);
      && (x == y <==> wallet == wallet' && mint == mint' && b == b')
      && (o.sha(x) == o.sha(y) ==> (wallet == wallet' && mint == mint' && b == b') || Collision(o.sha, x, y))
  {
    hide WithBump, AssociatedSeeds;
    AssociatedPreimage(wallet, mint, b);
    AssociatedPreimage(wallet', mint', b');
    hide Preimage;
    var x := wallet + (TOKEN_PROGRAM_ID + (mint + ([b] + ASSOCIATED_TOKEN_PROGRAM_ID)));
    var y := wallet' + (TOKEN_PROGRAM_ID + (mint' + ([b'] + ASSOCIATED_TOKEN_PROGRAM_ID)));
    assert x[..32] == wallet && y[..32] == wallet';
    assert x[64..96] == mint && y[64..96] == mint';
    assert x[96] == b && y[96] == b';
  }
}
