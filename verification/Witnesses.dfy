/**
 * States that meet every invariant and yet an instruction one would expect to succeed fails: the exclusions in the
 * exact conditions are not empty.
 */
module Witnesses {
  import opened Machine
  import opened Pricing
  import opened Sums
  import opened Wallets
  import opened Voting
  import opened EducationState
  import opened EducationLedger
  import opened DeliverySteps
  import opened GovernanceSteps
  import opened DeliveryGuarantees
  import RegionsState
  import RegionsLedger
  import RegionsVotes

  lemma SingleSum<K(!new), V(!new)>(m: map<K, V>, k: K, f: (K, V) -> nat)
    requires m.Keys == {k}
    ensures Sum(m, f) == f(k, m[k])
  {
    SumSplit(m, f, k);
    assert m - {k} == map[];
  }

  /** A module of one token at one unit of a currency without decimals, and no fees. */
  const PLAIN_TERMS := Terms(1, Fees(0, 0, 0, 0))

  const PLAIN_CONFIG := Config(1, 1, 1, 1, PLAIN_TERMS, 1, 0, 1, 1, 1, 1, 0, 1, 1, 1, 0, 1, 1, 1, 1, 1, 1, 1, {0}, 0)

  const ONE_REGION: map<u16, Key> := map[0 := 7]
  const ONE_ASSET: map<Key, u8> := map[0 := 0]

  /** One id of each kind used up, and one holder of one unit of the asset. */
  const PLAIN_WORLD :=
    World(PLAIN_CONFIG, 1, 1, 1, 1, 1, {}, ONE_REGION, ONE_ASSET, {0}, map[], 0, map[(0, 9) := 1])

  lemma PlainPrice()
    ensures PricePerToken(PLAIN_TERMS, 0) == Ok(1)
  {
  }

  lemma PlainConfig()
    ensures PLAIN_WORLD.config.Valid()
  {
  }

  /** A ledger in this world with no votes, gifts or cancellations holds up if its records do. */
  lemma PlainHolds(l: Ledger)
    requires l == Ledger(PLAIN_WORLD, I64_MIN, l.modules, l.sponsorships, l.bookings, l.deliverers, map[],
                         l.proposals, map[], map[], 0)
    requires ModulesInv(1, ONE_REGION, l.modules, l.sponsorships, l.bookings)
    requires SponsorshipsInv(1, 1, ONE_ASSET, l.modules, l.sponsorships, l.bookings)
    requires BookingsInv(1, l.modules, l.sponsorships, l.bookings, l.deliverers)
    requires ProposalsInv(1, ONE_REGION, ONE_ASSET, l.proposals)
    requires Sum(l.modules, ModuleDeposit()) + Sum(l.bookings, BookingDeposit()) + Sum(l.deliverers, DelivererDeposit())
             + Sum(l.proposals, ProposalStake()) <= U64_MAX
    ensures Inv(l)
  {
    hide Sum, PricePerToken, ModulesInv, SponsorshipsInv, BookingsInv, ProposalsInv, Config.Valid;
    PlainConfig();
    SumZero(l.ballots, LockedPower());
    SumZero(l.world.xcav, Held());
    forall pid
      ensures Sum(l.ballots, CastOn(pid)) == 0
    {
      SumZero(l.ballots, CastOn(pid));
    }
  }

  // ----- a pre-sponsorship that cannot come back -----

  /** A sponsor's proposal for one token that was voted down, with the pre-sponsorship still in its escrow. */
  const VOTED_DOWN: Proposal :=
    Proposal(5, ModuleSponsor, 0, Rejected, 0, 1, 1, PLAIN_TERMS, None, 0, 0, 0, [], 0, 0, 1, 1)

  const ONE_PROPOSAL: map<nat, Proposal> := map[0 := VOTED_DOWN]

  ghost function VotedDown(): Ledger {
    Ledger(PLAIN_WORLD, I64_MIN, map[], map[], map[], map[], map[], ONE_PROPOSAL, map[], map[], 0)
  }

  lemma VotedDownOk()
    ensures ProposalsInv(1, ONE_REGION, ONE_ASSET, ONE_PROPOSAL)
    ensures Sum(ONE_PROPOSAL, ProposalStake()) == 0
  {
    hide PricePerToken, Sum;
    PlainPrice();
    SingleSum(ONE_PROPOSAL, 0, ProposalStake());
  }

  lemma VotedDownHolds()
    ensures Inv(VotedDown())
  {
    hide Sum, PricePerToken, ProposalsInv, Inv;
    var l := VotedDown();
    VotedDownOk();
    SumZero(l.modules, ModuleDeposit());
    SumZero(l.bookings, BookingDeposit());
    SumZero(l.deliverers, DelivererDeposit());
    PlainHolds(l);
  }

  /** The pre-sponsorship could be taken back, until someone sends one unit of its asset to the escrow. */
  lemma GiftStrandsPreSponsorship()
    ensures var l := VotedDown();
            && Inv(l)
            && ReclaimPreSponsor(l, 5, 0).Ok?
            && Donate(l, 9, OfProposal(0), 1).Ok?
            && ReclaimPreSponsor(Donate(l, 9, OfProposal(0), 1).value, 5, 0).Err?
  {
    hide Sum, Inv;
    VotedDownHolds();
  }

  // ----- a settlement that cannot pay -----

  const ONE_MODULE: map<nat, ModuleRecord> := map[0 := ModuleRecord(ModuleBase(1, 0, 1, 1, PLAIN_TERMS), 0, 0)]

  const ONE_SPONSORSHIP: map<Id, Funding> := map[(0, 0) := Funding(Deal(2, 0, 0, 1, 0), 1, 0, 0, 0)]

  const ONE_BOOKING: map<Id, Booking> :=
    map[(0, 0) := Booking(0, 2, 3, Some(4), 0, 1, Some(10000), Some(0), false, None, None, 1, 0)]

  /** One booking, scored in full, whose lecturer has delivered this often. */
  ghost function Scored(deliveries: u32): Ledger {
    Ledger(PLAIN_WORLD, I64_MIN, ONE_MODULE, ONE_SPONSORSHIP, ONE_BOOKING, map[4 := Standing(1, 0, deliveries)], map[],
           map[], map[], map[], 0)
  }

  lemma ScoredModules()
    ensures ModulesInv(1, ONE_REGION, ONE_MODULE, ONE_SPONSORSHIP, ONE_BOOKING)
  {
    hide Sum;
    var id: Id := (0, 0);
    SingleSum(ONE_SPONSORSHIP, id, Pledged(0));
    SingleSum(ONE_BOOKING, id, Unclaimed(0));
    SingleSum(ONE_BOOKING, id, InFlight(0));
    var s, b := ONE_SPONSORSHIP[id], ONE_BOOKING[id];
    assert Pledged(0)(id, s) == When(id.0 == 0, s.deal.amount);
    assert Unclaimed(0)(id, b) == When(id.0 == 0 && b.lecturer.None?, 1);
    assert InFlight(0)(id, b) == When(id.0 == 0 && b.lecturer.Some? && !b.settled, 1);
  }

  lemma ScoredSponsorships()
    ensures SponsorshipsInv(1, 1, ONE_ASSET, ONE_MODULE, ONE_SPONSORSHIP, ONE_BOOKING)
  {
    hide Sum, PricePerToken;
    PlainPrice();
    var id: Id := (0, 0);
    SingleSum(ONE_BOOKING, id, UnsettledOn(id));
    var b := ONE_BOOKING[id];
    assert UnsettledOn(id)(id, b) == When(id.0 == id.0 && b.sponsorId == id.1 && !b.settled, 1);
  }

  lemma ScoredHolds(deliveries: u32)
    ensures Inv(Scored(deliveries))
  {
    hide Sum, PricePerToken, ModulesInv, SponsorshipsInv, Inv;
    var l := Scored(deliveries);
    ScoredModules();
    ScoredSponsorships();
    SingleSum(l.modules, 0, ModuleDeposit());
    SingleSum(l.bookings, (0, 0), BookingDeposit());
    SingleSum(l.deliverers, 4, DelivererDeposit());
    SumZero(l.proposals, ProposalStake());
    PlainHolds(l);
  }

  /** At the end of the lecturer's count nobody can ever settle the booking; one delivery before, anyone can. */
  lemma FullCountBlocksSettlement()
    ensures Inv(Scored(U32_MAX)) && Inv(Scored(U32_MAX - 1))
    ensures MayFinalize(Scored(U32_MAX), I64_MAX, 9, Scored(U32_MAX).bookings[(0, 0)])
    ensures forall now: i64, anyone: Key :: FinalizeScore(Scored(U32_MAX), now, anyone, (0, 0)).Err?
    ensures FinalizeScore(Scored(U32_MAX - 1), I64_MAX, 9, (0, 0)).Ok?
  {
    hide Sum, Inv, FinalizeScore;
    ScoredHolds(U32_MAX);
    ScoredHolds(U32_MAX - 1);
    forall now: i64, anyone: Key
      ensures FinalizeScore(Scored(U32_MAX), now, anyone, (0, 0)).Err?
    {
      FinalizeIff(Scored(U32_MAX), now, anyone, (0, 0));
    }
    FinalizeIff(Scored(U32_MAX - 1), I64_MAX, 9, (0, 0));
  }

  // ----- a passing vote that cannot be counted -----

  const LONG_TERM := RegionsState.RegionsConfig(1, 1, I64_MAX, 1, 1, 1)

  /** One region being voted on, with one vote for it, under a term as long as time. */
  ghost function VotedFor(): RegionsLedger.Ledger {
    RegionsLedger.Ledger(
    RegionsState.RegionsWorld(LONG_TERM, 1, 1, {}, map[]), I64_MIN,
    map[], map[1 := RegionsState.RegionState(RegionsState.Proposing, 0, 5, 1, 0)],
    map[0 := RegionsState.RegionProposal(5, 1, 0)], map[(0, 2) := Ballot(Yes, 1, 0, true)], 0)
  }

  lemma VotedForHolds()
    ensures RegionsLedger.Inv(VotedFor())
    ensures VotedFor().Tally(0, Yes) == 1 && VotedFor().Tally(0, No) == 0
  {
    hide Sum;
    var l, k: (nat, Key) := VotedFor(), (0, 2);
    SingleSum(l.states, 1, RegionsLedger.HeldDeposit());
    SumZero(l.regions, RegionsLedger.Collateral());
    SumZero(l.world.xcav, Held());
    SingleSum(l.ballots, k, LockedPower());
    SingleSum(l.ballots, k, CastFor(0, Yes));
    SingleSum(l.ballots, k, CastFor(0, No));
    forall pid
      ensures Sum(l.ballots, CastOn(pid)) <= U64_MAX
    {
      SingleSum(l.ballots, k, CastOn(pid));
      assert CastOn(pid)(k, l.ballots[k]) == When(k.0 == pid, 1);
    }
  }

  /** Everyone who voted was for the region, yet at no time after zero can the vote be counted. */
  lemma LongTermBlocksCounting()
    ensures RegionsLedger.Inv(VotedFor()) && RegionsVotes.Passes(VotedFor(), 0)
    ensures forall now: i64 :: now > 0 ==> RegionsLedger.FinalizeRegion(VotedFor(), now, 1).Err?
  {
    hide Sum, RegionsLedger.Inv, RegionsLedger.FinalizeRegion;
    VotedForHolds();
    forall now: i64 | now > 0
      ensures RegionsLedger.FinalizeRegion(VotedFor(), now, 1).Err?
    {
      RegionsVotes.VoteDecides(VotedFor(), now, 1);
    }
  }
}
