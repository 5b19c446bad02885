/** The accounts of the education program, and the balances it moves. */
module EducationState {
  import opened Machine
  import opened Pricing
  import opened Voting

  datatype Role = RegionalOperator | ModuleCreator | ModuleSponsor | ModuleBooker | ModuleDeliverer | ModuleAIAgent

  datatype Config = Config(
    moduleDeposit: u64, bookingDeposit: u64, delivererDeposit: u64, proposalDeposit: u64,
    terms: Terms, maxModuleTokens: u64, minImpactScore: u16,
    sponsorshipWindow: i64, cancellationWindow: i64, noShowGrace: i64, maxDeliveryWindow: i64, disputeWindow: i64,
    maxCancellations: u32, maxStrikes: u8, strikeSlashBps: u16, deliveriesPerStrikeReduction: u32,
    minimumVotingAmount: u64, votingPeriod: i64, thresholdBps: u16, quorum: u64,
    preSponsorAmount: u64, claimPeriod: i64, uploadPeriod: i64,
    acceptedAssets: set<Key>, protocolAuthority: Key)
  {
    /** The bounds every configuration is checked against before it is applied. */
    predicate Valid() {
      && terms.fees.Total() <= 10000
      && strikeSlashBps <= 10000 && minImpactScore <= 10000 && thresholdBps <= 10000
      && sponsorshipWindow > 0 && cancellationWindow > 0 && noShowGrace > 0 && maxDeliveryWindow > 0
      && votingPeriod > 0 && claimPeriod > 0 && uploadPeriod > 0
      && disputeWindow >= 0
      && terms.price > 0 && maxModuleTokens > 0
      && moduleDeposit > 0 && bookingDeposit > 0 && delivererDeposit > 0 && proposalDeposit > 0
      && strikeSlashBps > 0 && thresholdBps > 0 && quorum > 0 && minimumVotingAmount > 0
      && maxCancellations > 0 && maxStrikes > 0
    }

    /** The deposit one strike costs, and one concurrent claim must be backed by. */
    function SlashPerStrike(): u64
      requires strikeSlashBps <= 10000
    {
      FeeCeilExact(delivererDeposit, strikeSlashBps);
      FeeCeil(delivererDeposit, strikeSlashBps).value
    }
  }

  /** A pair of ids: (module, sponsorship) or (module, booking). */
  type Id = (nat, nat)

  datatype ModuleBase = ModuleBase(creator: Key, region: u16, deposit: u64, total: u64, terms: Terms)

  /** A module as stored: what it is, and its three allocation counters. */
  datatype ModuleAccount = ModuleAccount(
    base: ModuleBase, sponsorAllocation: nat, schoolAllocation: nat, studentAllocation: nat)

  datatype Deal = Deal(sponsor: Key, asset: Key, amount: nat, price: u64, sponsoredAt: i64)

  /** A sponsorship as stored: the deal, and the counter of its bookings. */
  datatype SponsorshipAccount = SponsorshipAccount(deal: Deal, activeBookings: nat)

  datatype Booking = Booking(
    sponsorId: nat, sponsor: Key, school: Key, lecturer: Option<Key>, asset: Key, price: u64,
    score: Option<u16>, scoreAt: Option<i64>, settled: bool,
    disputer: Option<Key>, proposedScore: Option<u16>, deposit: u64, deliveryAt: i64)
  {
    predicate IsParty(k: Key) {
      k == school || lecturer == Some(k)
    }
  }

  datatype Standing = Standing(deposit: nat, strikes: u8, deliveries: u32)

  /** A lecturer's registration as stored: the standing, and the counter of open claims. */
  datatype DelivererAccount = DelivererAccount(standing: Standing, activeClaims: nat)

  datatype Cancellation = Cancellation(moduleId: nat, createdAt: i64)

  /** The stages of a proposal; one whose module is minted is closed in the same step, so that stage is never stored. */
  datatype Status = Voting | Claimable | Claimed | UnderReview | Approved | Rejected

  const MAX_BANNED := 8

  datatype Proposal = Proposal(
    proposer: Key, role: Role, region: u16, status: Status, expiry: i64, deposit: u64,
    amount: u64, terms: Terms,
    claimant: Option<Key>, bond: u64, uploadDeadline: i64, failures: nat, banned: seq<Key>, buildDeadline: i64,
    asset: Key, preAmount: u64, prePrice: u64)

  function ExpiryOf(p: Proposal): i64 {
    p.expiry
  }

  /** A proposal as stored: the proposal, and its running tallies. */
  datatype ProposalAccount = ProposalAccount(core: Proposal, tallies: Tallies)

  /** A payment escrow, by what it was opened for: a sponsorship, a booking, or a proposal's pre-sponsorship. */
  datatype Escrow = OfSponsorship(id: Id) | OfBooking(key: Id) | OfProposal(pid: nat)

  /**
   * What the program shares with others: its configuration, authority and id counters, roles and region owners
   * (kept by other programs), payment mints and which of them carry no extension that breaks escrow accounting,
   * and the token accounts outside its custody.
   */
  datatype World = World(
    config: Config, authority: Key, nextModule: nat, nextSponsor: nat, nextBooking: nat, nextProposal: nat,
    roles: set<(Key, Role)>, regions: map<u16, Key>, decimals: map<Key, u8>, supported: set<Key>,
    xcav: map<Key, nat>, treasury: nat, cash: map<(Key, Key), nat>)
  {
    predicate HasRole(k: Key, r: Role) {
      (k, r) in roles
    }
  }
}
