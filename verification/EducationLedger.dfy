/**
 * The education program as a ledger of records only. It holds no allocation counter, no tally and no
 * escrow or vault balance: each of those is a sum over the records. It also remembers what the accounts
 * forget: tokens burned and delivered, where each sponsorship's money went, votes already unlocked, and what
 * outsiders sent into the vault and the escrows unasked.
 */
module EducationLedger {
  import opened Machine
  import opened Pricing
  import opened Sums
  import opened Wallets
  import opened Voting
  import opened EducationState

  datatype ModuleRecord = ModuleRecord(base: ModuleBase, burned: nat, delivered: nat) {
    function Supply(): int {
      base.total - burned - delivered
    }
  }

  /** A sponsorship with the fate of everything it was funded with. */
  datatype Funding = Funding(deal: Deal, funded: nat, reclaimed: nat, paidOut: nat, refunded: nat) {
    function WithAmount(n: nat): Funding {
      this.(deal := deal.(amount := n))
    }

    function Reclaim(n: nat): Funding
      requires n <= deal.amount
    {
      WithAmount(deal.amount - n).(reclaimed := reclaimed + deal.price * n)
    }

    function Settle(paid: nat, refund: nat): Funding {
      this.(paidOut := paidOut + paid, refunded := refunded + refund)
    }
  }

  /** Units of a payment asset that outsiders sent into an escrow, on top of what its record accounts for. */
  datatype Gift = Gift(asset: Key, amount: nat)

  type Gifts = map<Escrow, Gift>

  function GiftIn(gs: Gifts, e: Escrow): nat {
    if e in gs then gs[e].amount else 0
  }

  datatype Ledger = Ledger(
    world: World, clock: int,
    modules: map<nat, ModuleRecord>, sponsorships: map<Id, Funding>, bookings: map<Id, Booking>,
    deliverers: map<Key, Standing>, cancellations: map<(Key, nat), Cancellation>,
    proposals: map<nat, Proposal>, ballots: map<(nat, Key), Ballot>,
    gifts: Gifts, surplus: nat)
  {
    /** Tokens of a module that still exist. */
    ghost function Supply(mid: nat): int
      requires mid in modules
    {
      modules[mid].Supply()
    }

    ghost function SchoolAllocation(mid: nat): nat {
      Sum(sponsorships, Pledged(mid))
    }

    ghost function StudentAllocation(mid: nat): nat {
      Sum(bookings, Unclaimed(mid))
    }

    /** Tokens nobody has sponsored: the supply less those pledged, booked, or being delivered. */
    ghost function SponsorAllocation(mid: nat): int
      requires mid in modules
    {
      Unsponsored(mid, modules[mid], sponsorships, bookings)
    }

    ghost function ActiveBookings(id: Id): nat {
      Sum(bookings, OnSponsorship(id))
    }

    ghost function ActiveClaims(lecturer: Key): nat {
      Sum(bookings, HeldBy(lecturer))
    }

    ghost function CancellationCount(school: Key): nat {
      Sum(cancellations, CancelledBy(school))
    }

    ghost function Tally(pid: nat, vote: Vote): nat {
      Sum(ballots, CastFor(pid, vote))
    }

    /** Every XCAV stake the vault must be able to return or slash. */
    ghost function VaultOwed(): nat {
      Sum(modules, ModuleDeposit()) + Sum(bookings, BookingDeposit()) + Sum(deliverers, DelivererDeposit())
      + Sum(proposals, ProposalStake()) + Sum(ballots, LockedPower())
    }

    /** All XCAV: in wallets, in the treasury, staked, and in the vault unasked. */
    ghost function XcavTotal(): nat {
      Sum(world.xcav, Held()) + world.treasury + VaultOwed() + surplus
    }

    /** All units of one payment asset: in wallets, and in the three kinds of escrow as owed or as gifts. */
    ghost function CashTotal(asset: Key): nat {
      Sum(world.cash, HeldIn(asset)) + Sum(sponsorships, SponsorEscrowed(asset))
      + Sum(bookings, BookingEscrowed(asset)) + Sum(proposals, PreSponsored(asset)) + Sum(gifts, GiftedIn(asset))
    }

    /** The asset an open escrow holds. */
    ghost function EscrowAsset(e: Escrow): Result<Key> {
      match e
      case OfSponsorship(id) => if id in sponsorships then Ok(sponsorships[id].deal.asset) else Err
      case OfBooking(key) => if key in bookings then Ok(bookings[key].asset) else Err
      case OfProposal(pid) =>
        if pid in proposals && proposals[pid].preAmount > 0 then Ok(proposals[pid].asset) else Err
    }
  }

  ghost function Unsponsored(mid: nat, m: ModuleRecord, ss: map<Id, Funding>, bs: map<Id, Booking>): int {
    m.Supply() - Sum(ss, Pledged(mid)) - Sum(bs, Unclaimed(mid)) - Sum(bs, InFlight(mid))
  }

  // ----- weights -----

  ghost function ModuleDeposit(): (nat, ModuleRecord) -> nat {
    (mid: nat, m: ModuleRecord) => m.base.deposit
  }

  ghost function Pledged(mid: nat): (Id, Funding) -> nat {
    (id: Id, s: Funding) => When(id.0 == mid, s.deal.amount)
  }

  ghost function SponsorEscrowed(asset: Key): (Id, Funding) -> nat {
    (id: Id, s: Funding) => When(s.deal.asset == asset, s.deal.amount * s.deal.price)
  }

  ghost function Unclaimed(mid: nat): (Id, Booking) -> nat {
    (key: Id, b: Booking) => When(key.0 == mid && b.lecturer.None?, 1)
  }

  ghost function InFlight(mid: nat): (Id, Booking) -> nat {
    (key: Id, b: Booking) => When(key.0 == mid && b.lecturer.Some? && !b.settled, 1)
  }

  ghost function OnSponsorship(id: Id): (Id, Booking) -> nat {
    (key: Id, b: Booking) => When(key.0 == id.0 && b.sponsorId == id.1, 1)
  }

  ghost function UnsettledOn(id: Id): (Id, Booking) -> nat {
    (key: Id, b: Booking) => When(key.0 == id.0 && b.sponsorId == id.1 && !b.settled, 1)
  }

  ghost function HeldBy(lecturer: Key): (Id, Booking) -> nat {
    (key: Id, b: Booking) => When(b.lecturer == Some(lecturer) && !b.settled, 1)
  }

  ghost function BookingDeposit(): (Id, Booking) -> nat {
    (key: Id, b: Booking) => b.deposit
  }

  ghost function BookingEscrowed(asset: Key): (Id, Booking) -> nat {
    (key: Id, b: Booking) => When(b.asset == asset && !b.settled, b.price)
  }

  ghost function DelivererDeposit(): (Key, Standing) -> nat {
    (k: Key, s: Standing) => s.deposit
  }

  ghost function CancelledBy(school: Key): ((Key, nat), Cancellation) -> nat {
    (k: (Key, nat), c: Cancellation) => When(k.0 == school, 1)
  }

  /** A proposal stakes its proposer's deposit while it is voted on, and its claimant's bond. */
  ghost function ProposalStake(): (nat, Proposal) -> nat {
    (pid: nat, p: Proposal) => When(p.status.Voting?, p.deposit) + p.bond
  }

  ghost function PreSponsored(asset: Key): (nat, Proposal) -> nat {
    (pid: nat, p: Proposal) => When(p.asset == asset, p.preAmount * p.prePrice)
  }

  ghost function GiftedIn(asset: Key): (Escrow, Gift) -> nat {
    (e: Escrow, g: Gift) => When(g.asset == asset, g.amount)
  }

  // ----- what every reachable ledger satisfies -----

  ghost predicate ModulesInv(next: nat, regions: map<u16, Key>,
                             ms: map<nat, ModuleRecord>, ss: map<Id, Funding>, bs: map<Id, Booking>)
  {
    forall mid :: mid in ms ==>
      mid < next && ms[mid].base.region in regions && Unsponsored(mid, ms[mid], ss, bs) >= 0
  }

  /** Where a sponsorship's money is: in escrow, in the escrows of its bookings, returned, or paid. */
  ghost predicate FundingBalances(s: Funding, unsettled: nat) {
    s.funded == s.deal.price * (s.deal.amount + unsettled) + s.reclaimed + s.paidOut + s.refunded
  }

  /** The price paid per token is the one the module's terms quote, for as long as the module exists. */
  ghost predicate PricedByTerms(ms: map<nat, ModuleRecord>, decimals: map<Key, u8>, mid: nat, d: Deal) {
    && d.asset in decimals
    && (mid in ms ==> PricePerToken(ms[mid].base.terms, decimals[d.asset]) == Ok(d.price))
  }

  ghost predicate SponsorshipOk(nextModule: nat, nextSponsor: nat, decimals: map<Key, u8>,
                                ms: map<nat, ModuleRecord>, bs: map<Id, Booking>, id: Id, s: Funding)
  {
    && id.0 < nextModule && id.1 < nextSponsor
    && (s.deal.amount > 0 ==> id.0 in ms)
    && PricedByTerms(ms, decimals, id.0, s.deal)
    && s.funded <= U64_MAX
    && FundingBalances(s, Sum(bs, UnsettledOn(id)))
  }

  ghost predicate SponsorshipsInv(nextModule: nat, nextSponsor: nat, decimals: map<Key, u8>,
                                  ms: map<nat, ModuleRecord>, ss: map<Id, Funding>, bs: map<Id, Booking>)
  {
    forall id :: id in ss ==> SponsorshipOk(nextModule, nextSponsor, decimals, ms, bs, id, ss[id])
  }

  /** How far a booking's scoring can be: each stage presupposes the ones before it. */
  predicate BookingShape(b: Booking) {
    && b.lecturer != Some(b.school)
    && (b.score.Some? <==> b.scoreAt.Some?)
    && (b.score.Some? ==> b.lecturer.Some? && b.score.value <= 10000)
    && (b.settled ==> b.score.Some?)
    && (b.disputer.Some? ==> b.score.Some? && b.IsParty(b.disputer.value))
    && (b.proposedScore.Some? ==> b.disputer.Some? && b.proposedScore.value <= 10000 && !b.settled)
  }

  /** A booking draws on a live sponsorship at its price; until it settles its module and lecturer are there. */
  ghost predicate BookingOk(next: nat, ms: map<nat, ModuleRecord>, ss: map<Id, Funding>, ds: map<Key, Standing>,
                            key: Id, b: Booking)
  {
    && BookingShape(b)
    && key.1 < next
    && (key.0, b.sponsorId) in ss
    && (var d := ss[(key.0, b.sponsorId)].deal; d.sponsor == b.sponsor && d.asset == b.asset && d.price == b.price)
    && (!b.settled ==> key.0 in ms)
    && (!b.settled && b.lecturer.Some? ==> b.lecturer.value in ds)
  }

  ghost predicate BookingsInv(next: nat, ms: map<nat, ModuleRecord>, ss: map<Id, Funding>, bs: map<Id, Booking>,
                              ds: map<Key, Standing>)
  {
    && (forall key :: key in bs ==> BookingOk(next, ms, ss, ds, key, bs[key]))
    && (forall j, k :: j in bs && k in bs && j.1 == k.1 ==> j == k)
  }

  /** A cancelled booking is gone for good. */
  ghost predicate CancellationsInv(next: nat, bs: map<Id, Booking>, cs: map<(Key, nat), Cancellation>) {
    forall c :: c in cs ==> c.1 < next && forall key :: key in bs ==> key.1 != c.1
  }

  /** The shape of a proposal at each stage of its life. */
  predicate ProposalShape(p: Proposal) {
    && |p.banned| <= MAX_BANNED
    && (forall i, j :: 0 <= i < j < |p.banned| ==> p.banned[i] != p.banned[j])
    && p.failures <= 1
    && (p.status in {Voting, Claimable, Rejected} ==> p.claimant.None? && p.bond == 0 && p.uploadDeadline == 0)
    && (p.status in {Claimed, UnderReview, Approved} ==> p.claimant.Some? && p.claimant.value !in p.banned)
    && (p.status == UnderReview || p.status == Approved ==> p.uploadDeadline == 0)
    && (p.status == Voting ==> p.banned == [] && p.failures == 0)
    && (p.role == ModuleCreator ==>
          && (p.claimant.Some? ==> p.claimant.value == p.proposer)
          && (forall k :: k in p.banned ==> k == p.proposer))
    && p.preAmount <= p.amount
    && p.preAmount * p.prePrice <= U64_MAX
  }

  ghost predicate ProposalOk(next: nat, regions: map<u16, Key>, decimals: map<Key, u8>, pid: nat, p: Proposal) {
    && pid < next
    && p.region in regions
    && ProposalShape(p)
    && (p.preAmount > 0 ==> p.asset in decimals && PricePerToken(p.terms, decimals[p.asset]) == Ok(p.prePrice))
  }

  ghost predicate ProposalsInv(next: nat, regions: map<u16, Key>, decimals: map<Key, u8>, ps: map<nat, Proposal>) {
    forall pid :: pid in ps ==> ProposalOk(next, regions, decimals, pid, ps[pid])
  }

  /** A gift is in the asset of its escrow, and it outlasts every record but a pre-sponsored proposal. */
  ghost predicate GiftsInv(nextSponsor: nat, nextBooking: nat, ss: map<Id, Funding>, bs: map<Id, Booking>,
                           ps: map<nat, Proposal>, gs: Gifts)
  {
    forall e :: e in gs ==>
      && gs[e].amount > 0
      && match e
         case OfSponsorship(id) => id.1 < nextSponsor && (id in ss ==> ss[id].deal.asset == gs[e].asset)
         case OfBooking(key) => key.1 < nextBooking && (key in bs ==> bs[key].asset == gs[e].asset)
         case OfProposal(pid) => pid in ps && ps[pid].preAmount > 0 && ps[pid].asset == gs[e].asset
  }

  ghost predicate Inv(l: Ledger) {
    && l.world.config.Valid()
    && ModulesInv(l.world.nextModule, l.world.regions, l.modules, l.sponsorships, l.bookings)
    && SponsorshipsInv(l.world.nextModule, l.world.nextSponsor, l.world.decimals, l.modules, l.sponsorships, l.bookings)
    && BookingsInv(l.world.nextBooking, l.modules, l.sponsorships, l.bookings, l.deliverers)
    && CancellationsInv(l.world.nextBooking, l.bookings, l.cancellations)
    && ProposalsInv(l.world.nextProposal, l.world.regions, l.world.decimals, l.proposals)
    && BallotsInv(l.world.nextProposal, l.clock, l.proposals, ExpiryOf, l.ballots)
    && GiftsInv(l.world.nextSponsor, l.world.nextBooking, l.sponsorships, l.bookings, l.proposals, l.gifts)
    && l.XcavTotal() <= U64_MAX
  }

  /** A step keeps the invariant and neither makes nor loses a token of any kind. */
  ghost predicate Keeps(l: Ledger, l': Ledger) {
    && Inv(l')
    && l'.XcavTotal() == l.XcavTotal()
    && forall asset :: l'.CashTotal(asset) == l.CashTotal(asset)
  }
}
