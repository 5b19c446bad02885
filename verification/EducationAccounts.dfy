/** What the stored accounts must hold for the records of the ledger: every counter and balance is the right sum. */
module EducationAccounts {
  import opened Machine
  import opened Pricing
  import opened Sums
  import opened Wallets
  import opened Voting
  import opened EducationState
  import opened EducationLedger
  import opened LedgerSums
  import opened RecordProofs
  import opened DeliverySteps
  import opened DeliveryProofs
  ghost predicate ModuleMatches(a: ModuleAccount, supply: nat, mid: nat, m: ModuleRecord, ss: Fundings, bs: Bookings) {
    && a.base == m.base
    && a.sponsorAllocation == Unsponsored(mid, m, ss, bs)
    && a.schoolAllocation == Sum(ss, Pledged(mid))
    && a.studentAllocation == Sum(bs, Unclaimed(mid))
    && supply == m.Supply()
  }

  ghost predicate ModulesMatch(accounts: map<nat, ModuleAccount>, vaults: map<nat, nat>, ms: Modules, ss: Fundings,
                               bs: Bookings) {
    && accounts.Keys == ms.Keys && vaults.Keys == ms.Keys
    && forall mid :: mid in ms ==> ModuleMatches(accounts[mid], vaults[mid], mid, ms[mid], ss, bs)
  }

  /** What an escrow owes to a sponsorship's tokens that are not booked, or to a booking that is not settled. */
  function Pledge(s: Funding): nat {
    s.deal.amount * s.deal.price
  }

  function Unpaid(b: Booking): nat {
    if b.settled then 0 else b.price
  }

  ghost predicate SponsorshipsMatch(accounts: map<Id, SponsorshipAccount>, ss: Fundings, bs: Bookings) {
    && accounts.Keys == ss.Keys
    && forall id :: id in ss ==> accounts[id] == SponsorshipAccount(ss[id].deal, Sum(bs, OnSponsorship(id)))
  }

  /** An escrow holds what its record owes and what it was given; one that was given something outlasts the record. */
  ghost predicate SponsorEscrowsMatch(escrows: map<Id, nat>, ss: Fundings, gs: Gifts) {
    && (forall id :: id in escrows <==> id in ss || OfSponsorship(id) in gs)
    && (forall id :: id in escrows ==>
          escrows[id] == (if id in ss then Pledge(ss[id]) else 0) + GiftIn(gs, OfSponsorship(id)))
  }

  ghost predicate BookingEscrowsMatch(escrows: map<Id, nat>, bs: Bookings, gs: Gifts) {
    && (forall key :: key in escrows <==> key in bs || OfBooking(key) in gs)
    && (forall key :: key in escrows ==>
          escrows[key] == (if key in bs then Unpaid(bs[key]) else 0) + GiftIn(gs, OfBooking(key)))
  }

  ghost predicate DeliverersMatch(accounts: map<Key, DelivererAccount>, ds: Standings, bs: Bookings) {
    && accounts.Keys == ds.Keys
    && forall k :: k in ds ==> accounts[k] == DelivererAccount(ds[k], Sum(bs, HeldBy(k)))
  }

  ghost predicate CountersMatch(counters: map<Key, nat>, cs: map<(Key, nat), Cancellation>) {
    forall school :: Balance(counters, school) == Sum(cs, CancelledBy(school))
  }

  ghost predicate ProposalMatches(a: ProposalAccount, pid: nat, p: Proposal, ballots: map<(nat, Key), Ballot>) {
    a.core == p && TalliesMatch(a.tallies, pid, ballots)
  }

  ghost predicate ProposalsMatch(accounts: map<nat, ProposalAccount>, ps: map<nat, Proposal>, ballots: Ballots) {
    && accounts.Keys == ps.Keys
    && forall pid :: pid in ps ==> ProposalMatches(accounts[pid], pid, ps[pid], ballots)
  }

  /** A proposal has an escrow exactly when it was opened with a pre-sponsorship. */
  ghost predicate PreSponsorsMatch(escrows: map<nat, nat>, ps: map<nat, Proposal>, gs: Gifts) {
    && (forall pid :: pid in escrows <==> pid in ps && ps[pid].preAmount > 0)
    && (forall pid :: pid in escrows ==>
          escrows[pid] == ps[pid].preAmount * ps[pid].prePrice + GiftIn(gs, OfProposal(pid)))
  }

  type ModuleAccounts = map<nat, ModuleAccount>
  type SponsorshipAccounts = map<Id, SponsorshipAccount>
  type DelivererAccounts = map<Key, DelivererAccount>
  type ProposalAccounts = map<nat, ProposalAccount>
  type Escrows = map<Id, nat>

  /** Every account of the program, keyed by the ids its address is derived from; escrows and vaults hold balances. */
  datatype Accounts = Accounts(
    vault: nat,
    modules: ModuleAccounts, moduleVaults: map<nat, nat>,
    sponsorships: SponsorshipAccounts, sponsorEscrows: Escrows,
    bookings: Bookings, bookingEscrows: Escrows,
    deliverers: DelivererAccounts, counters: map<Key, nat>, cancellations: map<(Key, nat), Cancellation>,
    proposals: ProposalAccounts, proposalEscrows: map<nat, nat>, votes: map<(nat, Key), VoteRecord>)

  /** The accounts store exactly what the ledger says: its records, and the right number in each counter and balance. */
  ghost predicate Stored(w: World, a: Accounts, l: Ledger) {
    && Inv(l)
    && w == l.world && a.bookings == l.bookings && a.cancellations == l.cancellations
    && ModulesMatch(a.modules, a.moduleVaults, l.modules, l.sponsorships, l.bookings)
    && SponsorshipsMatch(a.sponsorships, l.sponsorships, l.bookings)
    && SponsorEscrowsMatch(a.sponsorEscrows, l.sponsorships, l.gifts)
    && BookingEscrowsMatch(a.bookingEscrows, l.bookings, l.gifts)
    && DeliverersMatch(a.deliverers, l.deliverers, l.bookings)
    && CountersMatch(a.counters, l.cancellations)
    && ProposalsMatch(a.proposals, l.proposals, l.ballots)
    && PreSponsorsMatch(a.proposalEscrows, l.proposals, l.gifts)
    && VotesMatch(a.votes, l.ballots)
    && a.vault == l.VaultOwed() + l.surplus
  }

  lemma StoredInv(w: World, a: Accounts, l: Ledger)
    requires Stored(w, a, l)
    ensures Inv(l)
  {
    hide Inv, Ledger.VaultOwed, ModulesMatch, SponsorshipsMatch, SponsorEscrowsMatch, BookingEscrowsMatch,
         DeliverersMatch, CountersMatch, ProposalsMatch, PreSponsorsMatch, VotesMatch;
  }

  /** The balances the accounts hold, account by account. */
  lemma BalancesStored(w: World, a: Accounts, l: Ledger)
    requires Stored(w, a, l)
    ensures a.vault == l.VaultOwed() + l.surplus
    ensures forall id :: id in a.sponsorships ==>
              && id in a.sponsorEscrows
              && var d := a.sponsorships[id].deal;
                a.sponsorEscrows[id] == d.amount * d.price + GiftIn(l.gifts, OfSponsorship(id))
    ensures forall key :: key in a.bookings ==>
              && key in a.bookingEscrows
              && var b := a.bookings[key];
                a.bookingEscrows[key] == (if b.settled then 0 else b.price) + GiftIn(l.gifts, OfBooking(key))
    ensures forall pid :: pid in a.proposals ==>
              var q := a.proposals[pid].core;
              q.preAmount > 0 ==>
                && pid in a.proposalEscrows
                && a.proposalEscrows[pid] == q.preAmount * q.prePrice + GiftIn(l.gifts, OfProposal(pid))
  {
    hide Sum, Inv, Ledger.VaultOwed, GiftIn, ModulesMatch, DeliverersMatch, CountersMatch, VotesMatch;
  }

  // ----- the vault covers every stake -----

  lemma ModuleStaked(l: Ledger, mid: nat)
    ensures mid in l.modules ==> l.modules[mid].base.deposit <= l.VaultOwed()
  {
    hide Sum;
    if mid in l.modules {
      DropModule(l.modules, mid);
    }
  }

  lemma BookingStaked(l: Ledger, key: Id)
    ensures key in l.bookings ==> l.bookings[key].deposit <= l.VaultOwed()
  {
    hide Sum;
    if key in l.bookings {
      BookingCounted(l.bookings, key);
    }
  }

  lemma DelivererStaked(l: Ledger, k: Key)
    ensures k in l.deliverers ==> l.deliverers[k].deposit <= l.VaultOwed()
  {
    hide Sum;
    if k in l.deliverers {
      DropStanding(l.deliverers, k);
    }
  }

  lemma DepositFits(l: Ledger, k: Key)
    requires Inv(l)
    ensures k in l.deliverers ==> l.deliverers[k].deposit <= U64_MAX
  {
    hide Sum, ModulesInv, SponsorshipsInv, BookingsInv, CancellationsInv, ProposalsInv, BallotsInv, GiftsInv;
    DelivererStaked(l, k);
  }

  lemma ProposalStaked(l: Ledger, pid: nat)
    ensures pid in l.proposals ==> StakeOf(l.proposals[pid]) <= l.VaultOwed()
  {
    hide Sum;
    if pid in l.proposals {
      DropProposal(l.proposals, pid);
    }
  }

  lemma BallotStaked(l: Ledger, k: (nat, Key))
    ensures k in l.ballots && l.ballots[k].locked ==> l.ballots[k].power <= l.VaultOwed()
  {
    hide Sum;
    if k in l.ballots {
      SumDrop(l.ballots, k);
    }
  }

  // ----- reading one account -----

  lemma ModuleStored(accounts: ModuleAccounts, vaults: map<nat, nat>, ms: Modules, ss: Fundings, bs: Bookings, mid: nat)
    requires ModulesMatch(accounts, vaults, ms, ss, bs)
    ensures (mid in accounts <==> mid in ms) && (mid in vaults <==> mid in ms)
    ensures mid in ms ==>
              var a := accounts[mid];
              && ModuleMatches(a, vaults[mid], mid, ms[mid], ss, bs)
              && a.sponsorAllocation + a.schoolAllocation + a.studentAllocation + Sum(bs, InFlight(mid)) == vaults[mid]
              && vaults[mid] <= ms[mid].base.total
  {
    hide Sum;
  }

  lemma SponsorshipStored(accounts: SponsorshipAccounts, ss: Fundings, bs: Bookings, id: Id)
    requires SponsorshipsMatch(accounts, ss, bs)
    ensures id in accounts <==> id in ss
    ensures id in ss ==> accounts[id] == SponsorshipAccount(ss[id].deal, Sum(bs, OnSponsorship(id)))
  {
    hide Sum;
  }

  lemma SponsorEscrowStored(escrows: Escrows, ss: Fundings, gs: Gifts, id: Id)
    requires SponsorEscrowsMatch(escrows, ss, gs)
    ensures id in ss ==> id in escrows && escrows[id] == Pledge(ss[id]) + GiftIn(gs, OfSponsorship(id))
  {
  }

  lemma BookingEscrowStored(escrows: Escrows, bs: Bookings, gs: Gifts, key: Id)
    requires BookingEscrowsMatch(escrows, bs, gs)
    ensures key in bs ==> key in escrows && escrows[key] == Unpaid(bs[key]) + GiftIn(gs, OfBooking(key))
  {
  }

  lemma DelivererStored(accounts: DelivererAccounts, ds: Standings, bs: Bookings, k: Key)
    requires DeliverersMatch(accounts, ds, bs)
    ensures k in accounts <==> k in ds
    ensures k in ds ==> accounts[k] == DelivererAccount(ds[k], Sum(bs, HeldBy(k)))
  {
    hide Sum;
  }

  lemma CounterStored(counters: map<Key, nat>, cs: map<(Key, nat), Cancellation>, school: Key)
    requires CountersMatch(counters, cs)
    ensures Balance(counters, school) == Sum(cs, CancelledBy(school))
  {
    hide Sum;
  }

  lemma ProposalStored(accounts: ProposalAccounts, ps: map<nat, Proposal>, ballots: Ballots, pid: nat)
    requires ProposalsMatch(accounts, ps, ballots)
    ensures pid in accounts <==> pid in ps
    ensures pid in ps ==> ProposalMatches(accounts[pid], pid, ps[pid], ballots)
  {
    hide Sum, ProposalMatches;
  }

  lemma CoreStored(accounts: ProposalAccounts, ps: map<nat, Proposal>, ballots: Ballots, pid: nat)
    requires ProposalsMatch(accounts, ps, ballots)
    ensures pid in accounts <==> pid in ps
    ensures pid in ps ==> accounts[pid].core == ps[pid]
  {
    hide Sum;
  }

  lemma PreSponsorStored(escrows: map<nat, nat>, ps: map<nat, Proposal>, gs: Gifts, pid: nat)
    requires PreSponsorsMatch(escrows, ps, gs)
    ensures pid in escrows <==> pid in ps && ps[pid].preAmount > 0
    ensures pid in escrows ==> escrows[pid] == ps[pid].preAmount * ps[pid].prePrice + GiftIn(gs, OfProposal(pid))
  {
  }

  /** Every counter a booking takes part in counts it, and the stakes include its deposit. */
  lemma BookingCounted(bs: Bookings, key: Id)
    requires key in bs
    ensures var b := bs[key];
            && Sum(bs, OnSponsorship((key.0, b.sponsorId))) >= 1
            && (b.lecturer.None? ==> Sum(bs, Unclaimed(key.0)) >= 1)
            && (b.lecturer.Some? && !b.settled ==>
                  Sum(bs, InFlight(key.0)) >= 1 && Sum(bs, HeldBy(b.lecturer.value)) >= 1)
            && Sum(bs, BookingDeposit()) >= b.deposit
  {
    hide Sum;
    DropBooking(bs, key);
  }

  // ----- escrows -----

  /** What becomes of an escrow once it has paid: closed if that emptied it, left behind if a gift remains. */
  function PaidOff(escrows: Escrows, k: Id, left: nat): Escrows {
    if left == 0 then escrows - {k} else escrows[k := left]
  }

  lemma PutEscrow(escrows: Escrows, bs: Bookings, gs: Gifts, key: Id, b: Booking)
    requires BookingEscrowsMatch(escrows, bs, gs)
    ensures BookingEscrowsMatch(escrows[key := Unpaid(b) + GiftIn(gs, OfBooking(key))], bs[key := b], gs)
  {
  }

  /** A booking rewritten at the same price keeps its escrow as it is. */
  lemma SameEscrow(escrows: Escrows, bs: Bookings, gs: Gifts, key: Id, b: Booking)
    requires BookingEscrowsMatch(escrows, bs, gs)
    requires key in bs && !bs[key].settled && !b.settled && b.price == bs[key].price
    ensures BookingEscrowsMatch(escrows, bs[key := b], gs)
  {
  }

  lemma DropEscrow(escrows: Escrows, bs: Bookings, gs: Gifts, key: Id)
    requires BookingEscrowsMatch(escrows, bs, gs) && GiftsArePositive(gs)
    ensures BookingEscrowsMatch(PaidOff(escrows, key, GiftIn(gs, OfBooking(key))), bs - {key}, gs)
  {
  }

  lemma PutSponsorEscrow(escrows: Escrows, ss: Fundings, gs: Gifts, id: Id, s: Funding)
    requires SponsorEscrowsMatch(escrows, ss, gs)
    ensures SponsorEscrowsMatch(escrows[id := Pledge(s) + GiftIn(gs, OfSponsorship(id))], ss[id := s], gs)
  {
  }

  /** A sponsorship whose deal stays the same keeps its escrow as it is. */
  lemma SameSponsorEscrow(escrows: Escrows, ss: Fundings, gs: Gifts, id: Id, s: Funding)
    requires SponsorEscrowsMatch(escrows, ss, gs) && id in ss && s.deal == ss[id].deal
    ensures SponsorEscrowsMatch(escrows, ss[id := s], gs)
  {
  }

  lemma DropSponsorEscrow(escrows: Escrows, ss: Fundings, gs: Gifts, id: Id)
    requires SponsorEscrowsMatch(escrows, ss, gs) && GiftsArePositive(gs)
    ensures SponsorEscrowsMatch(PaidOff(escrows, id, GiftIn(gs, OfSponsorship(id))), ss - {id}, gs)
  {
  }

  lemma OneLess(n: nat, price: nat)
    requires n > 0
    ensures n * price == (n - 1) * price + price >= price
  {
  }

  /** One token's payment leaves the sponsor's escrow, or comes back to it. */
  lemma SpendEscrow(escrows: Escrows, ss: Fundings, gs: Gifts, id: Id)
    requires SponsorEscrowsMatch(escrows, ss, gs) && id in ss && ss[id].deal.amount > 0
    ensures id in escrows && escrows[id] >= ss[id].deal.price
    ensures SponsorEscrowsMatch(escrows[id := escrows[id] - ss[id].deal.price],
                                ss[id := ss[id].WithAmount(ss[id].deal.amount - 1)], gs)
  {
    var s := ss[id];
    OneLess(s.deal.amount, s.deal.price);
    SponsorEscrowStored(escrows, ss, gs, id);
    PutSponsorEscrow(escrows, ss, gs, id, s.WithAmount(s.deal.amount - 1));
  }

  lemma RestoreEscrow(escrows: Escrows, ss: Fundings, gs: Gifts, id: Id)
    requires SponsorEscrowsMatch(escrows, ss, gs) && id in ss
    ensures id in escrows
    ensures SponsorEscrowsMatch(escrows[id := escrows[id] + ss[id].deal.price],
                                ss[id := ss[id].WithAmount(ss[id].deal.amount + 1)], gs)
  {
    var s := ss[id];
    OneLess(s.deal.amount + 1, s.deal.price);
    SponsorEscrowStored(escrows, ss, gs, id);
    PutSponsorEscrow(escrows, ss, gs, id, s.WithAmount(s.deal.amount + 1));
  }

  lemma ReclaimEscrow(escrows: Escrows, ss: Fundings, gs: Gifts, id: Id, n: nat)
    requires SponsorEscrowsMatch(escrows, ss, gs) && id in ss && n <= ss[id].deal.amount
    ensures id in escrows && escrows[id] >= ss[id].deal.price * n
    ensures SponsorEscrowsMatch(escrows[id := escrows[id] - ss[id].deal.price * n], ss[id := ss[id].Reclaim(n)], gs)
  {
    var s := ss[id];
    assert s.deal.amount * s.deal.price == (s.deal.amount - n) * s.deal.price + s.deal.price * n;
    SponsorEscrowStored(escrows, ss, gs, id);
    PutSponsorEscrow(escrows, ss, gs, id, s.Reclaim(n));
  }

  // A gift only adds to the balance of the escrow it was sent to.

  lemma GiftToSponsorship(escrows: Escrows, ss: Fundings, gs: Gifts, id: Id, g: Gift, n: nat)
    requires SponsorEscrowsMatch(escrows, ss, gs) && id in ss && g.amount == GiftIn(gs, OfSponsorship(id)) + n
    ensures id in escrows && SponsorEscrowsMatch(escrows[id := escrows[id] + n], ss, gs[OfSponsorship(id) := g])
  {
  }

  lemma GiftToBooking(escrows: Escrows, bs: Bookings, gs: Gifts, key: Id, g: Gift, n: nat)
    requires BookingEscrowsMatch(escrows, bs, gs) && key in bs && g.amount == GiftIn(gs, OfBooking(key)) + n
    ensures key in escrows && BookingEscrowsMatch(escrows[key := escrows[key] + n], bs, gs[OfBooking(key) := g])
  {
  }

  lemma GiftToProposal(escrows: map<nat, nat>, ps: map<nat, Proposal>, gs: Gifts, pid: nat, g: Gift, n: nat)
    requires PreSponsorsMatch(escrows, ps, gs) && pid in ps && ps[pid].preAmount > 0
    requires g.amount == GiftIn(gs, OfProposal(pid)) + n
    ensures pid in escrows && PreSponsorsMatch(escrows[pid := escrows[pid] + n], ps, gs[OfProposal(pid) := g])
  {
  }

  lemma GiftElsewhere(a: Accounts, l: Ledger, e: Escrow, g: Gift)
    requires SponsorEscrowsMatch(a.sponsorEscrows, l.sponsorships, l.gifts)
    requires BookingEscrowsMatch(a.bookingEscrows, l.bookings, l.gifts)
    requires PreSponsorsMatch(a.proposalEscrows, l.proposals, l.gifts)
    ensures e.OfSponsorship? || SponsorEscrowsMatch(a.sponsorEscrows, l.sponsorships, l.gifts[e := g])
    ensures e.OfBooking? || BookingEscrowsMatch(a.bookingEscrows, l.bookings, l.gifts[e := g])
    ensures e.OfProposal? || PreSponsorsMatch(a.proposalEscrows, l.proposals, l.gifts[e := g])
  {
  }

  // ----- a token is booked -----

  lemma OpenModulesMatch(accounts: ModuleAccounts, vaults: map<nat, nat>, ms: Modules, ss: Fundings, bs: Bookings,
                         id: Id, key: Id, b: Booking)
    requires ModulesMatch(accounts, vaults, ms, ss, bs)
    requires id in ss && ss[id].deal.amount > 0 && key !in bs && key.0 == id.0 && b.lecturer.None? && id.0 in ms
    ensures accounts[id.0].schoolAllocation >= 1
    ensures ModulesMatch(accounts[id.0 := accounts[id.0].(schoolAllocation := accounts[id.0].schoolAllocation - 1,
                                                         studentAllocation := accounts[id.0].studentAllocation + 1)],
                         vaults, ms, ss[id := ss[id].WithAmount(ss[id].deal.amount - 1)], bs[key := b])
  {
    hide Sum;
    PutFunding(ss, id, ss[id].WithAmount(ss[id].deal.amount - 1));
    AddBooking(bs, key, b);
  }

  lemma OpenSponsorshipsMatch(accounts: SponsorshipAccounts, ss: Fundings, bs: Bookings, id: Id, key: Id, b: Booking)
    requires SponsorshipsMatch(accounts, ss, bs)
    requires id in ss && ss[id].deal.amount > 0 && key !in bs && (key.0, b.sponsorId) == id
    ensures var s := ss[id].WithAmount(ss[id].deal.amount - 1);
            SponsorshipsMatch(accounts[id := SponsorshipAccount(s.deal, accounts[id].activeBookings + 1)],
                              ss[id := s], bs[key := b])
  {
    hide Sum;
    AddBooking(bs, key, b);
  }

  lemma OpenDeliverersMatch(accounts: DelivererAccounts, ds: Standings, bs: Bookings, key: Id, b: Booking)
    requires DeliverersMatch(accounts, ds, bs) && key !in bs && b.lecturer.None?
    ensures DeliverersMatch(accounts, ds, bs[key := b])
  {
    hide Sum;
    AddBooking(bs, key, b);
  }

  // ----- an unsettled booking is unwound -----

  lemma UnbookModulesMatch(accounts: ModuleAccounts, vaults: map<nat, nat>, ms: Modules, ss: Fundings, bs: Bookings,
                           id: Id, key: Id)
    requires ModulesMatch(accounts, vaults, ms, ss, bs)
    requires key in bs && !bs[key].settled && id in ss && id == (key.0, bs[key].sponsorId) && key.0 in ms
    ensures bs[key].lecturer.None? ==> accounts[key.0].studentAllocation >= 1
    ensures var a := accounts[key.0];
            var student := a.studentAllocation - When(bs[key].lecturer.None?, 1);
            ModulesMatch(accounts[key.0 := a.(schoolAllocation := a.schoolAllocation + 1,
                                              studentAllocation := student)],
                         vaults, ms, ss[id := ss[id].WithAmount(ss[id].deal.amount + 1)], bs - {key})
  {
    hide Sum;
    PutFunding(ss, id, ss[id].WithAmount(ss[id].deal.amount + 1));
    DropBooking(bs, key);
  }

  lemma UnbookSponsorshipsMatch(accounts: SponsorshipAccounts, ss: Fundings, bs: Bookings, id: Id, key: Id)
    requires SponsorshipsMatch(accounts, ss, bs)
    requires key in bs && id in ss && id == (key.0, bs[key].sponsorId)
    ensures accounts[id].activeBookings >= 1
    ensures var s := ss[id].WithAmount(ss[id].deal.amount + 1);
            SponsorshipsMatch(accounts[id := SponsorshipAccount(s.deal, accounts[id].activeBookings - 1)],
                              ss[id := s], bs - {key})
  {
    hide Sum;
    DropBooking(bs, key);
  }

  /** A returned token fits back: its module never had more tokens than a u64. */
  lemma UnbookFits(accounts: ModuleAccounts, vaults: map<nat, nat>, ms: Modules, ss: Fundings, bs: Bookings, id: Id,
                   key: Id)
    requires ModulesMatch(accounts, vaults, ms, ss, bs)
    requires key in bs && !bs[key].settled && id in ss && id.0 == key.0 && key.0 in ms
    ensures ss[id].deal.amount + 1 <= accounts[key.0].schoolAllocation + 1 <= U64_MAX
  {
    hide Sum;
    BookingCounted(bs, key);
    DropFunding(ss, id);
    ModuleStored(accounts, vaults, ms, ss, bs, key.0);
  }

  /** Closing a booking frees a claim exactly when a lecturer still holds one on it. */
  lemma CloseDeliverersMatch(accounts: DelivererAccounts, ds: Standings, bs: Bookings, key: Id)
    requires DeliverersMatch(accounts, ds, bs) && key in bs
    ensures bs[key].lecturer.None? || bs[key].settled ==> DeliverersMatch(accounts, ds, bs - {key})
    ensures bs[key].lecturer.Some? && !bs[key].settled && bs[key].lecturer.value in ds ==>
              var k := bs[key].lecturer.value;
              && accounts[k].activeClaims >= 1
              && DeliverersMatch(accounts[k := DelivererAccount(ds[k], accounts[k].activeClaims - 1)], ds, bs - {key})
  {
    hide Sum;
    DropBooking(bs, key);
  }

  /** What unwinding a booking leaves in the accounts: its token and payment are back, its claim and deposit free. */
  ghost predicate Unwound(a: Accounts, a': Accounts, l: Ledger, key: Id)
    requires Unwindable(l, key)
  {
    var l' := Unbook(l, key);
    && a' == a.(vault := a'.vault, modules := a'.modules, sponsorships := a'.sponsorships,
                sponsorEscrows := a'.sponsorEscrows,
                bookings := l'.bookings, bookingEscrows := a'.bookingEscrows, deliverers := a'.deliverers)
    && a'.vault + l.bookings[key].deposit == a.vault
    && ModulesMatch(a'.modules, a'.moduleVaults, l'.modules, l'.sponsorships, l'.bookings)
    && SponsorshipsMatch(a'.sponsorships, l'.sponsorships, l'.bookings)
    && SponsorEscrowsMatch(a'.sponsorEscrows, l'.sponsorships, l'.gifts)
    && BookingEscrowsMatch(a'.bookingEscrows, l'.bookings, l'.gifts)
    && DeliverersMatch(a'.deliverers, l'.deliverers, l'.bookings)
  }

  // ----- an unsettled booking is rewritten in place -----

  /** A token in flight fits back into the student allocation. */
  lemma ClaimFits(accounts: ModuleAccounts, vaults: map<nat, nat>, ms: Modules, ss: Fundings, bs: Bookings, key: Id)
    requires ModulesMatch(accounts, vaults, ms, ss, bs)
    requires key in bs && bs[key].lecturer.Some? && !bs[key].settled && key.0 in ms
    ensures accounts[key.0].studentAllocation + 1 <= U64_MAX
  {
    hide Sum;
    BookingCounted(bs, key);
    ModuleStored(accounts, vaults, ms, ss, bs, key.0);
  }

  lemma TouchModulesMatch(accounts: ModuleAccounts, vaults: map<nat, nat>, ms: Modules, ss: Fundings, bs: Bookings,
                          key: Id, b: Booking, student: nat)
    requires ModulesMatch(accounts, vaults, ms, ss, bs)
    requires key in bs && !bs[key].settled && !b.settled && key.0 in ms
    requires student + When(bs[key].lecturer.None?, 1) == accounts[key.0].studentAllocation + When(b.lecturer.None?, 1)
    ensures ModulesMatch(accounts[key.0 := accounts[key.0].(studentAllocation := student)], vaults, ms, ss,
                         bs[key := b])
  {
    hide Sum;
    PutBooking(bs, key, b);
  }

  lemma TouchSponsorshipsMatch(accounts: SponsorshipAccounts, ss: Fundings, bs: Bookings, key: Id, b: Booking)
    requires SponsorshipsMatch(accounts, ss, bs)
    requires key in bs && b.sponsorId == bs[key].sponsorId
    ensures SponsorshipsMatch(accounts, ss, bs[key := b])
  {
    hide Sum;
    PutBooking(bs, key, b);
  }

  lemma TouchDeliverersMatch(accounts: DelivererAccounts, ds: Standings, bs: Bookings, key: Id, b: Booking)
    requires DeliverersMatch(accounts, ds, bs)
    requires key in bs && b.lecturer == bs[key].lecturer && b.settled == bs[key].settled
    ensures DeliverersMatch(accounts, ds, bs[key := b])
  {
    hide Sum;
    PutBooking(bs, key, b);
  }

  /** Scoring and disputing change no counter and no balance. */
  lemma RescoredMatch(a: Accounts, l: Ledger, key: Id, b: Booking)
    requires Stored(l.world, a, l) && key in l.bookings
    requires !l.bookings[key].settled && !b.settled && b.lecturer == l.bookings[key].lecturer
             && SameDeal(l.bookings[key], b)
    ensures ModulesMatch(a.modules, a.moduleVaults, l.modules, l.sponsorships, l.bookings[key := b])
    ensures SponsorshipsMatch(a.sponsorships, l.sponsorships, l.bookings[key := b])
    ensures BookingEscrowsMatch(a.bookingEscrows, l.bookings[key := b], l.gifts)
    ensures DeliverersMatch(a.deliverers, l.deliverers, l.bookings[key := b])
  {
    hide Sum, PricePerToken, Ledger.VaultOwed, ModulesInv, SponsorshipsInv, BookingsInv, CancellationsInv,
         ProposalsInv, BallotsInv, GiftsInv;
    BookingAt(l, key);
    SameModulesMatch(a.modules, a.moduleVaults, l.modules, l.sponsorships, l.bookings, key, b);
    TouchSponsorshipsMatch(a.sponsorships, l.sponsorships, l.bookings, key, b);
    TouchDeliverersMatch(a.deliverers, l.deliverers, l.bookings, key, b);
    SameEscrow(a.bookingEscrows, l.bookings, l.gifts, key, b);
  }

  lemma SameModulesMatch(accounts: ModuleAccounts, vaults: map<nat, nat>, ms: Modules, ss: Fundings, bs: Bookings,
                         key: Id, b: Booking)
    requires ModulesMatch(accounts, vaults, ms, ss, bs)
    requires key in bs && !bs[key].settled && !b.settled && b.lecturer == bs[key].lecturer && key.0 in ms
    ensures ModulesMatch(accounts, vaults, ms, ss, bs[key := b])
  {
    hide Sum;
    PutBooking(bs, key, b);
  }

  lemma ClaimDeliverersMatch(accounts: DelivererAccounts, ds: Standings, bs: Bookings, key: Id, k: Key, b: Booking)
    requires DeliverersMatch(accounts, ds, bs)
    requires key in bs && k in ds && bs[key].lecturer.None? && b.lecturer == Some(k) && !b.settled
    ensures DeliverersMatch(accounts[k := DelivererAccount(ds[k], accounts[k].activeClaims + 1)], ds, bs[key := b])
  {
    hide Sum;
    PutBooking(bs, key, b);
  }

  /** A lecturer lets go of a claim, by giving it up or by delivering. */
  lemma FreeDeliverersMatch(accounts: DelivererAccounts, ds: Standings, bs: Bookings, key: Id, k: Key, b: Booking,
                            st: Standing)
    requires DeliverersMatch(accounts, ds, bs)
    requires key in bs && k in ds && bs[key].lecturer == Some(k) && !bs[key].settled
    requires b.lecturer.None? || (b.lecturer == Some(k) && b.settled)
    ensures accounts[k].activeClaims >= 1
    ensures DeliverersMatch(accounts[k := DelivererAccount(st, accounts[k].activeClaims - 1)], ds[k := st],
                            bs[key := b])
  {
    hide Sum;
    PutBooking(bs, key, b);
  }

  // ----- a booking settles, and is closed -----

  lemma SettleModulesMatch(accounts: ModuleAccounts, vaults: map<nat, nat>, ms: Modules, ss: Fundings, bs: Bookings,
                           key: Id, b: Booking, id: Id, s: Funding)
    requires ModulesMatch(accounts, vaults, ms, ss, bs)
    requires key in bs && key.0 in ms && bs[key].lecturer.Some? && !bs[key].settled
    requires b.lecturer == bs[key].lecturer && b.settled && id in ss && s.deal == ss[id].deal
    ensures vaults[key.0] >= 1
    ensures ModulesMatch(accounts, vaults[key.0 := vaults[key.0] - 1],
                         ms[key.0 := ms[key.0].(delivered := ms[key.0].delivered + 1)], ss[id := s], bs[key := b])
  {
    hide Sum;
    PutFunding(ss, id, s);
    PutBooking(bs, key, b);
  }

  lemma SettleSponsorshipsMatch(accounts: SponsorshipAccounts, ss: Fundings, bs: Bookings, key: Id, b: Booking, id: Id,
                                s: Funding)
    requires SponsorshipsMatch(accounts, ss, bs)
    requires key in bs && b.sponsorId == bs[key].sponsorId && id in ss && s.deal == ss[id].deal
    ensures SponsorshipsMatch(accounts, ss[id := s], bs[key := b])
  {
    hide Sum;
    PutBooking(bs, key, b);
  }

  lemma FinishModulesMatch(accounts: ModuleAccounts, vaults: map<nat, nat>, ms: Modules, ss: Fundings, bs: Bookings,
                           key: Id)
    requires ModulesMatch(accounts, vaults, ms, ss, bs)
    requires key in bs && bs[key].settled && bs[key].lecturer.Some?
    ensures ModulesMatch(accounts, vaults, ms, ss, bs - {key})
  {
    hide Sum;
    DropBooking(bs, key);
  }

  lemma FinishSponsorshipsMatch(accounts: SponsorshipAccounts, ss: Fundings, bs: Bookings, id: Id, key: Id)
    requires SponsorshipsMatch(accounts, ss, bs)
    requires key in bs && id in ss && id == (key.0, bs[key].sponsorId)
    ensures accounts[id].activeBookings >= 1
    ensures SponsorshipsMatch(accounts[id := SponsorshipAccount(ss[id].deal, accounts[id].activeBookings - 1)],
                              ss, bs - {key})
  {
    hide Sum;
    DropBooking(bs, key);
  }

  // ----- a sponsorship is opened, shrunk, or closed -----

  lemma FundModulesMatch(accounts: ModuleAccounts, vaults: map<nat, nat>, ms: Modules, ss: Fundings, bs: Bookings,
                         id: Id, s: Funding)
    requires ModulesMatch(accounts, vaults, ms, ss, bs)
    requires id !in ss && id.0 in ms && s.deal.amount <= Unsponsored(id.0, ms[id.0], ss, bs)
    ensures var a := accounts[id.0];
            ModulesMatch(accounts[id.0 := a.(sponsorAllocation := a.sponsorAllocation - s.deal.amount,
                                             schoolAllocation := a.schoolAllocation + s.deal.amount)],
                         vaults, ms, ss[id := s], bs)
  {
    hide Sum;
    AddFunding(ss, id, s);
  }

  lemma FundSponsorshipsMatch(accounts: SponsorshipAccounts, ss: Fundings, bs: Bookings, next: nat, ms: Modules,
                              ds: Standings, id: Id, s: Funding)
    requires SponsorshipsMatch(accounts, ss, bs) && BookingsInv(next, ms, ss, bs, ds)
    requires id !in ss
    ensures SponsorshipsMatch(accounts[id := SponsorshipAccount(s.deal, 0)], ss[id := s], bs)
  {
    hide Sum;
    SumZero(bs, OnSponsorship(id));
  }

  lemma ReclaimModulesMatch(accounts: ModuleAccounts, vaults: map<nat, nat>, ms: Modules, ss: Fundings, bs: Bookings,
                            id: Id, n: nat)
    requires ModulesMatch(accounts, vaults, ms, ss, bs)
    requires id in ss && n <= ss[id].deal.amount && id.0 in ms
    ensures accounts[id.0].schoolAllocation >= n
    ensures var a := accounts[id.0];
            ModulesMatch(accounts[id.0 := a.(schoolAllocation := a.schoolAllocation - n,
                                             sponsorAllocation := a.sponsorAllocation + n)],
                         vaults, ms, ss[id := ss[id].Reclaim(n)], bs)
  {
    hide Sum;
    PutFunding(ss, id, ss[id].Reclaim(n));
  }

  lemma ReclaimSponsorshipsMatch(accounts: SponsorshipAccounts, ss: Fundings, bs: Bookings, id: Id, n: nat)
    requires SponsorshipsMatch(accounts, ss, bs)
    requires id in ss && n <= ss[id].deal.amount
    ensures SponsorshipsMatch(accounts[id := SponsorshipAccount(ss[id].Reclaim(n).deal, accounts[id].activeBookings)],
                              ss[id := ss[id].Reclaim(n)], bs)
  {
    hide Sum;
  }

  /** What a sponsor can reclaim fits in a u64: it is part of what was funded. */
  lemma RefundFits(s: Funding, unsettled: nat, n: nat)
    requires FundingBalances(s, unsettled) && s.funded <= U64_MAX && n <= s.deal.amount
    ensures s.deal.price * n <= U64_MAX
  {
    MulBounded(s.deal.price, n, s.deal.price, s.deal.amount + unsettled);
  }

  lemma CloseModulesMatch(accounts: ModuleAccounts, vaults: map<nat, nat>, ms: Modules, ss: Fundings, bs: Bookings,
                          id: Id)
    requires ModulesMatch(accounts, vaults, ms, ss, bs)
    requires id in ss && ss[id].deal.amount == 0
    ensures ModulesMatch(accounts, vaults, ms, ss - {id}, bs)
  {
    hide Sum;
    DropFunding(ss, id);
  }

  lemma CloseSponsorshipsMatch(accounts: SponsorshipAccounts, ss: Fundings, bs: Bookings, id: Id)
    requires SponsorshipsMatch(accounts, ss, bs)
    ensures SponsorshipsMatch(accounts - {id}, ss - {id}, bs)
  {
    hide Sum;
  }

  // ----- a module is created, burned from, or removed -----

  lemma CreateModulesMatch(accounts: ModuleAccounts, vaults: map<nat, nat>, next: nat, regions: map<u16, Key>, nb: nat,
                           ns: nat,
                           dec: Decimals, ms: Modules, ss: Fundings, bs: Bookings, ds: Standings, base: ModuleBase)
    requires ModulesMatch(accounts, vaults, ms, ss, bs) && ModulesInv(next, regions, ms, ss, bs)
    requires SponsorshipsInv(next, ns, dec, ms, ss, bs) && BookingsInv(nb, ms, ss, bs, ds) && base.region in regions
    ensures ModulesMatch(accounts[next := ModuleAccount(base, base.total, 0, 0)], vaults[next := base.total],
                         ms[next := ModuleRecord(base, 0, 0)], ss, bs)
  {
    hide Sum, PricePerToken, ModulesInv, SponsorshipsInv, BookingsInv;
    CreateModules(next, regions, nb, ns, dec, ms, ss, bs, ds, base);
  }

  /** A module minted with tokens already sponsored: those start out in the school allocation. */
  lemma MintModulesMatch(accounts: ModuleAccounts, vaults: map<nat, nat>, l: Ledger, base: ModuleBase, id: Id,
                         s: Funding)
    requires ModulesMatch(accounts, vaults, l.modules, l.sponsorships, l.bookings) && Inv(l)
    requires base.region in l.world.regions && s.deal.amount <= base.total
             && id == (l.world.nextModule, l.world.nextSponsor)
    ensures ModulesMatch(accounts[id.0 := ModuleAccount(base, base.total - s.deal.amount, s.deal.amount, 0)],
                         vaults[id.0 := base.total], l.modules[id.0 := ModuleRecord(base, 0, 0)],
                         l.sponsorships[id := s], l.bookings)
  {
    hide Sum, PricePerToken, Unsponsored, ModulesInv, SponsorshipsInv, BookingsInv, CancellationsInv, ProposalsInv,
         BallotsInv, GiftsInv, ModulesMatch;
    var w := l.world;
    FreshSponsorship(l, id.0);
    CreateModulesMatch(accounts, vaults, id.0, w.regions, w.nextBooking, w.nextSponsor, w.decimals,
                       l.modules, l.sponsorships, l.bookings, l.deliverers, base);
    var accounts', vaults', ms := accounts[id.0 := ModuleAccount(base, base.total, 0, 0)], vaults[id.0 := base.total],
                                  l.modules[id.0 := ModuleRecord(base, 0, 0)];
    ModuleStored(accounts', vaults', ms, l.sponsorships, l.bookings, id.0);
    FundModulesMatch(accounts', vaults', ms, l.sponsorships, l.bookings, id, s);
    assert accounts'[id.0 := ModuleAccount(base, base.total - s.deal.amount, s.deal.amount, 0)]
        == accounts[id.0 := ModuleAccount(base, base.total - s.deal.amount, s.deal.amount, 0)];
  }

  lemma BurnModulesMatch(accounts: ModuleAccounts, vaults: map<nat, nat>, ms: Modules, ss: Fundings, bs: Bookings,
                         mid: nat, n: nat)
    requires ModulesMatch(accounts, vaults, ms, ss, bs)
    requires mid in ms && n <= accounts[mid].sponsorAllocation
    ensures vaults[mid] >= n
    ensures ModulesMatch(accounts[mid := accounts[mid].(sponsorAllocation := accounts[mid].sponsorAllocation - n)],
                         vaults[mid := vaults[mid] - n], ms[mid := ms[mid].(burned := ms[mid].burned + n)], ss, bs)
  {
    hide Sum;
  }

  lemma RemoveModulesMatch(accounts: ModuleAccounts, vaults: map<nat, nat>, ms: Modules, ss: Fundings, bs: Bookings,
                           mid: nat)
    requires ModulesMatch(accounts, vaults, ms, ss, bs)
    ensures ModulesMatch(accounts - {mid}, vaults - {mid}, ms - {mid}, ss, bs)
  {
    hide Sum;
  }

  // ----- lecturers and cancellations -----

  lemma RegisterDeliverersMatch(accounts: DelivererAccounts, ds: Standings, next: nat, ms: Modules, ss: Fundings,
                                bs: Bookings,
                                k: Key, st: Standing)
    requires DeliverersMatch(accounts, ds, bs) && BookingsInv(next, ms, ss, bs, ds)
    ensures DeliverersMatch(accounts[k := DelivererAccount(st, if k in ds then accounts[k].activeClaims else 0)],
                            ds[k := st], bs)
  {
    hide Sum;
    if k !in ds {
      SumZero(bs, HeldBy(k));
    }
  }

  lemma UnregisterDeliverersMatch(accounts: DelivererAccounts, ds: Standings, bs: Bookings, k: Key)
    requires DeliverersMatch(accounts, ds, bs)
    ensures DeliverersMatch(accounts - {k}, ds - {k}, bs)
  {
    hide Sum;
  }

  lemma CancelCountersMatch(counters: map<Key, nat>, cs: map<(Key, nat), Cancellation>, c: (Key, nat), r: Cancellation)
    requires CountersMatch(counters, cs) && c !in cs
    ensures CountersMatch(counters[c.0 := Balance(counters, c.0) + 1], cs[c := r])
  {
    hide Sum;
    PutCancellation(cs, c, r);
  }

  lemma ClearCountersMatch(counters: map<Key, nat>, cs: map<(Key, nat), Cancellation>, c: (Key, nat))
    requires CountersMatch(counters, cs) && c in cs
    ensures c.0 in counters && counters[c.0] >= 1
    ensures CountersMatch(counters[c.0 := counters[c.0] - 1], cs - {c})
  {
    hide Sum;
    DropCancellation(cs, c);
    assert Balance(counters, c.0) >= 1;
  }

  // ----- proposals and votes -----

  lemma OpenProposalsMatch(accounts: ProposalAccounts, ps: map<nat, Proposal>, ballots: Ballots, next: nat, clock: int,
                           p: Proposal)
    requires ProposalsMatch(accounts, ps, ballots) && BallotsInv(next, clock, ps, ExpiryOf, ballots)
    ensures ProposalsMatch(accounts[next := ProposalAccount(p, Tallies(0, 0, 0))], ps[next := p], ballots)
  {
    hide Sum;
    NothingCastYet(next, clock, ps, ExpiryOf, ballots);
  }

  lemma PutProposalsMatch(accounts: ProposalAccounts, ps: map<nat, Proposal>, ballots: Ballots, pid: nat, p: Proposal)
    requires ProposalsMatch(accounts, ps, ballots) && pid in ps
    ensures ProposalsMatch(accounts[pid := accounts[pid].(core := p)], ps[pid := p], ballots)
  {
    hide Sum;
  }

  lemma DropProposalsMatch(accounts: ProposalAccounts, ps: map<nat, Proposal>, ballots: Ballots, pid: nat)
    requires ProposalsMatch(accounts, ps, ballots)
    ensures ProposalsMatch(accounts - {pid}, ps - {pid}, ballots)
  {
    hide Sum, ProposalMatches;
  }

  lemma OpenPreSponsorsMatch(escrows: map<nat, nat>, ps: map<nat, Proposal>, gs: Gifts, pid: nat, p: Proposal)
    requires PreSponsorsMatch(escrows, ps, gs) && pid !in ps && OfProposal(pid) !in gs
    ensures p.preAmount == 0 ==> PreSponsorsMatch(escrows, ps[pid := p], gs)
    ensures p.preAmount > 0 ==> PreSponsorsMatch(escrows[pid := p.preAmount * p.prePrice], ps[pid := p], gs)
  {
  }

  lemma PutPreSponsorsMatch(escrows: map<nat, nat>, ps: map<nat, Proposal>, gs: Gifts, pid: nat, p: Proposal)
    requires PreSponsorsMatch(escrows, ps, gs)
    requires pid in ps && p.preAmount == ps[pid].preAmount && p.prePrice == ps[pid].prePrice
    ensures PreSponsorsMatch(escrows, ps[pid := p], gs)
  {
  }

  lemma DropPreSponsorsMatch(escrows: map<nat, nat>, ps: map<nat, Proposal>, gs: Gifts, pid: nat)
    requires PreSponsorsMatch(escrows, ps, gs)
    ensures PreSponsorsMatch(escrows - {pid}, ps - {pid}, gs)
  {
  }

  lemma VoteProposalsMatch(accounts: ProposalAccounts, ps: map<nat, Proposal>, ballots: Ballots, k: (nat, Key),
                           b: Ballot, a: ProposalAccount)
    requires ProposalsMatch(accounts, ps, ballots) && k.0 in ps
    requires ProposalMatches(a, k.0, ps[k.0], ballots[k := b])
    ensures ProposalsMatch(accounts[k.0 := a], ps, ballots[k := b])
  {
    hide Sum;
    PutBallot(ballots, k, b);
  }

  lemma UnlockProposalsMatch(accounts: ProposalAccounts, ps: map<nat, Proposal>, ballots: Ballots, k: (nat, Key))
    requires ProposalsMatch(accounts, ps, ballots) && k in ballots
    ensures ProposalsMatch(accounts, ps, ballots[k := ballots[k].(locked := false)])
  {
    hide Sum;
    PutBallot(ballots, k, ballots[k].(locked := false));
  }
}
