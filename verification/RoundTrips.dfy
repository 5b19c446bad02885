/** Instructions that undo or replace one another: afterwards the ledger is what it was, up to the clock and ids. */
module RoundTrips {
  import opened Machine
  import opened Pricing
  import opened Sums
  import opened Wallets
  import opened Voting
  import opened EducationState
  import opened EducationLedger
  import opened DeliverySteps
  import opened GovernanceSteps
  import opened DeliveryProofs
  lemma DebitCredit<K>(m: map<K, nat>, k: K, n: nat)
    requires Debit(m, k, n).Ok? && (n > 0 || k in m)
    ensures Credit(Debit(m, k, n).value, k, n) == m
  {
    assert Credit(Debit(m, k, n).value, k, n) == m[k := m[k]];
  }

  lemma PutBack<K, V>(m: map<K, V>, k: K, v: V)
    ensures k in m ==> m[k := v][k := m[k]] == m
    ensures k !in m ==> m[k := v] - {k} == m
  {
    if k in m {
      assert m[k := m[k]] == m;
    }
  }

  /** A ledger with only a later time, and one more booking id used up. */
  ghost function AfterOneBooking(l: Ledger, now: i64): Ledger {
    l.(clock := now, world := l.world.(nextBooking := l.world.nextBooking + 1))
  }

  /** Expiring an unclaimed booking returns token, payment and deposit: nothing of the booking remains. */
  lemma ExpireUndoesBooking(l: Ledger, now: i64, school: Key, id: Id, deliveryAt: i64, later: i64)
    requires Inv(l) && BookModule(l, now, school, id, deliveryAt).Ok?
    requires ExpireBooking(BookModule(l, now, school, id, deliveryAt).value, later, (id.0, l.world.nextBooking)).Ok?
    ensures ExpireBooking(BookModule(l, now, school, id, deliveryAt).value, later, (id.0, l.world.nextBooking)).value
            == AfterOneBooking(l, later)
  {
    hide Sum, PricePerToken, Inv, Clamp;
    ConfigAt(l);
    FreshBooking(l, id.0);
    var l1, key, s := BookModule(l, now, school, id, deliveryAt).value, (id.0, l.world.nextBooking), l.sponsorships[id];
    DebitCredit(l.world.xcav, school, l.world.config.bookingDeposit);
    PutBack(l.bookings, key, l1.bookings[key]);
    PutBack(l.sponsorships, id, s.WithAmount(s.deal.amount - 1));
    assert s.WithAmount(s.deal.amount - 1).WithAmount(s.deal.amount) == s;
  }

  /** Cancelling one does the same and puts the cancellation on record, as long as not too many are. */
  lemma CancelUndoesBooking(l: Ledger, now: i64, school: Key, id: Id, deliveryAt: i64, later: i64)
    requires Inv(l) && BookModule(l, now, school, id, deliveryAt).Ok?
    requires CancelBooking(BookModule(l, now, school, id, deliveryAt).value, later, school,
                           (id.0, l.world.nextBooking)).Ok?
    requires l.CancellationCount(school) + 1 < l.world.config.maxCancellations
    ensures CancelBooking(BookModule(l, now, school, id, deliveryAt).value, later, school,
                          (id.0, l.world.nextBooking)).value
            == AfterOneBooking(l, later).(cancellations :=
                 l.cancellations[(school, l.world.nextBooking) := Cancellation(id.0, later)])
  {
    hide Sum, PricePerToken, Inv, Clamp;
    ConfigAt(l);
    FreshBooking(l, id.0);
    var l1, key, s := BookModule(l, now, school, id, deliveryAt).value, (id.0, l.world.nextBooking), l.sponsorships[id];
    DebitCredit(l.world.xcav, school, l.world.config.bookingDeposit);
    PutBack(l.bookings, key, l1.bookings[key]);
    PutBack(l.sponsorships, id, s.WithAmount(s.deal.amount - 1));
    assert s.WithAmount(s.deal.amount - 1).WithAmount(s.deal.amount) == s;
  }

  /** A sponsor who reclaims everything and closes the sponsorship has the money back, and the module its tokens. */
  lemma ReclaimUndoesSponsoring(l: Ledger, now: i64, sponsor: Key, mid: nat, amount: u64, asset: Key, later: i64)
    requires Inv(l) && SponsorModule(l, now, sponsor, mid, amount, asset).Ok? && (asset, sponsor) in l.world.cash
    requires var id := (mid, l.world.nextSponsor);
             ReclaimSponsorship(SponsorModule(l, now, sponsor, mid, amount, asset).value, later, sponsor, id,
                                amount).Ok?
    ensures var id := (mid, l.world.nextSponsor);
            var l2 := ReclaimSponsorship(SponsorModule(l, now, sponsor, mid, amount, asset).value, later, sponsor, id,
                                         amount).value;
            && CloseSponsorship(l2, sponsor, id).Ok?
            && CloseSponsorship(l2, sponsor, id).value
               == l.(clock := later, world := l.world.(nextSponsor := l.world.nextSponsor + 1))
  {
    hide Sum, PricePerToken, Inv, Clamp, Unsponsored;
    var id, l1 := (mid, l.world.nextSponsor), SponsorModule(l, now, sponsor, mid, amount, asset).value;
    var s := l1.sponsorships[id];
    FreshSponsorship(l, mid);
    NoBookingsYet(l, id);
    PutBack(l.sponsorships, id, s.Reclaim(amount));
    assert l1.sponsorships[id := s.Reclaim(amount)] == l.sponsorships[id := s.Reclaim(amount)];
    DebitCredit(l.world.cash, (asset, sponsor), s.deal.price * amount);
  }

  lemma NoBookingsYet(l: Ledger, id: Id)
    requires Inv(l) && id !in l.sponsorships
    ensures l.ActiveBookings(id) == 0
  {
    hide Sum, PricePerToken, ModulesInv, SponsorshipsInv, CancellationsInv, ProposalsInv, BallotsInv, GiftsInv;
    SumZero(l.bookings, OnSponsorship(id));
  }

  /** The voter's wallet, and everyone's, once an earlier vote on the proposal is refunded. */
  ghost function Refunded(l: Ledger, k: (nat, Key)): map<Key, nat> {
    if k in l.ballots then Pay(l.world.xcav, k.1, l.ballots[k].power) else l.world.xcav
  }

  lemma VoteIs(l: Ledger, now: i64, voter: Key, pid: nat, vote: Vote, amount: u64)
    ensures VoteOnProposal(l, now, voter, pid, vote, amount).Ok? <==>
              && amount >= l.world.config.minimumVotingAmount && pid in l.proposals
              && l.proposals[pid].status.Voting? && now < l.proposals[pid].expiry
              && Debit(Refunded(l, (pid, voter)), voter, amount).Ok?
    ensures VoteOnProposal(l, now, voter, pid, vote, amount).Ok? ==>
              VoteOnProposal(l, now, voter, pid, vote, amount).value
              == l.(clock := now, world := l.world.(xcav := Debit(Refunded(l, (pid, voter)), voter, amount).value),
                    ballots := l.ballots[(pid, voter) := Ballot(vote, amount, l.proposals[pid].expiry, true)])
  {
    hide Debit, Pay;
  }

  /** Voting again is as good as having voted only the second time. */
  lemma RevoteReplaces(l: Ledger, now: i64, voter: Key, pid: nat, vote: Vote, amount: u64, later: i64, vote': Vote,
                       amount': u64)
    requires Inv(l) && l.clock <= now && VoteOnProposal(l, now, voter, pid, vote, amount).Ok?
    requires VoteOnProposal(VoteOnProposal(l, now, voter, pid, vote, amount).value, later, voter, pid, vote',
                            amount').Ok?
    ensures VoteOnProposal(l, later, voter, pid, vote', amount').Ok?
    ensures VoteOnProposal(VoteOnProposal(l, now, voter, pid, vote, amount).value, later, voter, pid, vote',
                           amount').value
            == VoteOnProposal(l, later, voter, pid, vote', amount').value
  {
    hide Inv, VoteOnProposal, Debit, Credit, Balance;
    ConfigAt(l);
    var k, l1 := (pid, voter), VoteOnProposal(l, now, voter, pid, vote, amount).value;
    VoteIs(l, now, voter, pid, vote, amount);
    VoteIs(l1, later, voter, pid, vote', amount');
    VoteIs(l, later, voter, pid, vote', amount');
    DebitCredit(Refunded(l, k), voter, amount);
    assert Refunded(l1, k) == Refunded(l, k);
    assert l.ballots[k := l1.ballots[k]][k := Ballot(vote', amount', l.proposals[pid].expiry, true)]
        == l.ballots[k := Ballot(vote', amount', l.proposals[pid].expiry, true)];
  }
}
