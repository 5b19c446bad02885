/** How each counter of the education ledger moves when one record is written or removed. */
module LedgerSums {
  import opened Machine
  import opened Sums
  import opened EducationState
  import opened EducationLedger

  /** What one booking adds to the sums over bookings. */
  ghost predicate BookingsDiffer(more: map<Id, Booking>, less: map<Id, Booking>, key: Id, b: Booking) {
    && (forall mid :: Sum(more, Unclaimed(mid))
                      == Sum(less, Unclaimed(mid)) + When(key.0 == mid && b.lecturer.None?, 1))
    && (forall mid :: Sum(more, InFlight(mid))
                      == Sum(less, InFlight(mid)) + When(key.0 == mid && b.lecturer.Some? && !b.settled, 1))
    && (forall id :: Sum(more, OnSponsorship(id)) == Sum(less, OnSponsorship(id)) + When(id == (key.0, b.sponsorId), 1))
    && (forall id :: Sum(more, UnsettledOn(id))
                     == Sum(less, UnsettledOn(id)) + When(id == (key.0, b.sponsorId) && !b.settled, 1))
    && (forall k: Key :: Sum(more, HeldBy(k)) == Sum(less, HeldBy(k)) + When(b.lecturer == Some(k) && !b.settled, 1))
    && Sum(more, BookingDeposit()) == Sum(less, BookingDeposit()) + b.deposit
    && (forall a :: Sum(more, BookingEscrowed(a))
                    == Sum(less, BookingEscrowed(a)) + When(b.asset == a && !b.settled, b.price))
  }

  lemma DropBooking(bs: map<Id, Booking>, key: Id)
    requires key in bs
    ensures BookingsDiffer(bs, bs - {key}, key, bs[key])
  {
    hide Sum;
    SumDrop(bs, key);
  }

  lemma AddBooking(bs: map<Id, Booking>, key: Id, b: Booking)
    requires key !in bs
    ensures BookingsDiffer(bs[key := b], bs, key, b)
  {
    hide Sum;
    SumPut(bs, key, b);
  }

  /** Rewriting a booking is removing it and adding it back. */
  lemma PutBooking(bs: map<Id, Booking>, key: Id, b: Booking)
    requires key in bs
    ensures BookingsDiffer(bs, bs - {key}, key, bs[key])
    ensures BookingsDiffer(bs[key := b], bs - {key}, key, b)
  {
    DropBooking(bs, key);
    AddBooking(bs - {key}, key, b);
    assert (bs - {key})[key := b] == bs[key := b];
  }

  ghost predicate FundingsDiffer(more: map<Id, Funding>, less: map<Id, Funding>, id: Id, s: Funding) {
    && (forall mid :: Sum(more, Pledged(mid)) == Sum(less, Pledged(mid)) + When(id.0 == mid, s.deal.amount))
    && (forall a :: Sum(more, SponsorEscrowed(a))
                    == Sum(less, SponsorEscrowed(a)) + When(s.deal.asset == a, s.deal.amount * s.deal.price))
  }

  lemma DropFunding(ss: map<Id, Funding>, id: Id)
    requires id in ss
    ensures FundingsDiffer(ss, ss - {id}, id, ss[id])
  {
    hide Sum;
    SumDrop(ss, id);
  }

  lemma AddFunding(ss: map<Id, Funding>, id: Id, s: Funding)
    requires id !in ss
    ensures FundingsDiffer(ss[id := s], ss, id, s)
  {
    hide Sum;
    SumPut(ss, id, s);
  }

  lemma PutFunding(ss: map<Id, Funding>, id: Id, s: Funding)
    requires id in ss
    ensures FundingsDiffer(ss, ss - {id}, id, ss[id])
    ensures FundingsDiffer(ss[id := s], ss - {id}, id, s)
  {
    DropFunding(ss, id);
    AddFunding(ss - {id}, id, s);
    assert (ss - {id})[id := s] == ss[id := s];
  }

  lemma PutModule(ms: map<nat, ModuleRecord>, mid: nat, m: ModuleRecord)
    ensures Sum(ms[mid := m], ModuleDeposit()) + (if mid in ms then ms[mid].base.deposit else 0)
            == Sum(ms, ModuleDeposit()) + m.base.deposit
  {
    hide Sum;
    SumPut(ms, mid, m);
  }

  lemma DropModule(ms: map<nat, ModuleRecord>, mid: nat)
    requires mid in ms
    ensures Sum(ms, ModuleDeposit()) == Sum(ms - {mid}, ModuleDeposit()) + ms[mid].base.deposit
  {
    hide Sum;
    SumDrop(ms, mid);
  }

  lemma PutStanding(ds: map<Key, Standing>, k: Key, s: Standing)
    ensures Sum(ds[k := s], DelivererDeposit()) + (if k in ds then ds[k].deposit else 0)
            == Sum(ds, DelivererDeposit()) + s.deposit
  {
    hide Sum;
    SumPut(ds, k, s);
  }

  lemma DropStanding(ds: map<Key, Standing>, k: Key)
    requires k in ds
    ensures Sum(ds, DelivererDeposit()) == Sum(ds - {k}, DelivererDeposit()) + ds[k].deposit
  {
    hide Sum;
    SumDrop(ds, k);
  }

  lemma PutCancellation(cs: map<(Key, nat), Cancellation>, k: (Key, nat), c: Cancellation)
    requires k !in cs
    ensures forall school :: Sum(cs[k := c], CancelledBy(school))
                             == Sum(cs, CancelledBy(school)) + When(k.0 == school, 1)
  {
    hide Sum;
    SumPut(cs, k, c);
  }

  lemma DropCancellation(cs: map<(Key, nat), Cancellation>, k: (Key, nat))
    requires k in cs
    ensures forall school :: Sum(cs, CancelledBy(school)) == Sum(cs - {k}, CancelledBy(school)) + When(k.0 == school, 1)
  {
    hide Sum;
    SumDrop(cs, k);
  }

  /** A further gift adds to what its escrow was given in its asset. */
  lemma PutGift(gs: Gifts, e: Escrow, asset: Key, n: nat)
    requires e in gs ==> gs[e].asset == asset
    ensures forall a :: Sum(gs[e := Gift(asset, GiftIn(gs, e) + n)], GiftedIn(a))
                        == Sum(gs, GiftedIn(a)) + When(asset == a, n)
  {
    hide Sum;
    SumPut(gs, e, Gift(asset, GiftIn(gs, e) + n));
  }

  function StakeOf(p: Proposal): nat {
    When(p.status.Voting?, p.deposit) + p.bond
  }

  ghost predicate ProposalsDiffer(more: map<nat, Proposal>, less: map<nat, Proposal>, p: Proposal) {
    && Sum(more, ProposalStake()) == Sum(less, ProposalStake()) + StakeOf(p)
    && (forall a :: Sum(more, PreSponsored(a))
                    == Sum(less, PreSponsored(a)) + When(p.asset == a, p.preAmount * p.prePrice))
  }

  lemma DropProposal(ps: map<nat, Proposal>, pid: nat)
    requires pid in ps
    ensures ProposalsDiffer(ps, ps - {pid}, ps[pid])
  {
    hide Sum;
    SumDrop(ps, pid);
  }

  lemma AddProposal(ps: map<nat, Proposal>, pid: nat, p: Proposal)
    requires pid !in ps
    ensures ProposalsDiffer(ps[pid := p], ps, p)
  {
    hide Sum;
    SumPut(ps, pid, p);
  }

  lemma PutProposal(ps: map<nat, Proposal>, pid: nat, p: Proposal)
    requires pid in ps
    ensures ProposalsDiffer(ps, ps - {pid}, ps[pid])
    ensures ProposalsDiffer(ps[pid := p], ps - {pid}, p)
  {
    DropProposal(ps, pid);
    AddProposal(ps - {pid}, pid, p);
    assert (ps - {pid})[pid := p] == ps[pid := p];
  }
}
