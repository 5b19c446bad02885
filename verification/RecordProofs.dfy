/** How each part of the ledger's invariant survives the few ways the delivery records change. */
module RecordProofs {
  import opened Machine
  import opened Pricing
  import opened Sums
  import opened EducationState
  import opened EducationLedger
  import opened LedgerSums

  type Modules = map<nat, ModuleRecord>
  type Fundings = map<Id, Funding>
  type Bookings = map<Id, Booking>
  type Standings = map<Key, Standing>
  type Decimals = map<Key, u8>

  // ----- a token is booked: one less to book, one booking more -----

  lemma OpenModules(next: nat, regions: map<u16, Key>, ms: Modules, ss: Fundings, bs: Bookings, id: Id, key: Id,
                    b: Booking)
    requires ModulesInv(next, regions, ms, ss, bs)
    requires id in ss && ss[id].deal.amount > 0 && key !in bs && key.0 == id.0 && b.lecturer.None?
    ensures ModulesInv(next, regions, ms, ss[id := ss[id].WithAmount(ss[id].deal.amount - 1)], bs[key := b])
  {
    hide Sum;
    PutFunding(ss, id, ss[id].WithAmount(ss[id].deal.amount - 1));
    AddBooking(bs, key, b);
  }

  lemma OpenSponsorships(nm: nat, ns: nat, ds: Decimals, ms: Modules, ss: Fundings, bs: Bookings, id: Id, key: Id,
                         b: Booking)
    requires SponsorshipsInv(nm, ns, ds, ms, ss, bs)
    requires id in ss && ss[id].deal.amount > 0 && key !in bs && (key.0, b.sponsorId) == id && !b.settled
    ensures SponsorshipsInv(nm, ns, ds, ms, ss[id := ss[id].WithAmount(ss[id].deal.amount - 1)], bs[key := b])
  {
    hide Sum, PricePerToken;
    AddBooking(bs, key, b);
  }

  lemma OpenBookings(next: nat, ms: Modules, ss: Fundings, bs: Bookings, ds: Standings, id: Id, s: Funding, key: Id,
                     b: Booking)
    requires BookingsInv(next, ms, ss, bs, ds)
    requires id in ss && s == ss[id].WithAmount(s.deal.amount)
    requires key.1 == next && BookingOk(next + 1, ms, ss[id := s], ds, key, b)
    ensures BookingsInv(next + 1, ms, ss[id := s], bs[key := b], ds)
  {
  }

  lemma OpenCancellations(next: nat, bs: Bookings, cs: map<(Key, nat), Cancellation>, key: Id, b: Booking)
    requires CancellationsInv(next, bs, cs) && key.1 == next
    ensures CancellationsInv(next + 1, bs[key := b], cs)
  {
  }

  /** The price of the booked token only moves from one escrow to another. */
  lemma OpenTotals(ss: Fundings, bs: Bookings, id: Id, key: Id, b: Booking)
    requires id in ss && ss[id].deal.amount > 0 && key !in bs
    requires b.asset == ss[id].deal.asset && b.price == ss[id].deal.price && !b.settled
    ensures Sum(bs[key := b], BookingDeposit()) == Sum(bs, BookingDeposit()) + b.deposit
    ensures forall a ::
      Sum(ss[id := ss[id].WithAmount(ss[id].deal.amount - 1)], SponsorEscrowed(a))
      + Sum(bs[key := b], BookingEscrowed(a))
      == Sum(ss, SponsorEscrowed(a)) + Sum(bs, BookingEscrowed(a))
  {
    hide Sum;
    var n, p := ss[id].deal.amount, ss[id].deal.price;
    assert (n - 1) * p + p == n * p;
    PutFunding(ss, id, ss[id].WithAmount(n - 1));
    AddBooking(bs, key, b);
  }

  // ----- an unsettled booking is unwound: its token goes back to its sponsorship -----

  lemma UnbookModules(next: nat, regions: map<u16, Key>, ms: Modules, ss: Fundings, bs: Bookings, id: Id, key: Id)
    requires ModulesInv(next, regions, ms, ss, bs)
    requires key in bs && !bs[key].settled && id in ss && id == (key.0, bs[key].sponsorId)
    ensures ModulesInv(next, regions, ms, ss[id := ss[id].WithAmount(ss[id].deal.amount + 1)], bs - {key})
  {
    hide Sum;
    PutFunding(ss, id, ss[id].WithAmount(ss[id].deal.amount + 1));
    DropBooking(bs, key);
  }

  lemma UnbookSponsorships(nm: nat, ns: nat, ds: Decimals, ms: Modules, ss: Fundings, bs: Bookings, id: Id, key: Id)
    requires SponsorshipsInv(nm, ns, ds, ms, ss, bs)
    requires key in bs && !bs[key].settled && key.0 in ms && id in ss && id == (key.0, bs[key].sponsorId)
    ensures SponsorshipsInv(nm, ns, ds, ms, ss[id := ss[id].WithAmount(ss[id].deal.amount + 1)], bs - {key})
  {
    hide Sum, PricePerToken;
    DropBooking(bs, key);
  }

  lemma UnbookBookings(next: nat, ms: Modules, ss: Fundings, bs: Bookings, ds: Standings, id: Id, s: Funding, key: Id)
    requires BookingsInv(next, ms, ss, bs, ds)
    requires key in bs && id in ss && s == ss[id].WithAmount(s.deal.amount)
    ensures BookingsInv(next, ms, ss[id := s], bs - {key}, ds)
  {
  }

  lemma DropCancellations(next: nat, bs: Bookings, cs: map<(Key, nat), Cancellation>, key: Id)
    requires CancellationsInv(next, bs, cs)
    ensures CancellationsInv(next, bs - {key}, cs)
  {
  }

  lemma CancelCancellations(next: nat, ms: Modules, ss: Fundings, bs: Bookings, ds: Standings,
                            cs: map<(Key, nat), Cancellation>, key: Id, c: (Key, nat), r: Cancellation)
    requires CancellationsInv(next, bs, cs) && BookingsInv(next, ms, ss, bs, ds)
    requires key in bs && c.1 == key.1
    ensures c !in cs
    ensures CancellationsInv(next, bs - {key}, cs[c := r])
  {
  }

  lemma UnbookTotals(ss: Fundings, bs: Bookings, id: Id, key: Id)
    requires key in bs && id in ss && !bs[key].settled
    requires bs[key].asset == ss[id].deal.asset && bs[key].price == ss[id].deal.price
    ensures Sum(bs, BookingDeposit()) == Sum(bs - {key}, BookingDeposit()) + bs[key].deposit
    ensures forall a ::
      Sum(ss[id := ss[id].WithAmount(ss[id].deal.amount + 1)], SponsorEscrowed(a)) + Sum(bs - {key}, BookingEscrowed(a))
      == Sum(ss, SponsorEscrowed(a)) + Sum(bs, BookingEscrowed(a))
  {
    hide Sum;
    var n, p := ss[id].deal.amount, ss[id].deal.price;
    assert (n + 1) * p == n * p + p;
    PutFunding(ss, id, ss[id].WithAmount(n + 1));
    DropBooking(bs, key);
  }

  // ----- an unsettled booking is rewritten in place: claimed, given up, scored, disputed -----

  /** Everything about a booking that its money and its place in the books depend on. */
  ghost predicate SameDeal(b: Booking, b': Booking) {
    b'.sponsorId == b.sponsorId && b'.sponsor == b.sponsor && b'.asset == b.asset && b'.price == b.price
       && b'.deposit == b.deposit
  }

  lemma TouchModules(next: nat, regions: map<u16, Key>, ms: Modules, ss: Fundings, bs: Bookings, key: Id, b: Booking)
    requires ModulesInv(next, regions, ms, ss, bs)
    requires key in bs && !bs[key].settled && !b.settled
    ensures ModulesInv(next, regions, ms, ss, bs[key := b])
  {
    hide Sum;
    PutBooking(bs, key, b);
  }

  lemma TouchSponsorships(nm: nat, ns: nat, ds: Decimals, ms: Modules, ss: Fundings, bs: Bookings, key: Id, b: Booking)
    requires SponsorshipsInv(nm, ns, ds, ms, ss, bs)
    requires key in bs && SameDeal(bs[key], b) && b.settled == bs[key].settled
    ensures SponsorshipsInv(nm, ns, ds, ms, ss, bs[key := b])
  {
    hide Sum, PricePerToken;
    PutBooking(bs, key, b);
  }

  lemma TouchBookings(next: nat, ms: Modules, ss: Fundings, bs: Bookings, ds: Standings, key: Id, b: Booking)
    requires BookingsInv(next, ms, ss, bs, ds)
    requires key in bs && BookingOk(next, ms, ss, ds, key, b)
    ensures BookingsInv(next, ms, ss, bs[key := b], ds)
  {
  }

  lemma TouchCancellations(next: nat, bs: Bookings, cs: map<(Key, nat), Cancellation>, key: Id, b: Booking)
    requires CancellationsInv(next, bs, cs) && key in bs
    ensures CancellationsInv(next, bs[key := b], cs)
  {
  }

  lemma TouchTotals(bs: Bookings, key: Id, b: Booking)
    requires key in bs && SameDeal(bs[key], b) && b.settled == bs[key].settled
    ensures Sum(bs[key := b], BookingDeposit()) == Sum(bs, BookingDeposit())
    ensures forall a :: Sum(bs[key := b], BookingEscrowed(a)) == Sum(bs, BookingEscrowed(a))
  {
    hide Sum;
    PutBooking(bs, key, b);
  }

  lemma ClearCancellations(next: nat, bs: Bookings, cs: map<(Key, nat), Cancellation>, c: (Key, nat))
    requires CancellationsInv(next, bs, cs)
    ensures CancellationsInv(next, bs, cs - {c})
  {
  }

  // ----- a booking settles: its token is delivered and its escrow is empty -----

  lemma SettleModules(next: nat, regions: map<u16, Key>, ms: Modules, ss: Fundings, bs: Bookings, key: Id, b: Booking)
    requires ModulesInv(next, regions, ms, ss, bs)
    requires key in bs && key.0 in ms && bs[key].lecturer.Some? && !bs[key].settled
    requires b.lecturer == bs[key].lecturer && b.settled
    ensures ModulesInv(next, regions, ms[key.0 := ms[key.0].(delivered := ms[key.0].delivered + 1)], ss, bs[key := b])
  {
    hide Sum;
    PutBooking(bs, key, b);
  }

  lemma ModulesIgnoreHistory(next: nat, regions: map<u16, Key>, ms: Modules, ss: Fundings, bs: Bookings, id: Id,
                             s: Funding)
    requires ModulesInv(next, regions, ms, ss, bs)
    requires id in ss && s.deal == ss[id].deal
    ensures ModulesInv(next, regions, ms, ss[id := s], bs)
  {
    hide Sum;
    PutFunding(ss, id, s);
  }

  lemma SettleSponsorships(nm: nat, ns: nat, ds: Decimals, ms: Modules, ss: Fundings, bs: Bookings,
                           id: Id, key: Id, b: Booking, paid: nat, refund: nat)
    requires SponsorshipsInv(nm, ns, ds, ms, ss, bs)
    requires key in bs && key.0 in ms && id in ss && id == (key.0, bs[key].sponsorId)
    requires !bs[key].settled && SameDeal(bs[key], b) && b.settled && paid + refund == ss[id].deal.price
    ensures SponsorshipsInv(nm, ns, ds, ms[key.0 := ms[key.0].(delivered := ms[key.0].delivered + 1)],
                            ss[id := ss[id].Settle(paid, refund)], bs[key := b])
  {
    hide Sum, PricePerToken;
    PutBooking(bs, key, b);
  }

  lemma SettleBookings(next: nat, ms: Modules, ss: Fundings, bs: Bookings, ds: Standings,
                       mid: nat, m: ModuleRecord, id: Id, s: Funding, key: Id, b: Booking, k: Key, st: Standing)
    requires BookingsInv(next, ms, ss, bs, ds)
    requires mid in ms && id in ss && k in ds && key in bs && s.deal == ss[id].deal
    requires BookingOk(next, ms, ss, ds, key, b)
    ensures BookingsInv(next, ms[mid := m], ss[id := s], bs[key := b], ds[k := st])
  {
  }

  lemma SettleTotals(ss: Fundings, bs: Bookings, id: Id, s: Funding, key: Id, b: Booking)
    requires key in bs && id in ss && s.deal == ss[id].deal
    requires !bs[key].settled && SameDeal(bs[key], b) && b.settled
    ensures Sum(bs[key := b], BookingDeposit()) == Sum(bs, BookingDeposit())
    ensures forall a :: Sum(ss[id := s], SponsorEscrowed(a)) == Sum(ss, SponsorEscrowed(a))
    ensures forall a :: Sum(bs[key := b], BookingEscrowed(a)) + When(b.asset == a, b.price)
                        == Sum(bs, BookingEscrowed(a))
  {
    hide Sum;
    PutFunding(ss, id, s);
    PutBooking(bs, key, b);
  }

  // ----- a settled booking is closed -----

  lemma FinishModules(next: nat, regions: map<u16, Key>, ms: Modules, ss: Fundings, bs: Bookings, key: Id)
    requires ModulesInv(next, regions, ms, ss, bs)
    requires key in bs && bs[key].settled
    ensures ModulesInv(next, regions, ms, ss, bs - {key})
  {
    hide Sum;
    DropBooking(bs, key);
  }

  lemma FinishSponsorships(nm: nat, ns: nat, ds: Decimals, ms: Modules, ss: Fundings, bs: Bookings, key: Id)
    requires SponsorshipsInv(nm, ns, ds, ms, ss, bs)
    requires key in bs && bs[key].settled
    ensures SponsorshipsInv(nm, ns, ds, ms, ss, bs - {key})
  {
    hide Sum, PricePerToken;
    DropBooking(bs, key);
  }

  lemma FinishBookings(next: nat, ms: Modules, ss: Fundings, bs: Bookings, ds: Standings, key: Id)
    requires BookingsInv(next, ms, ss, bs, ds)
    ensures BookingsInv(next, ms, ss, bs - {key}, ds)
  {
  }

  lemma FinishTotals(bs: Bookings, key: Id)
    requires key in bs && bs[key].settled
    ensures Sum(bs, BookingDeposit()) == Sum(bs - {key}, BookingDeposit()) + bs[key].deposit
    ensures forall a :: Sum(bs - {key}, BookingEscrowed(a)) == Sum(bs, BookingEscrowed(a))
  {
    hide Sum;
    DropBooking(bs, key);
  }

  // ----- a sponsorship is opened, shrunk by a reclaim, or closed -----

  lemma FundModules(next: nat, regions: map<u16, Key>, ms: Modules, ss: Fundings, bs: Bookings, id: Id, s: Funding)
    requires ModulesInv(next, regions, ms, ss, bs)
    requires id !in ss && id.0 in ms && s.deal.amount <= Unsponsored(id.0, ms[id.0], ss, bs)
    ensures ModulesInv(next, regions, ms, ss[id := s], bs)
  {
    hide Sum;
    AddFunding(ss, id, s);
  }

  lemma FundSponsorships(nm: nat, ns: nat, dec: Decimals, next: nat, ms: Modules, ss: Fundings, bs: Bookings,
                         ds: Standings,
                         id: Id, s: Funding)
    requires SponsorshipsInv(nm, ns, dec, ms, ss, bs) && BookingsInv(next, ms, ss, bs, ds)
    requires id.0 < nm && id.1 == ns && id.0 in ms
    requires PricedByTerms(ms, dec, id.0, s.deal)
    requires s.funded == s.deal.price * s.deal.amount <= U64_MAX && s.reclaimed == s.paidOut == s.refunded == 0
    ensures id !in ss
    ensures SponsorshipsInv(nm, ns + 1, dec, ms, ss[id := s], bs)
  {
    hide Sum, PricePerToken;
    SumZero(bs, UnsettledOn(id));
    assert Sum(bs, UnsettledOn(id)) == 0;
  }

  lemma FundBookings(next: nat, ms: Modules, ss: Fundings, bs: Bookings, ds: Standings, id: Id, s: Funding)
    requires BookingsInv(next, ms, ss, bs, ds)
    requires id !in ss || s.deal == ss[id].deal.(amount := s.deal.amount)
    ensures BookingsInv(next, ms, ss[id := s], bs, ds)
  {
  }

  lemma ReclaimModules(next: nat, regions: map<u16, Key>, ms: Modules, ss: Fundings, bs: Bookings, id: Id, n: nat)
    requires ModulesInv(next, regions, ms, ss, bs)
    requires id in ss && n <= ss[id].deal.amount
    ensures ModulesInv(next, regions, ms, ss[id := ss[id].Reclaim(n)], bs)
  {
    hide Sum;
    PutFunding(ss, id, ss[id].Reclaim(n));
  }

  lemma ReclaimSponsorships(nm: nat, ns: nat, ds: Decimals, ms: Modules, ss: Fundings, bs: Bookings, id: Id, n: nat)
    requires SponsorshipsInv(nm, ns, ds, ms, ss, bs)
    requires id in ss && n <= ss[id].deal.amount
    ensures SponsorshipsInv(nm, ns, ds, ms, ss[id := ss[id].Reclaim(n)], bs)
  {
    hide Sum, PricePerToken;
    var s, u := ss[id], Sum(bs, UnsettledOn(id));
    assert s.deal.price * (s.deal.amount + u) == s.deal.price * (s.deal.amount - n + u) + s.deal.price * n;
  }

  lemma ReclaimTotals(ss: Fundings, id: Id, n: nat)
    requires id in ss && n <= ss[id].deal.amount
    ensures forall a :: Sum(ss[id := ss[id].Reclaim(n)], SponsorEscrowed(a))
                        + When(ss[id].deal.asset == a, ss[id].deal.price * n)
                        == Sum(ss, SponsorEscrowed(a))
  {
    hide Sum;
    var m, p := ss[id].deal.amount, ss[id].deal.price;
    assert (m - n) * p + p * n == m * p;
    PutFunding(ss, id, ss[id].Reclaim(n));
  }

  lemma CloseModules(next: nat, regions: map<u16, Key>, ms: Modules, ss: Fundings, bs: Bookings, id: Id)
    requires ModulesInv(next, regions, ms, ss, bs)
    requires id in ss
    ensures ModulesInv(next, regions, ms, ss - {id}, bs)
  {
    hide Sum;
    DropFunding(ss, id);
  }

  lemma CloseSponsorships(nm: nat, ns: nat, ds: Decimals, ms: Modules, ss: Fundings, bs: Bookings, id: Id)
    requires SponsorshipsInv(nm, ns, ds, ms, ss, bs)
    ensures SponsorshipsInv(nm, ns, ds, ms, ss - {id}, bs)
  {
    hide Sum, PricePerToken;
  }

  lemma CloseBookings(next: nat, ms: Modules, ss: Fundings, bs: Bookings, ds: Standings, id: Id)
    requires BookingsInv(next, ms, ss, bs, ds)
    requires id in ss && Sum(bs, OnSponsorship(id)) == 0
    ensures BookingsInv(next, ms, ss - {id}, bs, ds)
  {
    hide Sum;
    SumZero(bs, OnSponsorship(id));
    forall key | key in bs
      ensures (key.0, bs[key].sponsorId) != id
    {
      assert OnSponsorship(id)(key, bs[key]) == 0;
    }
  }

  // ----- a module is created, burned from, or removed -----

  lemma CreateModules(next: nat, regions: map<u16, Key>, nb: nat, ns: nat, dec: Decimals,
                      ms: Modules, ss: Fundings, bs: Bookings, ds: Standings, base: ModuleBase)
    requires ModulesInv(next, regions, ms, ss, bs)
    requires SponsorshipsInv(next, ns, dec, ms, ss, bs) && BookingsInv(nb, ms, ss, bs, ds)
    requires base.region in regions
    ensures next !in ms
    ensures ModulesInv(next + 1, regions, ms[next := ModuleRecord(base, 0, 0)], ss, bs)
    ensures Unsponsored(next, ModuleRecord(base, 0, 0), ss, bs) == base.total
    ensures Sum(ss, Pledged(next)) == Sum(bs, Unclaimed(next)) == 0
  {
    hide Sum, PricePerToken;
    SumZero(ss, Pledged(next));
    SumZero(bs, Unclaimed(next));
    SumZero(bs, InFlight(next));
    assert forall key :: key in bs ==> key.0 < next;
    assert Unsponsored(next, ModuleRecord(base, 0, 0), ss, bs) == base.total;
  }

  lemma CreateSponsorships(nm: nat, ns: nat, ds: Decimals, ms: Modules, ss: Fundings, bs: Bookings, m: ModuleRecord)
    requires SponsorshipsInv(nm, ns, ds, ms, ss, bs)
    ensures SponsorshipsInv(nm + 1, ns, ds, ms[nm := m], ss, bs)
  {
    hide Sum, PricePerToken;
  }

  lemma CreateBookings(next: nat, ms: Modules, ss: Fundings, bs: Bookings, ds: Standings, mid: nat, m: ModuleRecord)
    requires BookingsInv(next, ms, ss, bs, ds)
    ensures BookingsInv(next, ms[mid := m], ss, bs, ds)
  {
  }

  lemma BurnModules(next: nat, regions: map<u16, Key>, ms: Modules, ss: Fundings, bs: Bookings, mid: nat, n: nat)
    requires ModulesInv(next, regions, ms, ss, bs)
    requires mid in ms && n <= Unsponsored(mid, ms[mid], ss, bs)
    ensures ModulesInv(next, regions, ms[mid := ms[mid].(burned := ms[mid].burned + n)], ss, bs)
  {
    hide Sum;
  }

  lemma BurnSponsorships(nm: nat, ns: nat, ds: Decimals, ms: Modules, ss: Fundings, bs: Bookings, mid: nat,
                         m: ModuleRecord)
    requires SponsorshipsInv(nm, ns, ds, ms, ss, bs)
    requires mid in ms && m.base == ms[mid].base
    ensures SponsorshipsInv(nm, ns, ds, ms[mid := m], ss, bs)
  {
    hide Sum, PricePerToken;
  }

  /** With no token left, nothing is pledged and no booking is unsettled. */
  lemma EmptyModule(next: nat, regions: map<u16, Key>, ms: Modules, ss: Fundings, bs: Bookings, mid: nat)
    requires ModulesInv(next, regions, ms, ss, bs)
    requires mid in ms && ms[mid].Supply() == 0
    ensures forall id :: id in ss && id.0 == mid ==> ss[id].deal.amount == 0
    ensures forall key :: key in bs && key.0 == mid ==> bs[key].settled && bs[key].lecturer.Some?
  {
    hide Sum;
    SumZero(ss, Pledged(mid));
    SumZero(bs, Unclaimed(mid));
    SumZero(bs, InFlight(mid));
    forall id | id in ss && id.0 == mid
      ensures ss[id].deal.amount == 0
    {
      assert Pledged(mid)(id, ss[id]) == 0;
    }
    forall key | key in bs && key.0 == mid
      ensures bs[key].settled && bs[key].lecturer.Some?
    {
      assert Unclaimed(mid)(key, bs[key]) == 0 && InFlight(mid)(key, bs[key]) == 0;
    }
  }

  lemma RemoveModules(next: nat, regions: map<u16, Key>, nb: nat, nm: nat, ns: nat, dec: Decimals,
                      ms: Modules, ss: Fundings, bs: Bookings, ds: Standings, mid: nat)
    requires ModulesInv(next, regions, ms, ss, bs)
    requires SponsorshipsInv(nm, ns, dec, ms, ss, bs) && BookingsInv(nb, ms, ss, bs, ds)
    requires mid in ms && ms[mid].Supply() == 0
    ensures ModulesInv(next, regions, ms - {mid}, ss, bs)
    ensures SponsorshipsInv(nm, ns, dec, ms - {mid}, ss, bs)
    ensures BookingsInv(nb, ms - {mid}, ss, bs, ds)
  {
    hide Sum, PricePerToken;
    EmptyModule(next, regions, ms, ss, bs, mid);
  }

  // ----- a lecturer registers or leaves -----

  lemma RegisterBookings(next: nat, ms: Modules, ss: Fundings, bs: Bookings, ds: Standings, k: Key, st: Standing)
    requires BookingsInv(next, ms, ss, bs, ds)
    ensures BookingsInv(next, ms, ss, bs, ds[k := st])
  {
  }

  lemma UnregisterBookings(next: nat, ms: Modules, ss: Fundings, bs: Bookings, ds: Standings, k: Key)
    requires BookingsInv(next, ms, ss, bs, ds)
    requires Sum(bs, HeldBy(k)) == 0
    ensures BookingsInv(next, ms, ss, bs, ds - {k})
  {
    hide Sum;
    SumZero(bs, HeldBy(k));
    forall key | key in bs
      ensures bs[key].settled || bs[key].lecturer != Some(k)
    {
      assert HeldBy(k)(key, bs[key]) == 0;
    }
  }
}
