/** Every instruction of the delivery side keeps the ledger's invariant and every token total. */
module DeliveryProofs {
  import opened Machine
  import opened Pricing
  import opened Settlement
  import opened Sums
  import opened Wallets
  import opened Voting
  import opened EducationState
  import opened EducationLedger
  import opened LedgerSums
  import opened RecordProofs
  import opened DeliverySteps

  // ----- what a reachable ledger holds under one key -----

  lemma FreshBooking(l: Ledger, mid: nat)
    requires Inv(l)
    ensures (mid, l.world.nextBooking) !in l.bookings
  {
    hide Sum, PricePerToken;
  }

  lemma FreshSponsorship(l: Ledger, mid: nat)
    requires Inv(l)
    ensures (mid, l.world.nextSponsor) !in l.sponsorships
  {
    hide Sum, PricePerToken, FundingBalances, BookingsInv, ModulesInv, CancellationsInv, ProposalsInv, BallotsInv,
         GiftsInv;
  }

  /** A live booking has not been cancelled before. */
  lemma FreshCancellation(l: Ledger, key: Id, school: Key)
    requires Inv(l) && key in l.bookings
    ensures (school, key.1) !in l.cancellations
  {
    hide Sum, PricePerToken, ModulesInv, SponsorshipsInv, BookingsInv, ProposalsInv, BallotsInv, GiftsInv;
  }

  lemma ConfigAt(l: Ledger)
    requires Inv(l)
    ensures l.world.config.Valid()
  {
    hide Sum, PricePerToken, ModulesInv, SponsorshipsInv, BookingsInv, CancellationsInv, ProposalsInv, BallotsInv,
         GiftsInv;
  }

  lemma ModuleAt(l: Ledger, mid: nat)
    requires Inv(l)
    ensures mid in l.modules ==>
              mid < l.world.nextModule && l.modules[mid].base.region in l.world.regions && l.SponsorAllocation(mid) >= 0
  {
    hide Sum, PricePerToken, BookingsInv, SponsorshipsInv, CancellationsInv, ProposalsInv, BallotsInv, GiftsInv;
  }

  lemma SponsorshipAt(l: Ledger, id: Id)
    requires Inv(l)
    ensures id in l.sponsorships ==>
              SponsorshipOk(l.world.nextModule, l.world.nextSponsor, l.world.decimals, l.modules, l.bookings, id,
                            l.sponsorships[id])
  {
    hide Sum, PricePerToken, BookingsInv, ModulesInv, CancellationsInv, ProposalsInv, BallotsInv, GiftsInv;
  }

  lemma BookingAt(l: Ledger, key: Id)
    requires Inv(l)
    ensures key in l.bookings ==>
              BookingOk(l.world.nextBooking, l.modules, l.sponsorships, l.deliverers, key, l.bookings[key])
  {
    hide Sum, PricePerToken, SponsorshipsInv, ModulesInv, CancellationsInv, ProposalsInv, BallotsInv, GiftsInv;
  }

  lemma BookingIds(l: Ledger, key: Id, other: Id)
    requires Inv(l) && key in l.bookings && other in l.bookings && other.1 == key.1
    ensures other == key
  {
    hide Sum, PricePerToken, SponsorshipsInv, ModulesInv, CancellationsInv, ProposalsInv, BallotsInv, GiftsInv,
         BookingOk;
  }

  /** Gifts do not mind records that keep their asset or go, nor new ones, but their proposal must stay. */
  lemma GiftsKept(l: Ledger, l': Ledger)
    requires Inv(l) && l'.gifts == l.gifts
    requires l.world.nextSponsor <= l'.world.nextSponsor && l.world.nextBooking <= l'.world.nextBooking
    requires forall id: Id :: id in l'.sponsorships ==>
               if id in l.sponsorships then l'.sponsorships[id].deal.asset == l.sponsorships[id].deal.asset
               else id.1 >= l.world.nextSponsor
    requires forall key: Id :: key in l'.bookings ==>
               if key in l.bookings then l'.bookings[key].asset == l.bookings[key].asset
               else key.1 >= l.world.nextBooking
    requires forall pid :: pid in l.proposals && (OfProposal(pid) in l.gifts || pid in l'.proposals) ==>
               pid in l'.proposals && l'.proposals[pid].asset == l.proposals[pid].asset
               && l'.proposals[pid].preAmount == l.proposals[pid].preAmount
    ensures GiftsInv(l'.world.nextSponsor, l'.world.nextBooking, l'.sponsorships, l'.bookings, l'.proposals, l'.gifts)
  {
    hide Sum, PricePerToken, SponsorshipsInv, BookingsInv, ModulesInv, CancellationsInv, ProposalsInv, BallotsInv;
  }

  /** A gift is something. */
  predicate GiftsArePositive(gs: Gifts) {
    forall e :: e in gs ==> gs[e].amount > 0
  }

  lemma GiftAt(l: Ledger, e: Escrow)
    requires Inv(l)
    ensures GiftsArePositive(l.gifts)
    ensures e in l.gifts <==> GiftIn(l.gifts, e) > 0
    ensures e in l.gifts ==>
              match e
              case OfSponsorship(id) => id.1 < l.world.nextSponsor
              case OfBooking(key) => key.1 < l.world.nextBooking
              case OfProposal(pid) => pid in l.proposals && l.proposals[pid].preAmount > 0
  {
    hide Sum, PricePerToken, ModulesInv, SponsorshipsInv, BookingsInv, CancellationsInv, ProposalsInv, BallotsInv;
  }

  /** The price a booking escrows is the one its module's terms quote. */
  lemma BookingPriced(l: Ledger, key: Id)
    requires Inv(l) && key in l.bookings && key.0 in l.modules
    ensures l.bookings[key].asset in l.world.decimals
    ensures PricePerToken(l.modules[key.0].base.terms,
                          l.world.decimals[l.bookings[key].asset]) == Ok(l.bookings[key].price)
  {
    hide Sum, PricePerToken, SponsorshipsInv, ModulesInv, BookingsInv, CancellationsInv, ProposalsInv, BallotsInv,
         GiftsInv;
    BookingAt(l, key);
    SponsorshipAt(l, (key.0, l.bookings[key].sponsorId));
  }

  // ----- the instructions -----

  lemma CreateModuleKeeps(l: Ledger, creator: Key, region: u16, amount: u64)
    requires Inv(l) && CreateModule(l, creator, region, amount).Ok?
    ensures Keeps(l, CreateModule(l, creator, region, amount).value)
  {
    hide Sum, PricePerToken, ModulesInv, SponsorshipsInv, BookingsInv, CancellationsInv, ProposalsInv, BallotsInv,
         GiftsInv;
    var w, l' := l.world, CreateModule(l, creator, region, amount).value;
    var base := ModuleBase(creator, region, w.config.moduleDeposit, amount, w.config.terms);
    DebitHeld(w.xcav, creator, w.config.moduleDeposit);
    CreateModules(w.nextModule, w.regions, w.nextBooking, w.nextSponsor, w.decimals, l.modules, l.sponsorships,
                  l.bookings, l.deliverers, base);
    CreateSponsorships(w.nextModule, w.nextSponsor, w.decimals, l.modules, l.sponsorships, l.bookings,
                       ModuleRecord(base, 0, 0));
    CreateBookings(w.nextBooking, l.modules, l.sponsorships, l.bookings, l.deliverers, w.nextModule,
                   ModuleRecord(base, 0, 0));
    PutModule(l.modules, w.nextModule, ModuleRecord(base, 0, 0));
  }

  lemma BurnUnsponsoredKeeps(l: Ledger, creator: Key, mid: nat, amount: u64)
    requires Inv(l) && BurnUnsponsored(l, creator, mid, amount).Ok?
    ensures Keeps(l, BurnUnsponsored(l, creator, mid, amount).value)
  {
    hide Sum, PricePerToken, ModulesInv, SponsorshipsInv, BookingsInv, CancellationsInv, ProposalsInv, BallotsInv,
         GiftsInv;
    var w, l' := l.world, BurnUnsponsored(l, creator, mid, amount).value;
    var m := l'.modules[mid];
    BurnModules(w.nextModule, w.regions, l.modules, l.sponsorships, l.bookings, mid, amount);
    BurnSponsorships(w.nextModule, w.nextSponsor, w.decimals, l.modules, l.sponsorships, l.bookings, mid, m);
    CreateBookings(w.nextBooking, l.modules, l.sponsorships, l.bookings, l.deliverers, mid, m);
    PutModule(l.modules, mid, m);
  }

  lemma RemoveModuleKeeps(l: Ledger, creator: Key, mid: nat)
    requires Inv(l) && RemoveModule(l, creator, mid).Ok?
    ensures Keeps(l, RemoveModule(l, creator, mid).value)
  {
    hide Sum, PricePerToken, ModulesInv, SponsorshipsInv, BookingsInv, CancellationsInv, ProposalsInv, BallotsInv,
         GiftsInv;
    var w, l' := l.world, RemoveModule(l, creator, mid).value;
    RemoveModules(w.nextModule, w.regions, w.nextBooking, w.nextModule, w.nextSponsor, w.decimals,
                  l.modules, l.sponsorships, l.bookings, l.deliverers, mid);
    DropModule(l.modules, mid);
    CreditHeld(w.xcav, creator, l.modules[mid].base.deposit);
  }

  lemma SponsorModuleKeeps(l: Ledger, now: i64, sponsor: Key, mid: nat, amount: u64, asset: Key)
    requires Inv(l) && l.clock <= now && SponsorModule(l, now, sponsor, mid, amount, asset).Ok?
    ensures Keeps(l, SponsorModule(l, now, sponsor, mid, amount, asset).value)
  {
    hide Sum, PricePerToken, ModulesInv, SponsorshipsInv, BookingsInv, CancellationsInv, ProposalsInv, BallotsInv,
         GiftsInv;
    var w, l' := l.world, SponsorModule(l, now, sponsor, mid, amount, asset).value;
    var id := (mid, w.nextSponsor);
    var s := l'.sponsorships[id];
    ModuleAt(l, mid);
    DebitHeldIn(w.cash, (asset, sponsor), s.funded);
    assert s.deal.amount * s.deal.price == s.funded;
    FundSponsorships(w.nextModule, w.nextSponsor, w.decimals, w.nextBooking, l.modules, l.sponsorships, l.bookings,
                     l.deliverers, id, s);
    FundModules(w.nextModule, w.regions, l.modules, l.sponsorships, l.bookings, id, s);
    FundBookings(w.nextBooking, l.modules, l.sponsorships, l.bookings, l.deliverers, id, s);
    AddFunding(l.sponsorships, id, s);
    LaterBallots(w.nextProposal, l.clock, now, l.proposals, ExpiryOf, l.ballots);
    GiftsKept(l, l');
  }

  lemma ReclaimSponsorshipKeeps(l: Ledger, now: i64, sponsor: Key, id: Id, amount: u64)
    requires Inv(l) && l.clock <= now && ReclaimSponsorship(l, now, sponsor, id, amount).Ok?
    ensures Keeps(l, ReclaimSponsorship(l, now, sponsor, id, amount).value)
  {
    hide Sum, PricePerToken, ModulesInv, SponsorshipsInv, BookingsInv, CancellationsInv, ProposalsInv, BallotsInv,
         GiftsInv;
    var w, l' := l.world, ReclaimSponsorship(l, now, sponsor, id, amount).value;
    var s := l.sponsorships[id];
    CreditHeldIn(w.cash, (s.deal.asset, sponsor), s.deal.price * amount);
    ReclaimModules(w.nextModule, w.regions, l.modules, l.sponsorships, l.bookings, id, amount);
    ReclaimSponsorships(w.nextModule, w.nextSponsor, w.decimals, l.modules, l.sponsorships, l.bookings, id, amount);
    FundBookings(w.nextBooking, l.modules, l.sponsorships, l.bookings, l.deliverers, id, s.Reclaim(amount));
    ReclaimTotals(l.sponsorships, id, amount);
    LaterBallots(w.nextProposal, l.clock, now, l.proposals, ExpiryOf, l.ballots);
    GiftsKept(l, l');
  }

  lemma CloseSponsorshipKeeps(l: Ledger, sponsor: Key, id: Id)
    requires Inv(l) && CloseSponsorship(l, sponsor, id).Ok?
    ensures Keeps(l, CloseSponsorship(l, sponsor, id).value)
  {
    hide Sum, PricePerToken, ModulesInv, SponsorshipsInv, BookingsInv, CancellationsInv, ProposalsInv, BallotsInv,
         GiftsInv;
    var w, l' := l.world, CloseSponsorship(l, sponsor, id).value;
    CloseModules(w.nextModule, w.regions, l.modules, l.sponsorships, l.bookings, id);
    CloseSponsorships(w.nextModule, w.nextSponsor, w.decimals, l.modules, l.sponsorships, l.bookings, id);
    CloseBookings(w.nextBooking, l.modules, l.sponsorships, l.bookings, l.deliverers, id);
    DropFunding(l.sponsorships, id);
    GiftsKept(l, l');
  }

  lemma BookModuleKeeps(l: Ledger, now: i64, school: Key, id: Id, deliveryAt: i64)
    requires Inv(l) && l.clock <= now && BookModule(l, now, school, id, deliveryAt).Ok?
    ensures Keeps(l, BookModule(l, now, school, id, deliveryAt).value)
  {
    hide Sum, PricePerToken, ModulesInv, SponsorshipsInv, BookingsInv, CancellationsInv, ProposalsInv, BallotsInv,
         GiftsInv;
    var w, l' := l.world, BookModule(l, now, school, id, deliveryAt).value;
    FreshBooking(l, id.0);
    SponsorshipAt(l, id);
    var key := (id.0, w.nextBooking);
    var b := l'.bookings[key];
    DebitHeld(w.xcav, school, w.config.bookingDeposit);
    OpenModules(w.nextModule, w.regions, l.modules, l.sponsorships, l.bookings, id, key, b);
    OpenSponsorships(w.nextModule, w.nextSponsor, w.decimals, l.modules, l.sponsorships, l.bookings, id, key, b);
    OpenBookings(w.nextBooking, l.modules, l.sponsorships, l.bookings, l.deliverers, id, l'.sponsorships[id], key, b);
    OpenCancellations(w.nextBooking, l.bookings, l.cancellations, key, b);
    OpenTotals(l.sponsorships, l.bookings, id, key, b);
    LaterBallots(w.nextProposal, l.clock, now, l.proposals, ExpiryOf, l.ballots);
    GiftsKept(l, l');
  }

  /** A booking rewritten in place, with its deal, its place and its being unsettled unchanged, keeps everything. */
  lemma TouchKeeps(l: Ledger, key: Id, b: Booking)
    requires Inv(l) && key in l.bookings && !l.bookings[key].settled && !b.settled && SameDeal(l.bookings[key], b)
    requires BookingShape(b) && (b.lecturer.Some? ==> b.lecturer.value in l.deliverers)
    ensures Keeps(l, l.(bookings := l.bookings[key := b]))
  {
    hide Sum, PricePerToken, ModulesInv, SponsorshipsInv, BookingsInv, CancellationsInv, ProposalsInv, BallotsInv,
         GiftsInv;
    var w := l.world;
    BookingAt(l, key);
    TouchModules(w.nextModule, w.regions, l.modules, l.sponsorships, l.bookings, key, b);
    TouchSponsorships(w.nextModule, w.nextSponsor, w.decimals, l.modules, l.sponsorships, l.bookings, key, b);
    TouchBookings(w.nextBooking, l.modules, l.sponsorships, l.bookings, l.deliverers, key, b);
    TouchCancellations(w.nextBooking, l.bookings, l.cancellations, key, b);
    TouchTotals(l.bookings, key, b);
    GiftsKept(l, l.(bookings := l.bookings[key := b]));
  }

  /** Time passing keeps everything. */
  lemma LaterKeeps(l: Ledger, now: int)
    requires Inv(l) && l.clock <= now
    ensures Keeps(l, l.(clock := now))
  {
    hide Sum, PricePerToken, ModulesInv, SponsorshipsInv, BookingsInv, CancellationsInv, ProposalsInv, BallotsInv,
         GiftsInv;
    LaterBallots(l.world.nextProposal, l.clock, now, l.proposals, ExpiryOf, l.ballots);
  }

  lemma ClaimBookingKeeps(l: Ledger, now: i64, lecturer: Key, key: Id)
    requires Inv(l) && l.clock <= now && ClaimBooking(l, now, lecturer, key).Ok?
    ensures Keeps(l, ClaimBooking(l, now, lecturer, key).value)
  {
    hide Sum, PricePerToken, ModulesInv, SponsorshipsInv, BookingsInv, CancellationsInv, ProposalsInv, BallotsInv,
         GiftsInv;
    var w, l' := l.world, ClaimBooking(l, now, lecturer, key).value;
    BookingAt(l, key);
    LaterKeeps(l, now);
    TouchKeeps(l.(clock := now), key, l'.bookings[key]);
    assert l' == l.(clock := now).(bookings := l.bookings[key := l'.bookings[key]]);
  }

  /** Unwinding an unsettled booking keeps every record sound; only its deposit is left to be paid out. */
  lemma UnbookHolds(l: Ledger, key: Id)
    requires Inv(l) && Unwindable(l, key)
    ensures var w, l' := l.world, Unbook(l, key);
            && ModulesInv(w.nextModule, w.regions, l'.modules, l'.sponsorships, l'.bookings)
            && SponsorshipsInv(w.nextModule, w.nextSponsor, w.decimals, l'.modules, l'.sponsorships, l'.bookings)
            && BookingsInv(w.nextBooking, l'.modules, l'.sponsorships, l'.bookings, l'.deliverers)
            && GiftsInv(w.nextSponsor, w.nextBooking, l'.sponsorships, l'.bookings, l'.proposals, l'.gifts)
            && Sum(l.bookings, BookingDeposit()) == Sum(l'.bookings, BookingDeposit()) + l.bookings[key].deposit
            && forall a :: Sum(l'.sponsorships, SponsorEscrowed(a)) + Sum(l'.bookings, BookingEscrowed(a))
                           == Sum(l.sponsorships, SponsorEscrowed(a)) + Sum(l.bookings, BookingEscrowed(a))
  {
    hide Sum, PricePerToken, ModulesInv, SponsorshipsInv, BookingsInv, CancellationsInv, ProposalsInv, BallotsInv,
         GiftsInv;
    var w, l' := l.world, Unbook(l, key);
    BookingAt(l, key);
    var id := (key.0, l.bookings[key].sponsorId);
    UnbookModules(w.nextModule, w.regions, l.modules, l.sponsorships, l.bookings, id, key);
    UnbookSponsorships(w.nextModule, w.nextSponsor, w.decimals, l.modules, l.sponsorships, l.bookings, id, key);
    UnbookBookings(w.nextBooking, l.modules, l.sponsorships, l.bookings, l.deliverers, id, l'.sponsorships[id], key);
    UnbookTotals(l.sponsorships, l.bookings, id, key);
    GiftsKept(l, l');
  }

  lemma CancelBookingKeeps(l: Ledger, now: i64, school: Key, key: Id)
    requires Inv(l) && l.clock <= now && CancelBooking(l, now, school, key).Ok?
    ensures Keeps(l, CancelBooking(l, now, school, key).value)
  {
    hide Sum, PricePerToken, ModulesInv, SponsorshipsInv, BookingsInv, CancellationsInv, ProposalsInv, BallotsInv,
         GiftsInv, Balance, Clamp;
    var w := l.world;
    UnbookHolds(l, key);
    CreditHeld(w.xcav, school, l.bookings[key].deposit);
    CancelCancellations(w.nextBooking, l.modules, l.sponsorships, l.bookings, l.deliverers,
                        l.cancellations, key, (school, key.1), Cancellation(key.0, now));
    LaterBallots(w.nextProposal, l.clock, now, l.proposals, ExpiryOf, l.ballots);
  }

  lemma ClearOldCancellationKeeps(l: Ledger, now: i64, school: Key, bid: nat)
    requires Inv(l) && l.clock <= now && ClearOldCancellation(l, now, school, bid).Ok?
    ensures Keeps(l, ClearOldCancellation(l, now, school, bid).value)
  {
    hide Sum, PricePerToken, ModulesInv, SponsorshipsInv, BookingsInv, CancellationsInv, ProposalsInv, BallotsInv,
         GiftsInv;
    var w, l' := l.world, ClearOldCancellation(l, now, school, bid).value;
    assert CancellationsInv(w.nextBooking, l'.bookings, l'.cancellations) by {
      ClearCancellations(w.nextBooking, l.bookings, l.cancellations, (school, bid));
    }
    LaterBallots(w.nextProposal, l.clock, now, l.proposals, ExpiryOf, l.ballots);
  }

  lemma CancelClaimKeeps(l: Ledger, lecturer: Key, key: Id)
    requires Inv(l) && CancelClaim(l, lecturer, key).Ok?
    ensures Keeps(l, CancelClaim(l, lecturer, key).value)
  {
    hide Sum, PricePerToken, ModulesInv, SponsorshipsInv, BookingsInv, CancellationsInv, ProposalsInv, BallotsInv,
         GiftsInv;
    var w, l' := l.world, CancelClaim(l, lecturer, key).value;
    BookingAt(l, key);
    var b, st := l'.bookings[key], l'.deliverers[lecturer];
    TouchModules(w.nextModule, w.regions, l.modules, l.sponsorships, l.bookings, key, b);
    TouchSponsorships(w.nextModule, w.nextSponsor, w.decimals, l.modules, l.sponsorships, l.bookings, key, b);
    TouchBookings(w.nextBooking, l.modules, l.sponsorships, l.bookings, l.deliverers, key, b);
    RegisterBookings(w.nextBooking, l.modules, l.sponsorships, l'.bookings, l.deliverers, lecturer, st);
    TouchCancellations(w.nextBooking, l.bookings, l.cancellations, key, b);
    TouchTotals(l.bookings, key, b);
    PutStanding(l.deliverers, lecturer, st);
    GiftsKept(l, l');
  }

  lemma ExpireBookingKeeps(l: Ledger, now: i64, key: Id)
    requires Inv(l) && l.clock <= now && ExpireBooking(l, now, key).Ok?
    ensures Keeps(l, ExpireBooking(l, now, key).value)
  {
    hide Sum, PricePerToken, ModulesInv, SponsorshipsInv, BookingsInv, CancellationsInv, ProposalsInv, BallotsInv,
         GiftsInv, Balance, Clamp;
    var w, b := l.world, l.bookings[key];
    UnbookHolds(l, key);
    CreditHeld(w.xcav, b.school, b.deposit);
    DropCancellations(w.nextBooking, l.bookings, l.cancellations, key);
    LaterBallots(w.nextProposal, l.clock, now, l.proposals, ExpiryOf, l.ballots);
  }

  lemma SubmitScoreKeeps(l: Ledger, now: i64, agent: Key, key: Id, score: u16)
    requires Inv(l) && l.clock <= now && SubmitScore(l, now, agent, key, score).Ok?
    ensures Keeps(l, SubmitScore(l, now, agent, key, score).value)
  {
    hide Sum, PricePerToken, ModulesInv, SponsorshipsInv, BookingsInv, CancellationsInv, ProposalsInv, BallotsInv,
         GiftsInv;
    var w, l' := l.world, SubmitScore(l, now, agent, key, score).value;
    BookingAt(l, key);
    LaterKeeps(l, now);
    TouchKeeps(l.(clock := now), key, l'.bookings[key]);
    assert l' == l.(clock := now).(bookings := l.bookings[key := l'.bookings[key]]);
  }

  lemma DisputeScoreKeeps(l: Ledger, now: i64, party: Key, key: Id, proposed: u16)
    requires Inv(l) && l.clock <= now && DisputeScore(l, now, party, key, proposed).Ok?
    ensures Keeps(l, DisputeScore(l, now, party, key, proposed).value)
  {
    hide Sum, PricePerToken, ModulesInv, SponsorshipsInv, BookingsInv, CancellationsInv, ProposalsInv, BallotsInv,
         GiftsInv;
    var w, l' := l.world, DisputeScore(l, now, party, key, proposed).value;
    BookingAt(l, key);
    LaterKeeps(l, now);
    TouchKeeps(l.(clock := now), key, l'.bookings[key]);
    assert l' == l.(clock := now).(bookings := l.bookings[key := l'.bookings[key]]);
  }

  lemma ResolveDisputeKeeps(l: Ledger, counterparty: Key, key: Id, accept: bool)
    requires Inv(l) && ResolveDispute(l, counterparty, key, accept).Ok?
    ensures Keeps(l, ResolveDispute(l, counterparty, key, accept).value)
  {
    hide Sum, PricePerToken, ModulesInv, SponsorshipsInv, BookingsInv, CancellationsInv, ProposalsInv, BallotsInv,
         GiftsInv;
    var w, l' := l.world, ResolveDispute(l, counterparty, key, accept).value;
    BookingAt(l, key);
    TouchKeeps(l, key, l'.bookings[key]);
    assert l' == l.(bookings := l.bookings[key := l'.bookings[key]]);
  }

  /** The five payments together add exactly what the escrow held, and only in its asset. */
  lemma PayOutTotal(cash: map<(Key, Key), nat>, asset: Key, pay: Payout, c: Key, o: Key, p: Key, e: Key, s: Key)
    ensures forall a :: Sum(PayOut(cash, asset, pay, c, o, p, e, s), HeldIn(a))
                        == Sum(cash, HeldIn(a)) + (if a == asset then pay.Total() else 0)
  {
    hide Sum;
    var c1 := Pay(cash, (asset, c), pay.creator);
    var c2 := Pay(c1, (asset, o), pay.operator);
    var c3 := Pay(c2, (asset, p), pay.protocol);
    var c4 := Pay(c3, (asset, e), pay.lecturer);
    CreditHeldIn(cash, (asset, c), pay.creator);
    CreditHeldIn(c1, (asset, o), pay.operator);
    CreditHeldIn(c2, (asset, p), pay.protocol);
    CreditHeldIn(c3, (asset, e), pay.lecturer);
    CreditHeldIn(c4, (asset, s), pay.refund);
  }

  /** Settling a booking keeps every record sound. */
  lemma SettleHolds(l: Ledger, now: i64, cranker: Key, key: Id)
    requires Inv(l) && FinalizeScore(l, now, cranker, key).Ok?
    ensures var w, l' := l.world, FinalizeScore(l, now, cranker, key).value;
            && ModulesInv(w.nextModule, w.regions, l'.modules, l'.sponsorships, l'.bookings)
            && SponsorshipsInv(w.nextModule, w.nextSponsor, w.decimals, l'.modules, l'.sponsorships, l'.bookings)
            && BookingsInv(w.nextBooking, l'.modules, l'.sponsorships, l'.bookings, l'.deliverers)
            && CancellationsInv(w.nextBooking, l'.bookings, l'.cancellations)
            && GiftsInv(w.nextSponsor, w.nextBooking, l'.sponsorships, l'.bookings, l'.proposals, l'.gifts)
  {
    hide Sum, PricePerToken, ModulesInv, SponsorshipsInv, BookingsInv, CancellationsInv, ProposalsInv, BallotsInv,
         GiftsInv, Split, PayOut, Delivered, Clamp;
    var w, l' := l.world, FinalizeScore(l, now, cranker, key).value;
    BookingAt(l, key);
    var b, m, id := l.bookings[key], l.modules[key.0], (key.0, l.bookings[key].sponsorId);
    var lecturer, b', s' := b.lecturer.value, l'.bookings[key], l'.sponsorships[id];
    var pay := Split(m.base.terms, w.decimals[b.asset], b.price, b.score.value, w.config.minImpactScore).value;
    SplitConserves(m.base.terms, w.decimals[b.asset], b.price, b.score.value, w.config.minImpactScore);
    SettleModules(w.nextModule, w.regions, l.modules, l.sponsorships, l.bookings, key, b');
    ModulesIgnoreHistory(w.nextModule, w.regions, l'.modules, l.sponsorships, l'.bookings, id, s');
    SettleSponsorships(w.nextModule, w.nextSponsor, w.decimals, l.modules, l.sponsorships, l.bookings, id, key, b',
                       pay.Paid(), pay.refund);
    SettleBookings(w.nextBooking, l.modules, l.sponsorships, l.bookings, l.deliverers,
                   key.0, l'.modules[key.0], id, s', key, b', lecturer, l'.deliverers[lecturer]);
    TouchCancellations(w.nextBooking, l.bookings, l.cancellations, key, b');
    GiftsKept(l, l');
  }

  lemma FinalizeScoreKeeps(l: Ledger, now: i64, cranker: Key, key: Id)
    requires Inv(l) && l.clock <= now && FinalizeScore(l, now, cranker, key).Ok?
    ensures Keeps(l, FinalizeScore(l, now, cranker, key).value)
  {
    hide Sum, PricePerToken, ModulesInv, SponsorshipsInv, BookingsInv, CancellationsInv, ProposalsInv, BallotsInv,
         GiftsInv, Split, PayOut, Clamp;
    var w, l' := l.world, FinalizeScore(l, now, cranker, key).value;
    SettleHolds(l, now, cranker, key);
    BookingAt(l, key);
    var b, m, id := l.bookings[key], l.modules[key.0], (key.0, l.bookings[key].sponsorId);
    var pay := Split(m.base.terms, w.decimals[b.asset], b.price, b.score.value, w.config.minImpactScore).value;
    SplitConserves(m.base.terms, w.decimals[b.asset], b.price, b.score.value, w.config.minImpactScore);
    SettleTotals(l.sponsorships, l.bookings, id, l'.sponsorships[id], key, l'.bookings[key]);
    PutModule(l.modules, key.0, l'.modules[key.0]);
    PutStanding(l.deliverers, b.lecturer.value, l'.deliverers[b.lecturer.value]);
    PayOutTotal(w.cash, b.asset, pay, m.base.creator, w.regions[m.base.region], w.config.protocolAuthority,
                b.lecturer.value, b.sponsor);
    LaterBallots(w.nextProposal, l.clock, now, l.proposals, ExpiryOf, l.ballots);
  }

  lemma FinishBookingKeeps(l: Ledger, key: Id)
    requires Inv(l) && FinishBooking(l, key).Ok?
    ensures Keeps(l, FinishBooking(l, key).value)
  {
    hide Sum, PricePerToken, ModulesInv, SponsorshipsInv, BookingsInv, CancellationsInv, ProposalsInv, BallotsInv,
         GiftsInv;
    var w, l' := l.world, FinishBooking(l, key).value;
    BookingAt(l, key);
    FinishModules(w.nextModule, w.regions, l.modules, l.sponsorships, l.bookings, key);
    FinishSponsorships(w.nextModule, w.nextSponsor, w.decimals, l.modules, l.sponsorships, l.bookings, key);
    FinishBookings(w.nextBooking, l.modules, l.sponsorships, l.bookings, l.deliverers, key);
    DropCancellations(w.nextBooking, l.bookings, l.cancellations, key);
    FinishTotals(l.bookings, key);
    CreditHeld(w.xcav, l.bookings[key].school, l.bookings[key].deposit);
    GiftsKept(l, l');
  }

  lemma RegisterDelivererKeeps(l: Ledger, lecturer: Key)
    requires Inv(l) && RegisterDeliverer(l, lecturer).Ok?
    ensures Keeps(l, RegisterDeliverer(l, lecturer).value)
  {
    hide Sum, PricePerToken, ModulesInv, SponsorshipsInv, BookingsInv, CancellationsInv, ProposalsInv, BallotsInv,
         GiftsInv;
    var w, l' := l.world, RegisterDeliverer(l, lecturer).value;
    var st := l'.deliverers[lecturer];
    var before := if lecturer in l.deliverers then l.deliverers[lecturer].deposit else 0;
    if st.deposit > before {
      DebitHeld(w.xcav, lecturer, st.deposit - before);
    }
    RegisterBookings(w.nextBooking, l.modules, l.sponsorships, l.bookings, l.deliverers, lecturer, st);
    PutStanding(l.deliverers, lecturer, st);
  }

  lemma UnregisterDelivererKeeps(l: Ledger, lecturer: Key)
    requires Inv(l) && UnregisterDeliverer(l, lecturer).Ok?
    ensures Keeps(l, UnregisterDeliverer(l, lecturer).value)
  {
    hide Sum, PricePerToken, ModulesInv, SponsorshipsInv, BookingsInv, CancellationsInv, ProposalsInv, BallotsInv,
         GiftsInv;
    var w, l' := l.world, UnregisterDeliverer(l, lecturer).value;
    UnregisterBookings(w.nextBooking, l.modules, l.sponsorships, l.bookings, l.deliverers, lecturer);
    DropStanding(l.deliverers, lecturer);
    CreditHeld(w.xcav, lecturer, l.deliverers[lecturer].deposit);
  }
}
