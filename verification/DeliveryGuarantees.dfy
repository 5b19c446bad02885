/**
 * What parties can count on in every reachable state: exactly when a booking can be wound up and how it pays,
 * that it never gets stuck, and what a sponsorship, a module and a school's cancellations depend on.
 */
module DeliveryGuarantees {
  import opened Machine
  import opened Pricing
  import opened Settlement
  import opened Sums
  import opened Wallets
  import opened EducationState
  import opened EducationLedger
  import opened LedgerSums
  import opened EducationAccounts
  import opened DeliveryProofs
  import opened DeliverySteps
  import Runs = EducationRuns

  // ----- winding up a booking -----

  /** One wallet gains this much XCAV, and no other changes. */
  ghost predicate Gains(l: Ledger, l': Ledger, k: Key, n: nat) {
    forall j: Key :: Balance(l'.world.xcav, j) == Balance(l.world.xcav, j) + When(j == k, n)
  }

  /** An unscored booking past its grace can always be expired: nothing else can get in the way. */
  lemma ExpireIff(l: Ledger, now: i64, key: Id)
    requires Inv(l)
    ensures ExpireBooking(l, now, key).Ok? <==>
              key in l.bookings && l.bookings[key].score.None?
              && now > Clamp(l.bookings[key].deliveryAt + l.world.config.noShowGrace)
    ensures ExpireBooking(l, now, key).Ok? ==>
              var l' := ExpireBooking(l, now, key).value;
              key !in l'.bookings && Gains(l, l', l.bookings[key].school, l.bookings[key].deposit)
  {
    hide Sum, PricePerToken, Inv, FundingBalances;
    BookingAt(l, key);
  }

  /** There is a time at which it can, exactly when its grace does not run to the end of time. */
  lemma ExpirableSomeday(l: Ledger, key: Id)
    requires Inv(l) && key in l.bookings
    ensures (exists now: i64 :: ExpireBooking(l, now, key).Ok?)
            <==> l.bookings[key].score.None? && l.bookings[key].deliveryAt + l.world.config.noShowGrace < I64_MAX
  {
    hide Sum, Inv, ExpireBooking;
    forall now: i64
      ensures ExpireBooking(l, now, key).Ok? <==>
                l.bookings[key].score.None? && now > Clamp(l.bookings[key].deliveryAt + l.world.config.noShowGrace)
    {
      ExpireIff(l, now, key);
    }
    var last: i64 := I64_MAX;
    assert ExpireBooking(l, last, key).Ok? <==>
        l.bookings[key].score.None? && last > Clamp(l.bookings[key].deliveryAt + l.world.config.noShowGrace);
  }

  /** A settled booking can always be finished, which returns the school's deposit. */
  lemma FinishIff(l: Ledger, key: Id)
    requires Inv(l)
    ensures FinishBooking(l, key).Ok? <==> key in l.bookings && l.bookings[key].settled
    ensures FinishBooking(l, key).Ok? ==>
              var l' := FinishBooking(l, key).value;
              key !in l'.bookings && Gains(l, l', l.bookings[key].school, l.bookings[key].deposit)
  {
    hide Sum, PricePerToken, Inv, FundingBalances;
    BookingAt(l, key);
  }

  /** A booking is settled on the frozen terms of its module: the price in escrow is the price they quote. */
  lemma SettlementExact(l: Ledger, key: Id, score: u16)
    requires Inv(l) && key in l.bookings && !l.bookings[key].settled && score <= 10000
    ensures key.0 in l.modules && l.bookings[key].asset in l.world.decimals
    ensures var b, terms := l.bookings[key], l.modules[key.0].base.terms;
            var decimals, minimum := l.world.decimals[b.asset], l.world.config.minImpactScore;
            var pay := Split(terms, decimals, b.price, score, minimum);
            && pay.Ok? && pay.value.Total() == b.price
            && PartsOf(Base(terms, decimals), terms.fees).Ok?
            && (score < minimum ==> pay.value == Payout(0, 0, 0, 0, b.price))
            && (score >= minimum ==>
                  IsScoredPayout(Base(terms, decimals), PartsOf(Base(terms, decimals), terms.fees).value, score,
                                 pay.value))
  {
    hide Sum, PricePerToken, Inv, FundingBalances, IsScoredPayout;
    BookingAt(l, key);
    BookingPriced(l, key);
    SplitExact(l.modules[key.0].base.terms, l.world.decimals[l.bookings[key].asset], score,
               l.world.config.minImpactScore);
  }

  /**
   * A scored booking can be settled exactly when its window or its parties allow it; the one thing that can
   * ever stop a payment is a lecturer whose count of deliveries is at the end of its range.
   */
  lemma FinalizeIff(l: Ledger, now: i64, cranker: Key, key: Id)
    requires Inv(l)
    ensures FinalizeScore(l, now, cranker, key).Ok? <==>
              && key in l.bookings && MayFinalize(l, now, cranker, l.bookings[key])
              && (l.bookings[key].score.value >= l.world.config.minImpactScore ==>
                    l.bookings[key].lecturer.value in l.deliverers
                    && l.deliverers[l.bookings[key].lecturer.value].deliveries < U32_MAX)
    ensures FinalizeScore(l, now, cranker, key).Ok? ==>
              key in FinalizeScore(l, now, cranker, key).value.bookings
              && FinalizeScore(l, now, cranker, key).value.bookings[key].settled
  {
    hide Sum, PricePerToken, Inv, FundingBalances, Split, PayOut, MayFinalize;
    BookingAt(l, key);
    ModuleAt(l, key.0);
    if key in l.bookings && MayFinalize(l, now, cranker, l.bookings[key]) {
      Finalizable(l, now, cranker, key);
      SettlementExact(l, key, l.bookings[key].score.value);
    }
  }

  lemma Finalizable(l: Ledger, now: i64, cranker: Key, key: Id)
    requires key in l.bookings && MayFinalize(l, now, cranker, l.bookings[key])
    ensures var b := l.bookings[key]; !b.settled && b.lecturer.Some? && b.score.Some?
  {
  }

  /** What each wallet gains when a booking is settled: its parties' shares, in the booking's asset, and no more. */
  ghost function Gain(l: Ledger, key: Id, pay: Payout, asset: Key, k: Key): nat
    requires key in l.bookings && key.0 in l.modules && l.modules[key.0].base.region in l.world.regions
  {
    var b, m := l.bookings[key], l.modules[key.0].base;
    if asset != b.asset then 0
    else
      When(k == m.creator, pay.creator) + When(k == l.world.regions[m.region], pay.operator)
      + When(k == l.world.config.protocolAuthority, pay.protocol) + When(Some(k) == b.lecturer, pay.lecturer)
      + When(k == b.sponsor, pay.refund)
  }

  /** Settling pays the creator, the region's operator, the protocol, the lecturer and the sponsor their shares. */
  lemma SettlementPaysEveryone(l: Ledger, now: i64, cranker: Key, key: Id)
    requires Inv(l) && FinalizeScore(l, now, cranker, key).Ok?
    ensures key in l.bookings && key.0 in l.modules && l.modules[key.0].base.region in l.world.regions
    ensures l.bookings[key].asset in l.world.decimals && l.bookings[key].score.Some?
    ensures var b := l.bookings[key];
            var pay := Split(l.modules[key.0].base.terms, l.world.decimals[b.asset], b.price, b.score.value,
                             l.world.config.minImpactScore);
            && pay.Ok?
            && forall asset: Key, k: Key :: Balance(FinalizeScore(l, now, cranker, key).value.world.cash, (asset, k))
                                            == Balance(l.world.cash, (asset, k)) + Gain(l, key, pay.value, asset, k)
  {
    hide Sum, PricePerToken, Inv, Split, PayOut;
    var b, m := l.bookings[key], l.modules[key.0].base;
    var pay := Split(m.terms, l.world.decimals[b.asset], b.price, b.score.value, l.world.config.minImpactScore).value;
    PayOutGains(l.world.cash, b.asset, pay, m.creator, l.world.regions[m.region], l.world.config.protocolAuthority,
                b.lecturer.value, b.sponsor);
  }

  lemma PayOutGains(cash: map<(Key, Key), nat>, asset: Key, pay: Payout, creator: Key, operator: Key, protocol: Key,
                    lecturer: Key, sponsor: Key)
    ensures forall a: Key, k: Key ::
              Balance(PayOut(cash, asset, pay, creator, operator, protocol, lecturer, sponsor), (a, k))
              == Balance(cash, (a, k))
                 + if a != asset then 0
                   else When(k == creator, pay.creator) + When(k == operator, pay.operator)
                        + When(k == protocol, pay.protocol) + When(k == lecturer, pay.lecturer)
                        + When(k == sponsor, pay.refund)
  {
    var c1 := Pay(cash, (asset, creator), pay.creator);
    var c2 := Pay(c1, (asset, operator), pay.operator);
    var c3 := Pay(c2, (asset, protocol), pay.protocol);
    var c4 := Pay(c3, (asset, lecturer), pay.lecturer);
    PayGains(cash, (asset, creator), pay.creator);
    PayGains(c1, (asset, operator), pay.operator);
    PayGains(c2, (asset, protocol), pay.protocol);
    PayGains(c3, (asset, lecturer), pay.lecturer);
    PayGains(c4, (asset, sponsor), pay.refund);
    hide Pay, Balance;
  }

  lemma PayGains(m: map<(Key, Key), nat>, to: (Key, Key), n: nat)
    ensures forall k: (Key, Key) :: Balance(Pay(m, to, n), k) == Balance(m, k) + When(k == to, n)
  {
  }

  /** The steps that wind a booking up at a time past every deadline of it. */
  ghost function WayOut(l: Ledger, key: Id, late: i64, anyone: Key): seq<Runs.Tx>
    requires key in l.bookings
  {
    var finish := Runs.Tx(late, Runs.Deliver(Runs.FinishBooking(key)));
    if l.bookings[key].score.None? then [Runs.Tx(late, Runs.Deliver(Runs.ExpireBooking(key)))]
    else if l.bookings[key].settled then [finish]
    else [Runs.Tx(late, Runs.Deliver(Runs.FinalizeScore(anyone, key))), finish]
  }

  /**
   * No booking is ever stuck: past its deadlines anyone can wind it up in at most two steps, with whatever
   * configuration is then in force, unless a lecturer's count of deliveries has run out.
   */
  lemma NeverStuck(l: Ledger, key: Id, late: i64, anyone: Key)
    requires Inv(l) && l.clock <= late && key in l.bookings
    requires var b := l.bookings[key];
             if b.score.None? then late > Clamp(b.deliveryAt + l.world.config.noShowGrace)
             else b.scoreAt.Some? && late >= Clamp(b.scoreAt.value + l.world.config.disputeWindow)
    requires var b := l.bookings[key];
             b.score.Some? && b.score.value >= l.world.config.minImpactScore && b.lecturer.Some?
                && b.lecturer.value in l.deliverers ==>
               l.deliverers[b.lecturer.value].deliveries < U32_MAX
    ensures key !in Runs.Run(l, WayOut(l, key, late, anyone)).bookings
    ensures |WayOut(l, key, late, anyone)| <= 2
  {
    hide Sum, PricePerToken, Inv, FinalizeScore, ExpireBooking, FinishBooking, FundingBalances, Keeps, Clamp, Gains,
         Runs.Run;
    var b := l.bookings[key];
    BookingAt(l, key);
    var finish := Runs.Tx(late, Runs.Deliver(Runs.FinishBooking(key)));
    if b.score.None? {
      ExpireIff(l, late, key);
      OneStep(l, Runs.Tx(late, Runs.Deliver(Runs.ExpireBooking(key))));
    } else if b.settled {
      FinishIff(l, key);
      OneStep(l, finish);
    } else {
      var settle := Runs.Tx(late, Runs.Deliver(Runs.FinalizeScore(anyone, key)));
      FinalizeIff(l, late, anyone, key);
      FinalizeScoreKeepsInv(l, late, anyone, key);
      var l' := FinalizeScore(l, late, anyone, key).value;
      FinishIff(l', key);
      TwoSteps(l, settle, finish);
    }
  }

  lemma FinalizeScoreKeepsInv(l: Ledger, now: i64, cranker: Key, key: Id)
    requires Inv(l) && l.clock <= now && FinalizeScore(l, now, cranker, key).Ok?
    ensures Inv(FinalizeScore(l, now, cranker, key).value)
  {
    hide Inv, FinalizeScore;
    FinalizeScoreKeeps(l, now, cranker, key);
  }

  lemma OneStep(l: Ledger, tx: Runs.Tx)
    ensures Runs.Run(l, [tx]) == Runs.Apply(l, tx)
  {
    hide Runs.Apply;
    assert [tx][..0] == [];
  }

  lemma TwoSteps(l: Ledger, a: Runs.Tx, b: Runs.Tx)
    ensures Runs.Run(l, [a, b]) == Runs.Apply(Runs.Apply(l, a), b)
  {
    hide Runs.Apply;
    OneStep(l, a);
    assert [a, b][..1] == [a];
  }

  // ----- what lifetimes depend on -----

  /** A sponsorship can be closed exactly when no token is left on it and no booking draws on it. */
  lemma CloseIff(l: Ledger, sponsor: Key, id: Id)
    requires Inv(l)
    ensures CloseSponsorship(l, sponsor, id).Ok? <==>
              && id in l.sponsorships && l.sponsorships[id].deal.sponsor == sponsor
              && l.sponsorships[id].deal.amount == 0
              && forall key :: key in l.bookings ==> (key.0, l.bookings[key].sponsorId) != id
  {
    hide Sum, PricePerToken, Inv;
    SumZero(l.bookings, OnSponsorship(id));
    assert forall key :: key in l.bookings ==>
        OnSponsorship(id)(key, l.bookings[key]) == When((key.0, l.bookings[key].sponsorId) == id, 1);
  }

  /** A module can be removed exactly when nothing of it can be sponsored, booked or delivered any more. */
  lemma RemoveIff(l: Ledger, creator: Key, mid: nat)
    requires Inv(l)
    ensures RemoveModule(l, creator, mid).Ok? <==>
              && mid in l.modules && l.modules[mid].base.creator == creator && l.world.HasRole(creator, ModuleCreator)
              && l.SponsorAllocation(mid) == 0
              && (forall id :: id in l.sponsorships && id.0 == mid ==> l.sponsorships[id].deal.amount == 0)
              && (forall key :: key in l.bookings && key.0 == mid ==> l.bookings[key].settled)
    ensures RemoveModule(l, creator, mid).Ok? ==>
            Gains(l, RemoveModule(l, creator, mid).value, creator, l.modules[mid].base.deposit)
  {
    hide Sum, PricePerToken, Inv;
    ModuleAt(l, mid);
    var ss, bs := l.sponsorships, l.bookings;
    SumZero(ss, Pledged(mid));
    SumZero(bs, Unclaimed(mid));
    SumZero(bs, InFlight(mid));
    assert forall id :: id in ss ==> Pledged(mid)(id, ss[id]) == When(id.0 == mid, ss[id].deal.amount);
    assert forall key :: key in bs ==> Unclaimed(mid)(key, bs[key]) == When(key.0 == mid && bs[key].lecturer.None?, 1);
    assert forall key :: key in bs ==>
        InFlight(mid)(key, bs[key]) == When(key.0 == mid && bs[key].lecturer.Some? && !bs[key].settled, 1);
    SettledHasLecturer(l, mid);
  }

  lemma SettledHasLecturer(l: Ledger, mid: nat)
    requires Inv(l)
    ensures forall key :: key in l.bookings && l.bookings[key].settled ==> l.bookings[key].lecturer.Some?
  {
    hide Sum, PricePerToken, Inv, FundingBalances;
    forall key | key in l.bookings && l.bookings[key].settled
      ensures l.bookings[key].lecturer.Some?
    {
      BookingAt(l, key);
    }
  }

  // ----- every counter is the number of records it stands for -----

  lemma StudentAllocationCounts(l: Ledger, mid: nat)
    ensures l.StudentAllocation(mid) == |set key | key in l.bookings && key.0 == mid && l.bookings[key].lecturer.None?|
  {
    hide Sum;
    SumCounts(l.bookings, Unclaimed(mid),
              set key | key in l.bookings && key.0 == mid && l.bookings[key].lecturer.None?);
  }

  lemma ActiveBookingsCount(l: Ledger, id: Id)
    ensures l.ActiveBookings(id) == |set key | key in l.bookings && key.0 == id.0 && l.bookings[key].sponsorId == id.1|
  {
    hide Sum;
    var drawn := set key | key in l.bookings && key.0 == id.0 && l.bookings[key].sponsorId == id.1;
    forall key | key in l.bookings
      ensures OnSponsorship(id)(key, l.bookings[key]) == if key in drawn then 1 else 0
    {
      var b := l.bookings[key];
      assert OnSponsorship(id)(key, b) == When(key.0 == id.0 && b.sponsorId == id.1, 1);
      assert key in drawn <==> key.0 == id.0 && b.sponsorId == id.1;
    }
    SumCounts(l.bookings, OnSponsorship(id), drawn);
  }

  lemma ActiveClaimsCount(l: Ledger, lecturer: Key)
    ensures l.ActiveClaims(lecturer)
            == |set key | key in l.bookings && l.bookings[key].lecturer == Some(lecturer) && !l.bookings[key].settled|
  {
    hide Sum;
    SumCounts(l.bookings, HeldBy(lecturer),
              set key | key in l.bookings && l.bookings[key].lecturer == Some(lecturer) && !l.bookings[key].settled);
  }

  lemma CancellationsCount(l: Ledger, school: Key)
    ensures l.CancellationCount(school) == |set c | c in l.cancellations && c.0 == school|
  {
    hide Sum;
    SumCounts(l.cancellations, CancelledBy(school), set c | c in l.cancellations && c.0 == school);
  }

  /** A lecturer can leave exactly when no claim of theirs is open, and then takes the whole deposit along. */
  lemma LeaveIff(l: Ledger, lecturer: Key)
    requires Inv(l)
    ensures UnregisterDeliverer(l, lecturer).Ok? <==>
              && lecturer in l.deliverers
              && forall key :: key in l.bookings && l.bookings[key].lecturer == Some(lecturer) ==>
                   l.bookings[key].settled
    ensures UnregisterDeliverer(l, lecturer).Ok? ==>
              Gains(l, UnregisterDeliverer(l, lecturer).value, lecturer, l.deliverers[lecturer].deposit)
  {
    hide Sum, Inv;
    SumZero(l.bookings, HeldBy(lecturer));
    assert forall key :: key in l.bookings ==>
        HeldBy(lecturer)(key, l.bookings[key]) == When(l.bookings[key].lecturer == Some(lecturer)
                                                       && !l.bookings[key].settled, 1);
  }

  /** A school loses its deposit exactly when this cancellation fills the count of those still on record. */
  lemma CancelSlashes(l: Ledger, now: i64, school: Key, key: Id)
    requires Inv(l) && CancelBooking(l, now, school, key).Ok?
    ensures var l', deposit := CancelBooking(l, now, school, key).value, l.bookings[key].deposit;
            var live := |set c | c in l.cancellations && c.0 == school|;
            var slashed := live + 1 >= l.world.config.maxCancellations;
            && l'.world.treasury == l.world.treasury + (if slashed then deposit else 0)
            && Balance(l'.world.xcav, school) == Balance(l.world.xcav, school) + (if slashed then 0 else deposit)
            && |set c | c in l'.cancellations && c.0 == school| == live + 1
  {
    hide Sum, PricePerToken, Inv;
    var l' := CancelBooking(l, now, school, key).value;
    CancellationsCount(l, school);
    CancellationsCount(l', school);
    FreshCancellation(l, key, school);
    PutCancellation(l.cancellations, (school, key.1), Cancellation(key.0, now));
  }

  // ----- the stored accounts add up -----

  /** The bookings of a module that are claimed and not settled: their tokens are in nobody's allocation. */
  ghost function BeingDelivered(bs: map<Id, Booking>, mid: nat): set<Id> {
    set key | key in bs && key.0 == mid && bs[key].lecturer.Some? && !bs[key].settled
  }

  /** A module's tokens are in its vault, burned or delivered; those in the vault are in an allocation or on the way. */
  lemma TokensAccountedFor(accounts: ModuleAccounts, vaults: map<nat, nat>, l: Ledger, mid: nat)
    requires ModulesMatch(accounts, vaults, l.modules, l.sponsorships, l.bookings)
    ensures mid in accounts ==> mid in vaults && mid in l.modules
    ensures mid in accounts ==>
              var a, m := accounts[mid], l.modules[mid];
              && a.base.total == vaults[mid] + m.burned + m.delivered
              && vaults[mid]
                 == a.sponsorAllocation + a.schoolAllocation + a.studentAllocation + |BeingDelivered(l.bookings, mid)|
              && a.schoolAllocation == Sum(l.sponsorships, Pledged(mid))
              && a.studentAllocation == |set key | key in l.bookings && key.0 == mid && l.bookings[key].lecturer.None?|
  {
    hide Sum, ModulesMatch;
    ModuleStored(accounts, vaults, l.modules, l.sponsorships, l.bookings, mid);
    forall key | key in l.bookings
      ensures InFlight(mid)(key, l.bookings[key]) == if key in BeingDelivered(l.bookings, mid) then 1 else 0
    {
      var b := l.bookings[key];
      assert InFlight(mid)(key, b) == When(key.0 == mid && b.lecturer.Some? && !b.settled, 1);
    }
    SumCounts(l.bookings, InFlight(mid), BeingDelivered(l.bookings, mid));
    StudentAllocationCounts(l, mid);
  }

  ghost function UnsettledFrom(bs: map<Id, Booking>, id: Id): set<Id> {
    set key | key in bs && key.0 == id.0 && bs[key].sponsorId == id.1 && !bs[key].settled
  }

  /**
   * The money of a sponsorship is in its escrow, in the escrows of its bookings, or has left as recorded; whatever
   * else its escrow holds was sent there unasked.
   */
  lemma FundsAccountedFor(accounts: SponsorshipAccounts, escrows: map<Id, nat>, l: Ledger, id: Id)
    requires SponsorshipsMatch(accounts, l.sponsorships, l.bookings) && Inv(l)
    requires SponsorEscrowsMatch(escrows, l.sponsorships, l.gifts)
    ensures id in accounts ==> id in escrows && id in l.sponsorships
    ensures id in accounts ==>
              var a, s := accounts[id], l.sponsorships[id];
              && escrows[id] == a.deal.amount * a.deal.price + GiftIn(l.gifts, OfSponsorship(id))
              && s.funded + GiftIn(l.gifts, OfSponsorship(id))
                 == escrows[id] + |UnsettledFrom(l.bookings, id)| * a.deal.price + s.reclaimed + s.paidOut + s.refunded
              && a.activeBookings == |set key | key in l.bookings && key.0 == id.0 && l.bookings[key].sponsorId == id.1|
  {
    hide Sum, SponsorshipsMatch, SponsorEscrowsMatch, Inv, PricePerToken, GiftIn;
    SponsorEscrowStored(escrows, l.sponsorships, l.gifts, id);
    SponsorshipStored(accounts, l.sponsorships, l.bookings, id);
    SponsorshipAt(l, id);
    forall key | key in l.bookings
      ensures UnsettledOn(id)(key, l.bookings[key]) == if key in UnsettledFrom(l.bookings, id) then 1 else 0
    {
      var b := l.bookings[key];
      assert UnsettledOn(id)(key, b) == When(key.0 == id.0 && b.sponsorId == id.1 && !b.settled, 1);
    }
    SumCounts(l.bookings, UnsettledOn(id), UnsettledFrom(l.bookings, id));
    ActiveBookingsCount(l, id);
    if id in accounts {
      SplitFunds(l.sponsorships[id].deal.price, l.sponsorships[id].deal.amount, |UnsettledFrom(l.bookings, id)|);
    }
  }

  lemma SplitFunds(price: nat, amount: nat, unsettled: nat)
    ensures price * (amount + unsettled) == amount * price + unsettled * price
  {
  }
}
