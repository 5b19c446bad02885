/**
 * What each instruction of the delivery side does to the ledger: modules, sponsorships, bookings and
 * lecturers. Counters, escrows and the vault do not appear; whatever they should hold is a sum.
 */
module DeliverySteps {
  import opened Machine
  import opened Pricing
  import opened Settlement
  import opened Wallets
  import opened EducationState
  import opened EducationLedger

  // ----- modules -----

  ghost function CreateModule(l: Ledger, creator: Key, region: u16, amount: u64): Result<Ledger> {
    var w, c := l.world, l.world.config;
    :- Need(w.HasRole(creator, ModuleCreator) && region in w.regions);
    :- Need(0 < amount <= c.maxModuleTokens && w.nextModule < U64_MAX);
    var xcav :- Debit(w.xcav, creator, c.moduleDeposit);
    var base := ModuleBase(creator, region, c.moduleDeposit, amount, c.terms);
    Ok(l.(world := w.(xcav := xcav, nextModule := w.nextModule + 1),
          modules := l.modules[w.nextModule := ModuleRecord(base, 0, 0)]))
  }

  ghost function BurnUnsponsored(l: Ledger, creator: Key, mid: nat, amount: u64): Result<Ledger> {
    var w := l.world;
    :- Need(mid in l.modules && l.modules[mid].base.creator == creator && w.HasRole(creator, ModuleCreator));
    :- Need(0 < amount <= l.SponsorAllocation(mid));
    Ok(l.(modules := l.modules[mid := l.modules[mid].(burned := l.modules[mid].burned + amount)]))
  }

  ghost function RemoveModule(l: Ledger, creator: Key, mid: nat): Result<Ledger> {
    var w := l.world;
    :- Need(mid in l.modules && l.modules[mid].base.creator == creator && w.HasRole(creator, ModuleCreator));
    :- Need(l.Supply(mid) == 0);
    Ok(l.(world := w.(xcav := Credit(w.xcav, creator, l.modules[mid].base.deposit)),
          modules := l.modules - {mid}))
  }

  // ----- sponsorships -----

  ghost function SponsorModule(l: Ledger, now: i64, sponsor: Key, mid: nat, amount: u64, asset: Key): Result<Ledger> {
    var w := l.world;
    :- Need(w.HasRole(sponsor, ModuleSponsor) && mid in l.modules);
    :- Need(asset in w.decimals && asset in w.config.acceptedAssets && asset in w.supported);
    :- Need(0 < amount <= l.SponsorAllocation(mid) && w.nextSponsor < U64_MAX);
    var price :- PricePerToken(l.modules[mid].base.terms, w.decimals[asset]);
    var total :- CheckedMul(price, amount, U64_MAX);
    var cash :- Debit(w.cash, (asset, sponsor), total);
    Ok(l.(clock := now,
          world := w.(cash := cash, nextSponsor := w.nextSponsor + 1),
          sponsorships := l.sponsorships[(mid, w.nextSponsor) :=
            Funding(Deal(sponsor, asset, amount, price, now), total, 0, 0, 0)]))
  }

  ghost function ReclaimSponsorship(l: Ledger, now: i64, sponsor: Key, id: Id, amount: u64): Result<Ledger> {
    var w := l.world;
    :- Need(id in l.sponsorships && l.sponsorships[id].deal.sponsor == sponsor);
    var s := l.sponsorships[id];
    :- Need(0 < amount <= s.deal.amount);
    :- Need(now > Clamp(s.deal.sponsoredAt + w.config.sponsorshipWindow));
    var refund := s.deal.price * amount;
    Ok(l.(clock := now,
          world := w.(cash := Credit(w.cash, (s.deal.asset, sponsor), refund)),
          sponsorships := l.sponsorships[id := s.Reclaim(amount)]))
  }

  ghost function CloseSponsorship(l: Ledger, sponsor: Key, id: Id): Result<Ledger> {
    var ss := l.sponsorships;
    :- Need(id in ss && ss[id].deal.sponsor == sponsor);
    :- Need(ss[id].deal.amount == 0 && l.ActiveBookings(id) == 0);
    Ok(l.(sponsorships := ss - {id}))
  }

  // ----- bookings -----

  ghost function BookModule(l: Ledger, now: i64, school: Key, id: Id, deliveryAt: i64): Result<Ledger> {
    var w, c := l.world, l.world.config;
    :- Need(w.HasRole(school, ModuleBooker) && id in l.sponsorships);
    var s := l.sponsorships[id];
    :- Need(s.deal.amount > 0 && l.ActiveBookings(id) < U32_MAX && w.nextBooking < U64_MAX);
    :- Need(now <= deliveryAt <= Clamp(now + c.maxDeliveryWindow));
    var xcav :- Debit(w.xcav, school, c.bookingDeposit);
    var b := Booking(id.1, s.deal.sponsor, school, None, s.deal.asset, s.deal.price,
                     None, None, false, None, None, c.bookingDeposit, deliveryAt);
    Ok(l.(clock := now,
          world := w.(xcav := xcav, nextBooking := w.nextBooking + 1),
          sponsorships := l.sponsorships[id := s.WithAmount(s.deal.amount - 1)],
          bookings := l.bookings[(id.0, w.nextBooking) := b]))
  }

  ghost function ClaimBooking(l: Ledger, now: i64, lecturer: Key, key: Id): Result<Ledger> {
    var c := l.world.config;
    :- Need(l.world.HasRole(lecturer, ModuleDeliverer) && lecturer in l.deliverers && key in l.bookings);
    var b := l.bookings[key];
    :- Need(b.lecturer.None? && b.school != lecturer);
    :- Need(c.strikeSlashBps <= 10000 && l.ActiveClaims(lecturer) < U32_MAX);
    :- Need(l.deliverers[lecturer].deposit >= c.SlashPerStrike() * (l.ActiveClaims(lecturer) + 1));
    Ok(l.(clock := now, bookings := l.bookings[key := b.(lecturer := Some(lecturer))]))
  }

  /** Put an unsettled booking's token and payment back with its sponsorship, and close the booking. */
  ghost function Unbook(l: Ledger, key: Id): Ledger
    requires key in l.bookings && (key.0, l.bookings[key].sponsorId) in l.sponsorships
  {
    var id := (key.0, l.bookings[key].sponsorId);
    var s := l.sponsorships[id];
    l.(sponsorships := l.sponsorships[id := s.WithAmount(s.deal.amount + 1)],
       bookings := l.bookings - {key})
  }

  /** The accounts an unscored booking is unwound with. */
  ghost predicate Unwindable(l: Ledger, key: Id) {
    && key in l.bookings && l.bookings[key].score.None?
    && (key.0, l.bookings[key].sponsorId) in l.sponsorships
    && (l.bookings[key].lecturer.Some? ==> l.bookings[key].lecturer.value in l.deliverers)
  }

  ghost function CancelBooking(l: Ledger, now: i64, school: Key, key: Id): Result<Ledger> {
    var w := l.world;
    :- Need(Unwindable(l, key) && l.bookings[key].school == school);
    :- Need(l.CancellationCount(school) < U32_MAX);
    var b := l.bookings[key];
    var slashed := l.CancellationCount(school) + 1 >= w.config.maxCancellations;
    var w' := if slashed then w.(treasury := w.treasury + b.deposit) else w.(xcav := Credit(w.xcav, school, b.deposit));
    Ok(Unbook(l, key).(clock := now, world := w',
                       cancellations := l.cancellations[(school, key.1) := Cancellation(key.0, now)]))
  }

  ghost function ClearOldCancellation(l: Ledger, now: i64, school: Key, bid: nat): Result<Ledger> {
    var w := l.world;
    :- Need((school, bid) in l.cancellations);
    :- Need(Clamp(now - l.cancellations[(school, bid)].createdAt) > w.config.cancellationWindow);
    Ok(l.(clock := now, cancellations := l.cancellations - {(school, bid)}))
  }

  ghost function CancelClaim(l: Ledger, lecturer: Key, key: Id): Result<Ledger> {
    var w, c := l.world, l.world.config;
    :- Need(w.HasRole(lecturer, ModuleDeliverer) && lecturer in l.deliverers && key in l.bookings);
    :- Need(l.bookings[key].lecturer == Some(lecturer) && l.bookings[key].score.None?);
    :- Need(c.strikeSlashBps <= 10000 && l.deliverers[lecturer].strikes < U8_MAX);
    var st := l.deliverers[lecturer];
    var strikes := st.strikes + 1;
    var slash := if strikes < c.maxStrikes then 0
                 else if c.SlashPerStrike() <= st.deposit then c.SlashPerStrike() else st.deposit;
    Ok(l.(world := w.(treasury := w.treasury + slash),
          deliverers := l.deliverers[lecturer := st.(strikes := strikes, deposit := st.deposit - slash)],
          bookings := l.bookings[key := l.bookings[key].(lecturer := None)]))
  }

  ghost function ExpireBooking(l: Ledger, now: i64, key: Id): Result<Ledger> {
    var w := l.world;
    :- Need(Unwindable(l, key));
    var b := l.bookings[key];
    :- Need(now > Clamp(b.deliveryAt + w.config.noShowGrace));
    Ok(Unbook(l, key).(clock := now, world := w.(xcav := Credit(w.xcav, b.school, b.deposit))))
  }

  // ----- scoring -----

  ghost function SubmitScore(l: Ledger, now: i64, agent: Key, key: Id, score: u16): Result<Ledger> {
    var w := l.world;
    :- Need(w.HasRole(agent, ModuleAIAgent) && key in l.bookings);
    var b := l.bookings[key];
    :- Need(score <= 10000 && b.lecturer.Some? && b.score.None? && now >= b.deliveryAt);
    Ok(l.(clock := now, bookings := l.bookings[key := b.(score := Some(score), scoreAt := Some(now))]))
  }

  ghost function DisputeScore(l: Ledger, now: i64, party: Key, key: Id, proposed: u16): Result<Ledger> {
    var w := l.world;
    :- Need(key in l.bookings && proposed <= 10000);
    var b := l.bookings[key];
    :- Need(!b.settled && b.scoreAt.Some? && b.disputer.None? && b.IsParty(party));
    :- Need(now < Clamp(b.scoreAt.value + w.config.disputeWindow));
    Ok(l.(clock := now, bookings := l.bookings[key := b.(disputer := Some(party), proposedScore := Some(proposed))]))
  }

  /** The party on the other side of whoever raised the dispute. */
  function Counterparty(b: Booking): Option<Key> {
    if b.disputer == Some(b.school) then b.lecturer else Some(b.school)
  }

  ghost function ResolveDispute(l: Ledger, counterparty: Key, key: Id, accept: bool): Result<Ledger> {
    var bs := l.bookings;
    :- Need(key in bs);
    var b := bs[key];
    :- Need(!b.settled && b.proposedScore.Some? && b.disputer.Some? && b.lecturer.Some?);
    :- Need(Counterparty(b) == Some(counterparty));
    var score := if accept then b.proposedScore else b.score;
    Ok(l.(bookings := bs[key := b.(score := score, proposedScore := None)]))
  }

  /** A delivery that scored well enough: one more success, and now and then one strike less. */
  function Delivered(st: Standing, c: Config): Result<Standing> {
    var n :- CheckedAdd(st.deliveries, 1, U32_MAX);
    var every := c.deliveriesPerStrikeReduction;
    Ok(st.(deliveries := n,
           strikes := if every > 0 && n % every == 0 then SaturatingSub(st.strikes, 1) else st.strikes))
  }

  /** The five payments of a settlement, in the order they are made. */
  function PayOut(cash: map<(Key, Key), nat>, asset: Key, pay: Payout,
                  creator: Key, operator: Key, protocol: Key, lecturer: Key, sponsor: Key): map<(Key, Key), nat>
  {
    Pay(Pay(Pay(Pay(Pay(cash, (asset, creator), pay.creator), (asset, operator), pay.operator),
                (asset, protocol), pay.protocol), (asset, lecturer), pay.lecturer), (asset, sponsor), pay.refund)
  }

  /** When a scored booking may be settled, and by whom. */
  ghost predicate MayFinalize(l: Ledger, now: i64, cranker: Key, b: Booking) {
    && !b.settled && b.lecturer.Some? && b.score.Some? && b.scoreAt.Some?
    && (var over := now >= Clamp(b.scoreAt.value + l.world.config.disputeWindow);
        && (b.proposedScore.Some? ==> over)
        && (over || b.IsParty(cranker) || b.disputer.Some?))
  }

  ghost function FinalizeScore(l: Ledger, now: i64, cranker: Key, key: Id): Result<Ledger> {
    var w, c := l.world, l.world.config;
    :- Need(key in l.bookings && key.0 in l.modules && MayFinalize(l, now, cranker, l.bookings[key]));
    var b, m := l.bookings[key], l.modules[key.0];
    var lecturer := b.lecturer.value;
    :- Need(lecturer in l.deliverers && m.base.region in w.regions && b.asset in w.decimals);
    var pay :- Split(m.base.terms, w.decimals[b.asset], b.price, b.score.value, c.minImpactScore);
    var standing :- if b.score.value >= c.minImpactScore then Delivered(l.deliverers[lecturer], c)
                    else Ok(l.deliverers[lecturer]);
    var id := (key.0, b.sponsorId);
    Ok(l.(clock := now,
          world := w.(cash := PayOut(w.cash, b.asset, pay, m.base.creator, w.regions[m.base.region],
                                     c.protocolAuthority, lecturer, b.sponsor)),
          modules := l.modules[key.0 := m.(delivered := m.delivered + 1)],
          deliverers := l.deliverers[lecturer := standing],
          sponsorships := if id !in l.sponsorships then l.sponsorships
                          else var s := l.sponsorships[id];
                            l.sponsorships[id := s.Settle(pay.Paid(), pay.refund)],
          bookings := l.bookings[key := b.(settled := true, proposedScore := None)]))
  }

  ghost function FinishBooking(l: Ledger, key: Id): Result<Ledger> {
    var w := l.world;
    :- Need(key in l.bookings && l.bookings[key].settled && (key.0, l.bookings[key].sponsorId) in l.sponsorships);
    var b := l.bookings[key];
    Ok(l.(world := w.(xcav := Credit(w.xcav, b.school, b.deposit)), bookings := l.bookings - {key}))
  }

  // ----- lecturers -----

  ghost function RegisterDeliverer(l: Ledger, lecturer: Key): Result<Ledger> {
    var w, required := l.world, l.world.config.delivererDeposit;
    :- Need(w.HasRole(lecturer, ModuleDeliverer));
    var st := if lecturer in l.deliverers then l.deliverers[lecturer] else Standing(0, 0, 0);
    var additional := SaturatingSub(required, st.deposit);
    var xcav :- if additional > 0 then Debit(w.xcav, lecturer, additional) else Ok(w.xcav);
    Ok(l.(world := w.(xcav := xcav), deliverers := l.deliverers[lecturer := st.(deposit := st.deposit + additional)]))
  }

  ghost function UnregisterDeliverer(l: Ledger, lecturer: Key): Result<Ledger> {
    var w := l.world;
    :- Need(lecturer in l.deliverers && l.ActiveClaims(lecturer) == 0);
    Ok(l.(world := w.(xcav := Credit(w.xcav, lecturer, l.deliverers[lecturer].deposit),
                      roles := w.roles - {(lecturer, ModuleDeliverer)}),
          deliverers := l.deliverers - {lecturer}))
  }
}
