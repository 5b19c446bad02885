/**
 * The education program: one object holding every account, and one method per instruction. An instruction
 * works on its own copy of the accounts and commits it only at the end, so one that fails leaves everything
 * as it was. Nothing here ever recomputes a sum: balances and counters only move. An `assert` of a bound
 * stands for a check the program makes that is proved never to fail; the ones that can are `:-`.
 */
module EducationProgram {
  import opened Machine
  import opened Pricing
  import opened Settlement
  import opened Sums
  import opened Wallets
  import opened Voting
  import opened EducationState
  import opened EducationLedger
  import opened EducationAccounts
  import opened DeliveryProofs
  import opened GovernanceProofs
  import Delivery = DeliverySteps
  import Governance = GovernanceSteps

  /** The instruction succeeds exactly when the ledger's does, and then does the same to the records. */
  ghost predicate Follows(r: Result<()>, before: Ledger, after: Ledger, step: Result<Ledger>) {
    r.Ok? == step.Ok? && after == (if step.Ok? then step.value else before)
  }

  class Education {
    var world: World
    var accounts: Accounts
    ghost var ledger: Ledger

    ghost predicate Valid()
      reads this
    {
      Stored(world, accounts, ledger)
    }

    /** A program set up under a valid configuration, with no accounts yet and all XCAV in wallets and the treasury. */
    constructor (w: World)
      requires w.config.Valid() && w.nextModule == w.nextSponsor == w.nextBooking == w.nextProposal == 0
      requires Sum(w.xcav, Held()) + w.treasury <= U64_MAX
      ensures Valid() && world == w
      ensures ledger == Ledger(w, I64_MIN, map[], map[], map[], map[], map[], map[], map[], map[], 0)
    {
      world := w;
      accounts := Accounts(0, map[], map[], map[], map[], map[], map[], map[], map[], map[], map[], map[], map[]);
      ledger := Ledger(w, I64_MIN, map[], map[], map[], map[], map[], map[], map[], map[], 0);
    }

    // ----- modules -----

    method CreateModule(creator: Key, region: u16, amount: u64) returns (r: Result<()>)
      requires Valid()
      modifies this
      ensures Valid()
      ensures Follows(r, old(ledger), ledger, Delivery.CreateModule(old(ledger), creator, region, amount))
    {
      hide Sum, PricePerToken, Ledger.VaultOwed, Ledger.CashTotal, Unsponsored, ModulesInv, SponsorshipsInv,
           BookingsInv, CancellationsInv, ProposalsInv, BallotsInv, GiftsInv, ModulesMatch, SponsorshipsMatch,
           SponsorEscrowsMatch, BookingEscrowsMatch, DeliverersMatch, CountersMatch, ProposalsMatch, PreSponsorsMatch,
           VotesMatch;
      ghost var l := ledger;
      var w, a, c := world, accounts, world.config;
      :- Need(w.HasRole(creator, ModuleCreator) && region in w.regions);
      :- Need(0 < amount <= c.maxModuleTokens);
      var mid := w.nextModule;
      var xcav :- Debit(w.xcav, creator, c.moduleDeposit);
      var next :- CheckedAdd(mid, 1, U64_MAX);
      var base := ModuleBase(creator, region, c.moduleDeposit, amount, c.terms);

      CreateModuleKeeps(l, creator, region, amount);
      DebitHeld(w.xcav, creator, c.moduleDeposit);
      CreateModulesMatch(a.modules, a.moduleVaults, mid, w.regions, w.nextBooking, w.nextSponsor, w.decimals,
                         l.modules, l.sponsorships, l.bookings, l.deliverers, base);

      a := a.(vault := a.vault + c.moduleDeposit,
              modules := a.modules[mid := ModuleAccount(base, amount, 0, 0)],
              moduleVaults := a.moduleVaults[mid := amount]);
      w := w.(xcav := xcav, nextModule := next);
      world, accounts, ledger := w, a, Delivery.CreateModule(l, creator, region, amount).value;
      return Ok(());
    }

    method BurnUnsponsored(creator: Key, mid: nat, amount: u64) returns (r: Result<()>)
      requires Valid()
      modifies this
      ensures Valid()
      ensures Follows(r, old(ledger), ledger, Delivery.BurnUnsponsored(old(ledger), creator, mid, amount))
    {
      hide Sum, PricePerToken, Inv, Ledger.VaultOwed, Ledger.CashTotal, Unsponsored, ModulesMatch, SponsorshipsMatch,
           SponsorEscrowsMatch, BookingEscrowsMatch, DeliverersMatch, CountersMatch, ProposalsMatch, PreSponsorsMatch,
           VotesMatch;
      ghost var l := ledger;
      var w, a := world, accounts;
      ModuleStored(a.modules, a.moduleVaults, l.modules, l.sponsorships, l.bookings, mid);
      :- Need(mid in a.modules && mid in a.moduleVaults);
      var m := a.modules[mid];
      :- Need(m.base.creator == creator && w.HasRole(creator, ModuleCreator));
      :- Need(0 < amount <= m.sponsorAllocation);

      BurnUnsponsoredKeeps(l, creator, mid, amount);
      BurnModulesMatch(a.modules, a.moduleVaults, l.modules, l.sponsorships, l.bookings, mid, amount);

      a := a.(moduleVaults := a.moduleVaults[mid := a.moduleVaults[mid] - amount]);
      a := a.(modules := a.modules[mid := m.(sponsorAllocation := m.sponsorAllocation - amount)]);
      accounts, ledger := a, Delivery.BurnUnsponsored(l, creator, mid, amount).value;
      return Ok(());
    }

    method RemoveModule(creator: Key, mid: nat) returns (r: Result<()>)
      requires Valid()
      modifies this
      ensures Valid()
      ensures Follows(r, old(ledger), ledger, Delivery.RemoveModule(old(ledger), creator, mid))
    {
      hide Sum, PricePerToken, Inv, Ledger.VaultOwed, Ledger.CashTotal, Unsponsored, ModulesMatch, SponsorshipsMatch,
           SponsorEscrowsMatch, BookingEscrowsMatch, DeliverersMatch, CountersMatch, ProposalsMatch, PreSponsorsMatch,
           VotesMatch;
      ghost var l := ledger;
      var w, a := world, accounts;
      ModuleStored(a.modules, a.moduleVaults, l.modules, l.sponsorships, l.bookings, mid);
      ModuleStaked(l, mid);
      :- Need(mid in a.modules && mid in a.moduleVaults);
      var m := a.modules[mid];
      :- Need(m.base.creator == creator && w.HasRole(creator, ModuleCreator));
      :- Need(a.moduleVaults[mid] == 0);

      RemoveModuleKeeps(l, creator, mid);
      CreditHeld(w.xcav, creator, m.base.deposit);
      RemoveModulesMatch(a.modules, a.moduleVaults, l.modules, l.sponsorships, l.bookings, mid);

      w := w.(xcav := Credit(w.xcav, creator, m.base.deposit));
      a := a.(vault := a.vault - m.base.deposit, modules := a.modules - {mid}, moduleVaults := a.moduleVaults - {mid});
      world, accounts, ledger := w, a, Delivery.RemoveModule(l, creator, mid).value;
      return Ok(());
    }

    // ----- sponsorships -----

    method SponsorModule(now: i64, sponsor: Key, mid: nat, amount: u64, asset: Key) returns (r: Result<()>)
      requires Valid() && ledger.clock <= now
      modifies this
      ensures Valid()
      ensures Follows(r, old(ledger), ledger, Delivery.SponsorModule(old(ledger), now, sponsor, mid, amount, asset))
    {
      hide Sum, PricePerToken, Ledger.VaultOwed, Ledger.CashTotal, Unsponsored, ModulesInv, SponsorshipsInv,
           BookingsInv, CancellationsInv, ProposalsInv, BallotsInv, GiftsInv, ModulesMatch, SponsorshipsMatch,
           SponsorEscrowsMatch, BookingEscrowsMatch, DeliverersMatch, CountersMatch, ProposalsMatch, PreSponsorsMatch,
           VotesMatch, GiftIn, Balance, Debit, Clamp;
      ghost var l := ledger;
      var w, a := world, accounts;
      ModuleStored(a.modules, a.moduleVaults, l.modules, l.sponsorships, l.bookings, mid);
      FreshSponsorship(l, mid);
      :- Need(w.HasRole(sponsor, ModuleSponsor) && mid in a.modules);
      :- Need(asset in w.decimals && asset in w.config.acceptedAssets);
      :- Need(asset in w.supported);
      var m, id := a.modules[mid], (mid, w.nextSponsor);
      :- Need(0 < amount <= m.sponsorAllocation);
      var price :- PricePerToken(m.base.terms, w.decimals[asset]);
      var total :- CheckedMul(price, amount, U64_MAX);
      var cash :- Debit(w.cash, (asset, sponsor), total);
      assert m.schoolAllocation + amount <= U64_MAX;
      var next :- CheckedAdd(w.nextSponsor, 1, U64_MAX);

      ghost var s := Funding(Deal(sponsor, asset, amount, price, now), total, 0, 0, 0);
      SponsorModuleKeeps(l, now, sponsor, mid, amount, asset);
      FundModulesMatch(a.modules, a.moduleVaults, l.modules, l.sponsorships, l.bookings, id, s);
      FundSponsorshipsMatch(a.sponsorships, l.sponsorships, l.bookings,
                            w.nextBooking, l.modules, l.deliverers, id, s);
      GiftAt(l, OfSponsorship(id));
      PutSponsorEscrow(a.sponsorEscrows, l.sponsorships, l.gifts, id, s);

      w := w.(cash := cash, nextSponsor := next);
      a := a.(sponsorEscrows := a.sponsorEscrows[id := total]);
      a := a.(modules := a.modules[mid := m.(sponsorAllocation := m.sponsorAllocation - amount,
                                             schoolAllocation := m.schoolAllocation + amount)]);
      a := a.(sponsorships := a.sponsorships[id := SponsorshipAccount(Deal(sponsor, asset, amount, price, now), 0)]);
      world, accounts, ledger := w, a, Delivery.SponsorModule(l, now, sponsor, mid, amount, asset).value;
      return Ok(());
    }

    method ReclaimSponsorship(now: i64, sponsor: Key, id: Id, amount: u64) returns (r: Result<()>)
      requires Valid() && ledger.clock <= now
      modifies this
      ensures Valid()
      ensures Follows(r, old(ledger), ledger, Delivery.ReclaimSponsorship(old(ledger), now, sponsor, id, amount))
    {
      hide Sum, PricePerToken, FundingBalances, Inv, Ledger.VaultOwed, Ledger.CashTotal, Unsponsored, ModulesMatch,
           SponsorshipsMatch, SponsorEscrowsMatch, BookingEscrowsMatch, DeliverersMatch, CountersMatch,
           ProposalsMatch, PreSponsorsMatch, VotesMatch;
      ghost var l := ledger;
      var w, a := world, accounts;
      SponsorshipAt(l, id);
      SponsorshipStored(a.sponsorships, l.sponsorships, l.bookings, id);
      ModuleStored(a.modules, a.moduleVaults, l.modules, l.sponsorships, l.bookings, id.0);
      SponsorEscrowStored(a.sponsorEscrows, l.sponsorships, l.gifts, id);
      :- Need(id in a.sponsorships && id in a.sponsorEscrows && a.sponsorships[id].deal.sponsor == sponsor);
      var s := a.sponsorships[id];
      :- Need(0 < amount <= s.deal.amount && id.0 in a.modules);
      var m := a.modules[id.0];
      ReclaimModulesMatch(a.modules, a.moduleVaults, l.modules, l.sponsorships, l.bookings, id, amount);
      ReclaimSponsorshipsMatch(a.sponsorships, l.sponsorships, l.bookings, id, amount);
      ReclaimEscrow(a.sponsorEscrows, l.sponsorships, l.gifts, id, amount);
      RefundFits(l.sponsorships[id], Sum(l.bookings, UnsettledOn(id)), amount);
      :- Need(now > Clamp(s.deal.sponsoredAt + w.config.sponsorshipWindow));
      var refund := s.deal.price * amount;
      assert refund <= U64_MAX && refund <= a.sponsorEscrows[id];
      assert amount <= m.schoolAllocation && m.sponsorAllocation + amount <= U64_MAX;

      ReclaimSponsorshipKeeps(l, now, sponsor, id, amount);

      w := w.(cash := Credit(w.cash, (s.deal.asset, sponsor), refund));
      a := a.(sponsorEscrows := a.sponsorEscrows[id := a.sponsorEscrows[id] - refund]);
      a := a.(modules := a.modules[id.0 := m.(schoolAllocation := m.schoolAllocation - amount,
                                              sponsorAllocation := m.sponsorAllocation + amount)]);
      a := a.(sponsorships := a.sponsorships[id := s.(deal := s.deal.(amount := s.deal.amount - amount))]);
      world, accounts, ledger := w, a, Delivery.ReclaimSponsorship(l, now, sponsor, id, amount).value;
      return Ok(());
    }

    method CloseSponsorship(sponsor: Key, id: Id) returns (r: Result<()>)
      requires Valid()
      modifies this
      ensures Valid()
      ensures Follows(r, old(ledger), ledger, Delivery.CloseSponsorship(old(ledger), sponsor, id))
    {
      hide Sum, PricePerToken, Inv, Ledger.VaultOwed, Ledger.CashTotal, Unsponsored, ModulesMatch, SponsorshipsMatch,
           SponsorEscrowsMatch, BookingEscrowsMatch, DeliverersMatch, CountersMatch, ProposalsMatch, PreSponsorsMatch,
           VotesMatch;
      ghost var l := ledger;
      var a := accounts;
      SponsorshipStored(a.sponsorships, l.sponsorships, l.bookings, id);
      SponsorEscrowStored(a.sponsorEscrows, l.sponsorships, l.gifts, id);
      :- Need(id in a.sponsorships && id in a.sponsorEscrows && a.sponsorships[id].deal.sponsor == sponsor);
      var s := a.sponsorships[id];
      :- Need(s.deal.amount == 0 && s.activeBookings == 0);
      // Nothing is owed any more; a gift keeps the escrow open.
      var left := a.sponsorEscrows[id];
      assert left == GiftIn(l.gifts, OfSponsorship(id));

      CloseSponsorshipKeeps(l, sponsor, id);
      CloseModulesMatch(a.modules, a.moduleVaults, l.modules, l.sponsorships, l.bookings, id);
      CloseSponsorshipsMatch(a.sponsorships, l.sponsorships, l.bookings, id);
      GiftAt(l, OfSponsorship(id));
      DropSponsorEscrow(a.sponsorEscrows, l.sponsorships, l.gifts, id);

      a := a.(sponsorships := a.sponsorships - {id}, sponsorEscrows := PaidOff(a.sponsorEscrows, id, left));
      accounts, ledger := a, Delivery.CloseSponsorship(l, sponsor, id).value;
      return Ok(());
    }

    // ----- bookings -----

    method BookModule(now: i64, school: Key, id: Id, deliveryAt: i64) returns (r: Result<()>)
      requires Valid() && ledger.clock <= now
      modifies this
      ensures Valid()
      ensures Follows(r, old(ledger), ledger, Delivery.BookModule(old(ledger), now, school, id, deliveryAt))
    {
      hide Sum, PricePerToken, FundingBalances, Inv, Ledger.VaultOwed, Ledger.CashTotal, Unsponsored, ModulesMatch,
           SponsorshipsMatch, SponsorEscrowsMatch, BookingEscrowsMatch, DeliverersMatch, CountersMatch,
           ProposalsMatch, PreSponsorsMatch, VotesMatch, GiftIn, Balance, Debit, Clamp;
      ghost var l := ledger;
      var w, a, c := world, accounts, world.config;
      SponsorshipAt(l, id);
      SponsorshipStored(a.sponsorships, l.sponsorships, l.bookings, id);
      ModuleStored(a.modules, a.moduleVaults, l.modules, l.sponsorships, l.bookings, id.0);
      FreshBooking(l, id.0);
      SponsorEscrowStored(a.sponsorEscrows, l.sponsorships, l.gifts, id);
      :- Need(w.HasRole(school, ModuleBooker) && id in a.sponsorships && id in a.sponsorEscrows);
      var s := a.sponsorships[id];
      :- Need(s.deal.amount > 0 && id.0 in a.modules);
      :- Need(now <= deliveryAt <= Clamp(now + c.maxDeliveryWindow));
      var m, key := a.modules[id.0], (id.0, w.nextBooking);
      var b := Booking(id.1, s.deal.sponsor, school, None, s.deal.asset, s.deal.price,
                       None, None, false, None, None, c.bookingDeposit, deliveryAt);
      OpenModulesMatch(a.modules, a.moduleVaults, l.modules, l.sponsorships, l.bookings, id, key, b);
      OpenSponsorshipsMatch(a.sponsorships, l.sponsorships, l.bookings, id, key, b);
      SpendEscrow(a.sponsorEscrows, l.sponsorships, l.gifts, id);
      OpenDeliverersMatch(a.deliverers, l.deliverers, l.bookings, key, b);
      GiftAt(l, OfBooking(key));
      PutEscrow(a.bookingEscrows, l.bookings, l.gifts, key, b);
      // The school's deposit is locked, and one token's payment moves to the booking's escrow.
      var xcav :- Debit(w.xcav, school, c.bookingDeposit);
      assert s.deal.price <= a.sponsorEscrows[id] && m.schoolAllocation >= 1 && m.studentAllocation + 1 <= U64_MAX;
      var active :- CheckedAdd(s.activeBookings, 1, U32_MAX);
      var next :- CheckedAdd(w.nextBooking, 1, U64_MAX);

      ghost var l' := Delivery.BookModule(l, now, school, id, deliveryAt).value;
      BookModuleKeeps(l, now, school, id, deliveryAt);
      DebitHeld(w.xcav, school, c.bookingDeposit);

      w := w.(xcav := xcav, nextBooking := next);
      a := a.(vault := a.vault + c.bookingDeposit,
              sponsorEscrows := a.sponsorEscrows[id := a.sponsorEscrows[id] - s.deal.price],
              bookingEscrows := a.bookingEscrows[key := s.deal.price]);
      a := a.(sponsorships := a.sponsorships[id := SponsorshipAccount(s.deal.(amount := s.deal.amount - 1), active)]);
      a := a.(modules := a.modules[id.0 := m.(schoolAllocation := m.schoolAllocation - 1,
                                              studentAllocation := m.studentAllocation + 1)]);
      a := a.(bookings := a.bookings[key := b]);
      assert Stored(w, a, l');
      world, accounts, ledger := w, a, l';
      return Ok(());
    }

    method ClaimBooking(now: i64, lecturer: Key, key: Id) returns (r: Result<()>)
      requires Valid() && ledger.clock <= now
      modifies this
      ensures Valid()
      ensures Follows(r, old(ledger), ledger, Delivery.ClaimBooking(old(ledger), now, lecturer, key))
    {
      hide Sum, PricePerToken, Inv, Config.SlashPerStrike, Ledger.VaultOwed, Ledger.CashTotal, Unsponsored,
           ModulesMatch, SponsorshipsMatch, SponsorEscrowsMatch, BookingEscrowsMatch, DeliverersMatch, CountersMatch,
           ProposalsMatch, PreSponsorsMatch, VotesMatch;
      ghost var l := ledger;
      var w, a, c := world, accounts, world.config;
      ConfigAt(l);
      DepositFits(l, lecturer);
      BookingAt(l, key);
      ModuleStored(a.modules, a.moduleVaults, l.modules, l.sponsorships, l.bookings, key.0);
      DelivererStored(a.deliverers, l.deliverers, l.bookings, lecturer);
      :- Need(w.HasRole(lecturer, ModuleDeliverer) && lecturer in a.deliverers && key in a.bookings);
      var b, d := a.bookings[key], a.deliverers[lecturer];
      :- Need(b.lecturer.None? && b.school != lecturer && key.0 in a.modules);
      var m := a.modules[key.0];
      BookingCounted(l.bookings, key);
      // Each concurrent claim must be backed by one strike's worth of deposit.
      var slash := c.SlashPerStrike();
      var claims :- CheckedAdd(d.activeClaims, 1, U32_MAX);
      var required :- CheckedMul(slash, claims, U64_MAX);
      :- Need(d.standing.deposit >= required);
      assert m.studentAllocation >= 1;

      var claimed := b.(lecturer := Some(lecturer));
      ClaimBookingKeeps(l, now, lecturer, key);
      TouchModulesMatch(a.modules, a.moduleVaults, l.modules, l.sponsorships, l.bookings, key, claimed,
                        m.studentAllocation - 1);
      TouchSponsorshipsMatch(a.sponsorships, l.sponsorships, l.bookings, key, claimed);
      ClaimDeliverersMatch(a.deliverers, l.deliverers, l.bookings, key, lecturer, claimed);
      SameEscrow(a.bookingEscrows, l.bookings, l.gifts, key, claimed);

      a := a.(modules := a.modules[key.0 := m.(studentAllocation := m.studentAllocation - 1)]);
      a := a.(bookings := a.bookings[key := claimed],
              deliverers := a.deliverers[lecturer := d.(activeClaims := claims)]);
      accounts, ledger := a, Delivery.ClaimBooking(l, now, lecturer, key).value;
      return Ok(());
    }

    /** The part that cancelling and expiring a booking share: return the token and its payment, and free any claim. */
    static method Unwind(a: Accounts, ghost l: Ledger, key: Id) returns (r: Result<Accounts>)
      requires Stored(l.world, a, l)
      ensures r.Ok? <==> Delivery.Unwindable(l, key)
      ensures r.Ok? ==> Delivery.Unwindable(l, key) && Unwound(a, r.value, l, key)
    {
      hide Sum, PricePerToken, Inv, Ledger.VaultOwed, Unsponsored, ModulesMatch, SponsorshipsMatch,
           SponsorEscrowsMatch, BookingEscrowsMatch, DeliverersMatch, CountersMatch, ProposalsMatch, PreSponsorsMatch,
           VotesMatch, GiftsArePositive, GiftIn, Clamp;
      BookingAt(l, key);
      BookingStaked(l, key);
      BookingEscrowStored(a.bookingEscrows, l.bookings, l.gifts, key);
      GiftAt(l, OfBooking(key));
      :- Need(key in a.bookings && key in a.bookingEscrows && a.bookings[key].score.None?);
      var b := a.bookings[key];
      var id := (key.0, b.sponsorId);
      ModuleStored(a.modules, a.moduleVaults, l.modules, l.sponsorships, l.bookings, key.0);
      SponsorshipStored(a.sponsorships, l.sponsorships, l.bookings, id);
      BookingCounted(l.bookings, key);
      UnbookFits(a.modules, a.moduleVaults, l.modules, l.sponsorships, l.bookings, id, key);
      UnbookModulesMatch(a.modules, a.moduleVaults, l.modules, l.sponsorships, l.bookings, id, key);
      UnbookSponsorshipsMatch(a.sponsorships, l.sponsorships, l.bookings, id, key);
      RestoreEscrow(a.sponsorEscrows, l.sponsorships, l.gifts, id);
      CloseDeliverersMatch(a.deliverers, l.deliverers, l.bookings, key);
      DropEscrow(a.bookingEscrows, l.bookings, l.gifts, key);
      // None of these checks can fail: a booking that exists is backed by every account it was counted in.
      assert id in a.sponsorships && id in a.sponsorEscrows && key.0 in a.modules && b.price <= a.bookingEscrows[key];
      var s, m := a.sponsorships[id], a.modules[key.0];
      assert s.deal.amount < U64_MAX && m.schoolAllocation < U64_MAX;
      var left := a.bookingEscrows[key] - b.price;
      r := Ok(a.(vault := a.vault - b.deposit,
                 sponsorships := a.sponsorships[id :=
                   SponsorshipAccount(s.deal.(amount := s.deal.amount + 1), s.activeBookings - 1)],
                 sponsorEscrows := a.sponsorEscrows[id := a.sponsorEscrows[id] + b.price],
                 bookings := a.bookings - {key}, bookingEscrows := PaidOff(a.bookingEscrows, key, left)));
      match b.lecturer {
        case Some(k) =>
          DelivererStored(a.deliverers, l.deliverers, l.bookings, k);
          var d := a.deliverers[k];
          r := Ok(r.value.(modules := a.modules[key.0 := m.(schoolAllocation := m.schoolAllocation + 1)],
                           deliverers := a.deliverers[k := d.(activeClaims := d.activeClaims - 1)]));
        case None =>
          r := Ok(r.value.(modules := a.modules[key.0 := m.(schoolAllocation := m.schoolAllocation + 1,
                                                            studentAllocation := m.studentAllocation - 1)]));
      }
    }

    method CancelBooking(now: i64, school: Key, key: Id) returns (r: Result<()>)
      requires Valid() && ledger.clock <= now
      modifies this
      ensures Valid()
      ensures Follows(r, old(ledger), ledger, Delivery.CancelBooking(old(ledger), now, school, key))
    {
      hide Sum, PricePerToken, Inv, Ledger.VaultOwed, Ledger.CashTotal, Unsponsored, ModulesMatch, SponsorshipsMatch,
           SponsorEscrowsMatch, BookingEscrowsMatch, DeliverersMatch, CountersMatch, ProposalsMatch, PreSponsorsMatch,
           VotesMatch, Balance, Credit;
      ghost var l := ledger;
      var w, c := world, (school, key.1);
      CounterStored(accounts.counters, l.cancellations, school);
      :- Need(key in accounts.bookings && accounts.bookings[key].school == school);
      var b := accounts.bookings[key];
      var count :- CheckedAdd(Balance(accounts.counters, school), 1, U32_MAX);
      var a :- Unwind(accounts, l, key);
      // The deposit goes back, or to the treasury once the school has cancelled too often.
      var slashed := count >= w.config.maxCancellations;
      if slashed {
        w := w.(treasury := w.treasury + b.deposit);
      } else {
        CreditHeld(w.xcav, school, b.deposit);
        w := w.(xcav := Credit(w.xcav, school, b.deposit));
      }

      ghost var l' := Delivery.CancelBooking(l, now, school, key).value;
      CancelBookingKeeps(l, now, school, key);
      FreshCancellation(l, key, school);
      CancelCountersMatch(a.counters, l.cancellations, c, Cancellation(key.0, now));

      a := a.(counters := a.counters[school := count], cancellations := a.cancellations[c := Cancellation(key.0, now)]);
      assert Stored(w, a, l');
      world, accounts, ledger := w, a, l';
      return Ok(());
    }

    method ClearOldCancellation(now: i64, school: Key, bid: nat) returns (r: Result<()>)
      requires Valid() && ledger.clock <= now
      modifies this
      ensures Valid()
      ensures Follows(r, old(ledger), ledger, Delivery.ClearOldCancellation(old(ledger), now, school, bid))
    {
      hide Sum, PricePerToken, Inv, Ledger.VaultOwed, Ledger.CashTotal, Unsponsored, ModulesMatch, SponsorshipsMatch,
           SponsorEscrowsMatch, BookingEscrowsMatch, DeliverersMatch, CountersMatch, ProposalsMatch, PreSponsorsMatch,
           VotesMatch;
      ghost var l := ledger;
      var a, c := accounts, (school, bid);
      if c in a.cancellations {
        ClearCountersMatch(a.counters, l.cancellations, c);
      }
      :- Need(c in a.cancellations && school in a.counters);
      :- Need(Clamp(now - a.cancellations[c].createdAt) > world.config.cancellationWindow);

      ClearOldCancellationKeeps(l, now, school, bid);

      a := a.(counters := a.counters[school := SaturatingSub(a.counters[school], 1)],
              cancellations := a.cancellations - {c});
      accounts, ledger := a, Delivery.ClearOldCancellation(l, now, school, bid).value;
      return Ok(());
    }

    method CancelClaim(lecturer: Key, key: Id) returns (r: Result<()>)
      requires Valid()
      modifies this
      ensures Valid()
      ensures Follows(r, old(ledger), ledger, Delivery.CancelClaim(old(ledger), lecturer, key))
    {
      hide Sum, PricePerToken, Inv, Config.SlashPerStrike, Ledger.VaultOwed, Ledger.CashTotal, Unsponsored,
           ModulesMatch, SponsorshipsMatch, SponsorEscrowsMatch, BookingEscrowsMatch, DeliverersMatch, CountersMatch,
           ProposalsMatch, PreSponsorsMatch, VotesMatch;
      ghost var l := ledger;
      var w, a, c := world, accounts, world.config;
      ConfigAt(l);
      BookingAt(l, key);
      ModuleStored(a.modules, a.moduleVaults, l.modules, l.sponsorships, l.bookings, key.0);
      DelivererStored(a.deliverers, l.deliverers, l.bookings, lecturer);
      DelivererStaked(l, lecturer);
      :- Need(w.HasRole(lecturer, ModuleDeliverer) && lecturer in a.deliverers && key in a.bookings);
      var b, d := a.bookings[key], a.deliverers[lecturer];
      :- Need(b.lecturer == Some(lecturer) && b.score.None? && key.0 in a.modules);
      var m := a.modules[key.0];
      var freed := b.(lecturer := None);
      BookingCounted(l.bookings, key);
      ClaimFits(a.modules, a.moduleVaults, l.modules, l.sponsorships, l.bookings, key);
      var strikes :- CheckedAdd(d.standing.strikes, 1, U8_MAX);
      assert d.activeClaims >= 1 && m.studentAllocation + 1 <= U64_MAX;
      // At the strike ceiling the claim costs one strike's worth of deposit, or what is left of it.
      var slash := 0;
      if strikes >= c.maxStrikes {
        slash := if c.SlashPerStrike() <= d.standing.deposit then c.SlashPerStrike() else d.standing.deposit;
      }

      ghost var l' := Delivery.CancelClaim(l, lecturer, key).value;
      CancelClaimKeeps(l, lecturer, key);
      TouchModulesMatch(a.modules, a.moduleVaults, l.modules, l.sponsorships, l.bookings, key, freed,
                        m.studentAllocation + 1);
      TouchSponsorshipsMatch(a.sponsorships, l.sponsorships, l.bookings, key, freed);
      FreeDeliverersMatch(a.deliverers, l.deliverers, l.bookings, key, lecturer, freed, l'.deliverers[lecturer]);
      SameEscrow(a.bookingEscrows, l.bookings, l.gifts, key, freed);

      w := w.(treasury := w.treasury + slash);
      a := a.(vault := a.vault - slash, bookings := a.bookings[key := freed]);
      a := a.(deliverers := a.deliverers[lecturer := DelivererAccount(
                d.standing.(strikes := strikes, deposit := d.standing.deposit - slash), d.activeClaims - 1)]);
      a := a.(modules := a.modules[key.0 := m.(studentAllocation := m.studentAllocation + 1)]);
      assert Stored(w, a, l');
      world, accounts, ledger := w, a, l';
      return Ok(());
    }

    method ExpireBooking(now: i64, key: Id) returns (r: Result<()>)
      requires Valid() && ledger.clock <= now
      modifies this
      ensures Valid()
      ensures Follows(r, old(ledger), ledger, Delivery.ExpireBooking(old(ledger), now, key))
    {
      hide Sum, PricePerToken, Inv, Ledger.VaultOwed, Ledger.CashTotal, Unsponsored, ModulesMatch, SponsorshipsMatch,
           SponsorEscrowsMatch, BookingEscrowsMatch, DeliverersMatch, CountersMatch, ProposalsMatch, PreSponsorsMatch,
           VotesMatch;
      ghost var l := ledger;
      var w := world;
      :- Need(key in accounts.bookings);
      var b := accounts.bookings[key];
      :- Need(now > Clamp(b.deliveryAt + w.config.noShowGrace));
      // Neither side is at fault: the payment is back with the sponsor, and the deposit goes back to the school.
      var a :- Unwind(accounts, l, key);

      ghost var l' := Delivery.ExpireBooking(l, now, key).value;
      ExpireBookingKeeps(l, now, key);
      CreditHeld(w.xcav, b.school, b.deposit);

      w := w.(xcav := Credit(w.xcav, b.school, b.deposit));
      assert Stored(w, a, l');
      world, accounts, ledger := w, a, l';
      return Ok(());
    }

    // ----- scoring -----

    method SubmitScore(now: i64, agent: Key, key: Id, score: u16) returns (r: Result<()>)
      requires Valid() && ledger.clock <= now
      modifies this
      ensures Valid()
      ensures Follows(r, old(ledger), ledger, Delivery.SubmitScore(old(ledger), now, agent, key, score))
    {
      hide Sum, PricePerToken, Inv, Ledger.VaultOwed, Ledger.CashTotal, Unsponsored, ModulesMatch, SponsorshipsMatch,
           SponsorEscrowsMatch, BookingEscrowsMatch, DeliverersMatch, CountersMatch, ProposalsMatch, PreSponsorsMatch,
           VotesMatch;
      ghost var l := ledger;
      var a := accounts;
      BookingAt(l, key);
      :- Need(world.HasRole(agent, ModuleAIAgent) && key in a.bookings && score <= 10000);
      var b := a.bookings[key];
      :- Need(b.lecturer.Some? && b.score.None?);
      :- Need(now >= b.deliveryAt);

      b := b.(score := Some(score), scoreAt := Some(now));
      SubmitScoreKeeps(l, now, agent, key, score);
      RescoredMatch(a, l, key, b);

      a := a.(bookings := a.bookings[key := b]);
      accounts, ledger := a, Delivery.SubmitScore(l, now, agent, key, score).value;
      return Ok(());
    }

    method DisputeScore(now: i64, party: Key, key: Id, proposed: u16) returns (r: Result<()>)
      requires Valid() && ledger.clock <= now
      modifies this
      ensures Valid()
      ensures Follows(r, old(ledger), ledger, Delivery.DisputeScore(old(ledger), now, party, key, proposed))
    {
      hide Sum, PricePerToken, Inv, Ledger.VaultOwed, Ledger.CashTotal, Unsponsored, ModulesMatch, SponsorshipsMatch,
           SponsorEscrowsMatch, BookingEscrowsMatch, DeliverersMatch, CountersMatch, ProposalsMatch, PreSponsorsMatch,
           VotesMatch;
      ghost var l := ledger;
      var a := accounts;
      BookingAt(l, key);
      :- Need(proposed <= 10000 && key in a.bookings);
      var b := a.bookings[key];
      :- Need(!b.settled && b.scoreAt.Some? && b.disputer.None?);
      :- Need(b.IsParty(party));
      :- Need(now < Clamp(b.scoreAt.value + world.config.disputeWindow));

      b := b.(disputer := Some(party), proposedScore := Some(proposed));
      DisputeScoreKeeps(l, now, party, key, proposed);
      RescoredMatch(a, l, key, b);

      a := a.(bookings := a.bookings[key := b]);
      accounts, ledger := a, Delivery.DisputeScore(l, now, party, key, proposed).value;
      return Ok(());
    }

    method ResolveDispute(counterparty: Key, key: Id, accept: bool) returns (r: Result<()>)
      requires Valid()
      modifies this
      ensures Valid()
      ensures Follows(r, old(ledger), ledger, Delivery.ResolveDispute(old(ledger), counterparty, key, accept))
    {
      hide Sum, PricePerToken, Inv, Ledger.VaultOwed, Ledger.CashTotal, Unsponsored, ModulesMatch, SponsorshipsMatch,
           SponsorEscrowsMatch, BookingEscrowsMatch, DeliverersMatch, CountersMatch, ProposalsMatch, PreSponsorsMatch,
           VotesMatch;
      ghost var l := ledger;
      var a := accounts;
      BookingAt(l, key);
      :- Need(key in a.bookings);
      var b := a.bookings[key];
      :- Need(!b.settled && b.proposedScore.Some? && b.disputer.Some? && b.lecturer.Some?);
      var other := if b.disputer.value == b.school then b.lecturer.value else b.school;
      :- Need(counterparty == other);

      if accept {
        b := b.(score := b.proposedScore);
      }
      b := b.(proposedScore := None);
      ResolveDisputeKeeps(l, counterparty, key, accept);
      RescoredMatch(a, l, key, b);

      a := a.(bookings := a.bookings[key := b]);
      accounts, ledger := a, Delivery.ResolveDispute(l, counterparty, key, accept).value;
      return Ok(());
    }

    /** Five payments out of the escrow: every one of them is covered, and only gifts are left. */
    static method Disburse(escrowed: nat, wallets: map<(Key, Key), nat>, asset: Key, pay: Payout,
                           creator: Key, operator: Key, protocol: Key, lecturer: Key, sponsor: Key)
      returns (escrow: nat, cash: map<(Key, Key), nat>)
      requires escrowed >= pay.Total()
      ensures escrow == escrowed - pay.Total()
      ensures cash == Delivery.PayOut(wallets, asset, pay, creator, operator, protocol, lecturer, sponsor)
    {
      escrow := escrowed;
      escrow, cash := escrow - pay.creator, Pay(wallets, (asset, creator), pay.creator);
      escrow, cash := escrow - pay.operator, Pay(cash, (asset, operator), pay.operator);
      escrow, cash := escrow - pay.protocol, Pay(cash, (asset, protocol), pay.protocol);
      escrow, cash := escrow - pay.lecturer, Pay(cash, (asset, lecturer), pay.lecturer);
      escrow, cash := escrow - pay.refund, Pay(cash, (asset, sponsor), pay.refund);
    }

    method FinalizeScore(now: i64, cranker: Key, key: Id) returns (r: Result<()>)
      requires Valid() && ledger.clock <= now
      modifies this
      ensures Valid()
      ensures Follows(r, old(ledger), ledger, Delivery.FinalizeScore(old(ledger), now, cranker, key))
    {
      hide Sum, PricePerToken, Inv, Split, Ledger.VaultOwed, Ledger.CashTotal, Unsponsored, ModulesMatch,
           SponsorshipsMatch, SponsorEscrowsMatch, BookingEscrowsMatch, DeliverersMatch, CountersMatch,
           ProposalsMatch, PreSponsorsMatch, VotesMatch, Pay, Delivery.Delivered, Clamp, Delivery.PayOut, GiftIn,
           Balance, Credit;
      ghost var l := ledger;
      var w, a, c := world, accounts, world.config;
      BookingAt(l, key);
      BookingEscrowStored(a.bookingEscrows, l.bookings, l.gifts, key);
      ModuleAt(l, key.0);
      ModuleStored(a.modules, a.moduleVaults, l.modules, l.sponsorships, l.bookings, key.0);
      :- Need(key in a.bookings && key in a.bookingEscrows);
      var b := a.bookings[key];
      :- Need(!b.settled && b.lecturer.Some? && b.score.Some? && b.scoreAt.Some? && key.0 in a.modules
              && key.0 in a.moduleVaults);
      var m, lecturer, score := a.modules[key.0], b.lecturer.value, b.score.value;
      var windowOver := now >= Clamp(b.scoreAt.value + c.disputeWindow);
      // An amendment awaiting the other party lapses only once the window is over.
      :- Need(b.proposedScore.Some? ==> windowOver);
      b := b.(proposedScore := None);
      BookingPriced(l, key);
      DelivererStored(a.deliverers, l.deliverers, l.bookings, lecturer);
      BookingCounted(l.bookings, key);
      :- Need((windowOver || cranker == b.school || cranker == lecturer || b.disputer.Some?)
              && lecturer in a.deliverers && m.base.region in w.regions && b.asset in w.decimals);
      var d := a.deliverers[lecturer];
      var pay := Split(m.base.terms, w.decimals[b.asset], b.price, score, c.minImpactScore);
      var standing := if score >= c.minImpactScore then Delivery.Delivered(d.standing, c) else Ok(d.standing);
      :- Need(pay.Ok? && standing.Ok?);
      assert d.activeClaims >= 1 && a.moduleVaults[key.0] >= 1;
      SplitConserves(m.base.terms, w.decimals[b.asset], b.price, score, c.minImpactScore);

      var left, cash := Disburse(a.bookingEscrows[key], w.cash, b.asset, pay.value, m.base.creator,
                                 w.regions[m.base.region], c.protocolAuthority, lecturer, b.sponsor);
      b := b.(settled := true);

      ghost var l' := Delivery.FinalizeScore(l, now, cranker, key).value;
      ghost var id := (key.0, b.sponsorId);
      FinalizeScoreKeeps(l, now, cranker, key);
      SettleModulesMatch(a.modules, a.moduleVaults, l.modules, l.sponsorships, l.bookings, key, b, id,
                         l'.sponsorships[id]);
      SettleSponsorshipsMatch(a.sponsorships, l.sponsorships, l.bookings, key, b, id,
                              l'.sponsorships[id]);
      SameSponsorEscrow(a.sponsorEscrows, l.sponsorships, l.gifts, id, l'.sponsorships[id]);
      FreeDeliverersMatch(a.deliverers, l.deliverers, l.bookings, key, lecturer, b, standing.value);
      PutEscrow(a.bookingEscrows, l.bookings, l.gifts, key, b);

      w := w.(cash := cash);
      a := a.(deliverers := a.deliverers[lecturer := DelivererAccount(standing.value, d.activeClaims - 1)],
              bookingEscrows := a.bookingEscrows[key := left],
              moduleVaults := a.moduleVaults[key.0 := a.moduleVaults[key.0] - 1], bookings := a.bookings[key := b]);
      assert Stored(w, a, l');
      world, accounts, ledger := w, a, l';
      return Ok(());
    }

    method FinishBooking(key: Id) returns (r: Result<()>)
      requires Valid()
      modifies this
      ensures Valid()
      ensures Follows(r, old(ledger), ledger, Delivery.FinishBooking(old(ledger), key))
    {
      hide Sum, PricePerToken, Inv, Ledger.VaultOwed, Ledger.CashTotal, Unsponsored, ModulesMatch, SponsorshipsMatch,
           SponsorEscrowsMatch, BookingEscrowsMatch, DeliverersMatch, CountersMatch, ProposalsMatch, PreSponsorsMatch,
           VotesMatch;
      ghost var l := ledger;
      var w, a := world, accounts;
      BookingAt(l, key);
      BookingStaked(l, key);
      BookingEscrowStored(a.bookingEscrows, l.bookings, l.gifts, key);
      :- Need(key in a.bookings && key in a.bookingEscrows);
      var b := a.bookings[key];
      var id := (key.0, b.sponsorId);
      SponsorshipStored(a.sponsorships, l.sponsorships, l.bookings, id);
      BookingCounted(l.bookings, key);
      :- Need(b.settled);
      assert id in a.sponsorships && a.sponsorships[id].activeBookings >= 1;
      // The payment was settled; a gift keeps the escrow open.
      var left := a.bookingEscrows[key];
      assert left == GiftIn(l.gifts, OfBooking(key));

      FinishBookingKeeps(l, key);
      CreditHeld(w.xcav, b.school, b.deposit);
      FinishModulesMatch(a.modules, a.moduleVaults, l.modules, l.sponsorships, l.bookings, key);
      FinishSponsorshipsMatch(a.sponsorships, l.sponsorships, l.bookings, id, key);
      CloseDeliverersMatch(a.deliverers, l.deliverers, l.bookings, key);
      GiftAt(l, OfBooking(key));
      DropEscrow(a.bookingEscrows, l.bookings, l.gifts, key);

      w := w.(xcav := Credit(w.xcav, b.school, b.deposit));
      a := a.(vault := a.vault - b.deposit,
              sponsorships := a.sponsorships[id :=
                a.sponsorships[id].(activeBookings := a.sponsorships[id].activeBookings - 1)],
              bookings := a.bookings - {key}, bookingEscrows := PaidOff(a.bookingEscrows, key, left));
      world, accounts, ledger := w, a, Delivery.FinishBooking(l, key).value;
      return Ok(());
    }

    // ----- lecturers -----

    method RegisterDeliverer(lecturer: Key) returns (r: Result<()>)
      requires Valid()
      modifies this
      ensures Valid()
      ensures Follows(r, old(ledger), ledger, Delivery.RegisterDeliverer(old(ledger), lecturer))
    {
      hide Sum, PricePerToken, Ledger.VaultOwed, Ledger.CashTotal, Unsponsored, ModulesInv, SponsorshipsInv,
           BookingsInv, CancellationsInv, ProposalsInv, BallotsInv, GiftsInv, ModulesMatch, SponsorshipsMatch,
           SponsorEscrowsMatch, BookingEscrowsMatch, DeliverersMatch, CountersMatch, ProposalsMatch, PreSponsorsMatch,
           VotesMatch;
      ghost var l := ledger;
      var w, a, required := world, accounts, world.config.delivererDeposit;
      DelivererStored(a.deliverers, l.deliverers, l.bookings, lecturer);
      :- Need(w.HasRole(lecturer, ModuleDeliverer));
      var d := if lecturer in a.deliverers then a.deliverers[lecturer] else DelivererAccount(Standing(0, 0, 0), 0);
      var additional := SaturatingSub(required, d.standing.deposit);
      if additional > 0 {
        var xcav :- Debit(w.xcav, lecturer, additional);
        DebitHeld(w.xcav, lecturer, additional);
        w := w.(xcav := xcav);
        a := a.(vault := a.vault + additional);
        d := d.(standing := d.standing.(deposit := required));
      }

      RegisterDelivererKeeps(l, lecturer);
      RegisterDeliverersMatch(a.deliverers, l.deliverers, w.nextBooking, l.modules, l.sponsorships, l.bookings,
                              lecturer, d.standing);

      a := a.(deliverers := a.deliverers[lecturer := d]);
      world, accounts, ledger := w, a, Delivery.RegisterDeliverer(l, lecturer).value;
      return Ok(());
    }

    method UnregisterDeliverer(lecturer: Key) returns (r: Result<()>)
      requires Valid()
      modifies this
      ensures Valid()
      ensures Follows(r, old(ledger), ledger, Delivery.UnregisterDeliverer(old(ledger), lecturer))
    {
      hide Sum, PricePerToken, Inv, Ledger.VaultOwed, Ledger.CashTotal, Unsponsored, ModulesMatch, SponsorshipsMatch,
           SponsorEscrowsMatch, BookingEscrowsMatch, DeliverersMatch, CountersMatch, ProposalsMatch, PreSponsorsMatch,
           VotesMatch;
      ghost var l := ledger;
      var w, a := world, accounts;
      DelivererStored(a.deliverers, l.deliverers, l.bookings, lecturer);
      DelivererStaked(l, lecturer);
      :- Need(lecturer in a.deliverers);
      var d := a.deliverers[lecturer];
      :- Need(d.activeClaims == 0);

      UnregisterDelivererKeeps(l, lecturer);
      CreditHeld(w.xcav, lecturer, d.standing.deposit);
      UnregisterDeliverersMatch(a.deliverers, l.deliverers, l.bookings, lecturer);

      w := w.(xcav := Credit(w.xcav, lecturer, d.standing.deposit), roles := w.roles - {(lecturer, ModuleDeliverer)});
      a := a.(vault := a.vault - d.standing.deposit, deliverers := a.deliverers - {lecturer});
      world, accounts, ledger := w, a, Delivery.UnregisterDeliverer(l, lecturer).value;
      return Ok(());
    }

    // ----- opening a proposal and voting on it -----

    method CreateProposal(now: i64, proposer: Key, role: Role, region: u16, amount: u64) returns (r: Result<()>)
      requires Valid() && ledger.clock <= now
      modifies this
      ensures Valid()
      ensures Follows(r, old(ledger), ledger,
                      Governance.CreateProposal(old(ledger), now, proposer, role, region, amount))
    {
      hide Sum, PricePerToken, Ledger.VaultOwed, Ledger.CashTotal, Unsponsored, ModulesInv, SponsorshipsInv,
           BookingsInv, CancellationsInv, ProposalsInv, BallotsInv, GiftsInv, ModulesMatch, SponsorshipsMatch,
           SponsorEscrowsMatch, BookingEscrowsMatch, DeliverersMatch, CountersMatch, ProposalsMatch, PreSponsorsMatch,
           VotesMatch;
      ghost var l := ledger;
      var w, a, c := world, accounts, world.config;
      :- Need(Governance.IsProposerRole(role) && w.HasRole(proposer, role) && region in w.regions);
      :- Need(0 < amount <= c.maxModuleTokens);
      var pid := w.nextProposal;
      var xcav :- Debit(w.xcav, proposer, c.proposalDeposit);
      var next :- CheckedAdd(pid, 1, U64_MAX);
      var p := Governance.Opened(c, now, proposer, role, region, amount);

      CreateProposalKeeps(l, now, proposer, role, region, amount);
      FreshProposal(l);
      DebitHeld(w.xcav, proposer, c.proposalDeposit);
      OpenProposalsMatch(a.proposals, l.proposals, l.ballots, pid, l.clock, p);
      GiftAt(l, OfProposal(pid));
      OpenPreSponsorsMatch(a.proposalEscrows, l.proposals, l.gifts, pid, p);

      w := w.(xcav := xcav, nextProposal := next);
      a := a.(vault := a.vault + c.proposalDeposit,
              proposals := a.proposals[pid := ProposalAccount(p, Tallies(0, 0, 0))]);
      world, accounts, ledger := w, a, Governance.CreateProposal(l, now, proposer, role, region, amount).value;
      return Ok(());
    }

    method CreateSponsorProposal(now: i64, proposer: Key, region: u16, amount: u64, asset: Key) returns (r: Result<()>)
      requires Valid() && ledger.clock <= now
      modifies this
      ensures Valid()
      ensures Follows(r, old(ledger), ledger,
                      Governance.CreateSponsorProposal(old(ledger), now, proposer, region, amount, asset))
    {
      hide Sum, PricePerToken, Ledger.VaultOwed, Ledger.CashTotal, Unsponsored, ModulesInv, SponsorshipsInv,
           BookingsInv, CancellationsInv, ProposalsInv, BallotsInv, GiftsInv, ModulesMatch, SponsorshipsMatch,
           SponsorEscrowsMatch, BookingEscrowsMatch, DeliverersMatch, CountersMatch, ProposalsMatch, PreSponsorsMatch,
           VotesMatch;
      ghost var l := ledger;
      var w, a, c := world, accounts, world.config;
      :- Need(w.HasRole(proposer, ModuleSponsor) && region in w.regions);
      :- Need(0 < amount <= c.maxModuleTokens);
      :- Need(asset in w.decimals && asset in c.acceptedAssets);
      :- Need(asset in w.supported);
      :- Need(0 < c.preSponsorAmount <= amount);
      var pid := w.nextProposal;
      var xcav :- Debit(w.xcav, proposer, c.proposalDeposit);
      var price :- PricePerToken(c.terms, w.decimals[asset]);
      var total :- CheckedMul(price, c.preSponsorAmount, U64_MAX);
      var cash :- Debit(w.cash, (asset, proposer), total);
      var next :- CheckedAdd(pid, 1, U64_MAX);
      var p := Governance.Opened(c, now, proposer, ModuleSponsor, region, amount)
               .(asset := asset, preAmount := c.preSponsorAmount, prePrice := price);

      CreateSponsorProposalKeeps(l, now, proposer, region, amount, asset);
      FreshProposal(l);
      DebitHeld(w.xcav, proposer, c.proposalDeposit);
      OpenProposalsMatch(a.proposals, l.proposals, l.ballots, pid, l.clock, p);
      GiftAt(l, OfProposal(pid));
      OpenPreSponsorsMatch(a.proposalEscrows, l.proposals, l.gifts, pid, p);

      w := w.(xcav := xcav, cash := cash, nextProposal := next);
      a := a.(vault := a.vault + c.proposalDeposit, proposalEscrows := a.proposalEscrows[pid := total],
              proposals := a.proposals[pid := ProposalAccount(p, Tallies(0, 0, 0))]);
      world, accounts, ledger := w, a, Governance.CreateSponsorProposal(l, now, proposer, region, amount, asset).value;
      return Ok(());
    }

    method VoteOnProposal(now: i64, voter: Key, pid: nat, vote: Vote, amount: u64) returns (r: Result<()>)
      requires Valid() && ledger.clock <= now
      modifies this
      ensures Valid()
      ensures Follows(r, old(ledger), ledger, Governance.VoteOnProposal(old(ledger), now, voter, pid, vote, amount))
    {
      hide Sum, PricePerToken, Inv, Ledger.VaultOwed, Ledger.CashTotal, Unsponsored, ModulesMatch, SponsorshipsMatch,
           SponsorEscrowsMatch, BookingEscrowsMatch, DeliverersMatch, CountersMatch, ProposalsMatch, PreSponsorsMatch,
           VotesMatch, Tallies.Sub, Tallies.Add, Debit, Balance, Credit, Pay, TalliesMatch;
      ghost var l := ledger;
      var w, a, k := world, accounts, (pid, voter);
      ProposalStored(a.proposals, l.proposals, l.ballots, pid);
      VoteStored(a.votes, l.ballots, k);
      OpenVote(l, k);
      BallotStaked(l, k);
      :- Need(amount >= w.config.minimumVotingAmount && pid in a.proposals);
      var p := a.proposals[pid];
      :- Need(p.core.status.Voting?);
      :- Need(now < p.core.expiry);
      var expiry := p.core.expiry;
      // A prior vote is undone and refunded before the new one is locked.
      var vault, wallets := a.vault, w.xcav;
      if k in a.votes {
        p := p.(tallies := p.tallies.Sub(a.votes[k].vote, a.votes[k].power));
        vault, wallets := vault - a.votes[k].power, Pay(wallets, voter, a.votes[k].power);
        PayHeld(w.xcav, voter, a.votes[k].power);
      }
      var xcav :- Debit(wallets, voter, amount);

      ghost var l' := Governance.VoteOnProposal(l, now, voter, pid, vote, amount).value;
      ghost var b := Ballot(vote, amount, expiry, true);
      VoteOnProposalKeeps(l, now, voter, pid, vote, amount);
      VoteCounted(l, now, voter, pid, vote, amount, a.proposals[pid].tallies);
      // Adding to a tally cannot overflow: all the votes of an open proposal are in the vault.
      assert p.tallies.Add(vote, amount).Ok?;
      p := p.(tallies := p.tallies.Add(vote, amount).value);
      DebitHeld(wallets, voter, amount);
      VoteProposalsMatch(a.proposals, l.proposals, l.ballots, k, b, p);
      CastVotesMatch(a.votes, l.ballots, k, b);

      w := w.(xcav := xcav);
      a := a.(vault := vault + amount, proposals := a.proposals[pid := p],
              votes := a.votes[k := VoteRecord(vote, amount, expiry)]);
      world, accounts, ledger := w, a, l';
      return Ok(());
    }

    method FinalizeProposal(now: i64, pid: nat) returns (r: Result<()>)
      requires Valid() && ledger.clock <= now
      modifies this
      ensures Valid()
      ensures Follows(r, old(ledger), ledger, Governance.FinalizeProposal(old(ledger), now, pid))
    {
      hide Sum, PricePerToken, Inv, Ledger.VaultOwed, Ledger.CashTotal, Unsponsored, ModulesMatch, SponsorshipsMatch,
           SponsorEscrowsMatch, BookingEscrowsMatch, DeliverersMatch, CountersMatch, ProposalsMatch, PreSponsorsMatch,
           VotesMatch, VotePasses, Balance, Credit, Clamp;
      ghost var l := ledger;
      var w, a, c := world, accounts, world.config;
      ProposalStored(a.proposals, l.proposals, l.ballots, pid);
      ProposalStaked(l, pid);
      TallyFits(l, pid);
      :- Need(pid in a.proposals);
      var p := a.proposals[pid];
      :- Need(p.core.status.Voting?);
      :- Need(now >= p.core.expiry);
      assert p.tallies.yes + p.tallies.no <= U64_MAX && p.core.deposit <= a.vault;
      var passed := VotePasses(p.tallies.yes, p.tallies.no, c.thresholdBps, c.quorum);
      var decided := p.core;
      if passed {
        decided := decided.(status := Claimable, buildDeadline := Clamp(now + c.claimPeriod));
        CreditHeld(w.xcav, p.core.proposer, p.core.deposit);
        w := w.(xcav := Credit(w.xcav, p.core.proposer, p.core.deposit));
      } else {
        decided := decided.(status := Rejected);
        w := w.(treasury := w.treasury + p.core.deposit);
      }

      ghost var l' := Governance.FinalizeProposal(l, now, pid).value;
      assert w == l'.world && decided == l'.proposals[pid];
      FinalizeProposalKeeps(l, now, pid);
      PutProposalsMatch(a.proposals, l.proposals, l.ballots, pid, decided);
      PutPreSponsorsMatch(a.proposalEscrows, l.proposals, l.gifts, pid, decided);

      a := a.(vault := a.vault - p.core.deposit, proposals := a.proposals[pid := p.(core := decided)]);
      world, accounts, ledger := w, a, l';
      return Ok(());
    }

    method UnlockVote(now: i64, voter: Key, pid: nat) returns (r: Result<()>)
      requires Valid() && ledger.clock <= now
      modifies this
      ensures Valid()
      ensures Follows(r, old(ledger), ledger, Governance.UnlockVote(old(ledger), now, voter, pid))
    {
      hide Sum, PricePerToken, Inv, Ledger.VaultOwed, Ledger.CashTotal, Unsponsored, ModulesMatch, SponsorshipsMatch,
           SponsorEscrowsMatch, BookingEscrowsMatch, DeliverersMatch, CountersMatch, ProposalsMatch, PreSponsorsMatch,
           VotesMatch;
      ghost var l := ledger;
      var w, a, k := world, accounts, (pid, voter);
      VoteStored(a.votes, l.ballots, k);
      BallotStaked(l, k);
      :- Need(k in a.votes);
      var v := a.votes[k];
      :- Need(now >= v.expiry);

      UnlockVoteKeeps(l, now, voter, pid);
      CreditHeld(w.xcav, voter, v.power);
      UnlockProposalsMatch(a.proposals, l.proposals, l.ballots, k);
      UnlockVotesMatch(a.votes, l.ballots, k);

      w := w.(xcav := Pay(w.xcav, voter, v.power));
      a := a.(vault := a.vault - v.power, votes := a.votes - {k});
      world, accounts, ledger := w, a, Governance.UnlockVote(l, now, voter, pid).value;
      return Ok(());
    }

    // ----- building -----

    method ClaimProposal(now: i64, creator: Key, pid: nat) returns (r: Result<()>)
      requires Valid() && ledger.clock <= now
      modifies this
      ensures Valid()
      ensures Follows(r, old(ledger), ledger, Governance.ClaimProposal(old(ledger), now, creator, pid))
    {
      hide Sum, PricePerToken, Inv, Ledger.VaultOwed, Ledger.CashTotal, Unsponsored, ModulesMatch, SponsorshipsMatch,
           SponsorEscrowsMatch, BookingEscrowsMatch, DeliverersMatch, CountersMatch, ProposalsMatch, PreSponsorsMatch,
           VotesMatch, Clamp, Debit, Balance;
      ghost var l := ledger;
      var w, a, bond := world, accounts, world.config.moduleDeposit;
      CoreStored(a.proposals, l.proposals, l.ballots, pid);
      :- Need(w.HasRole(creator, ModuleCreator) && pid in a.proposals);
      var p := a.proposals[pid].core;
      :- Need(p.status.Claimable?);
      :- Need(p.role == ModuleCreator ==> p.proposer == creator);
      :- Need(creator !in p.banned);
      var xcav :- Debit(w.xcav, creator, bond);
      p := p.(claimant := Some(creator), bond := bond, uploadDeadline := Clamp(now + w.config.uploadPeriod),
              failures := 0, status := Claimed);

      ghost var l' := Governance.ClaimProposal(l, now, creator, pid).value;
      ClaimProposalKeeps(l, now, creator, pid);
      DebitHeld(w.xcav, creator, bond);
      PutProposalsMatch(a.proposals, l.proposals, l.ballots, pid, p);
      PutPreSponsorsMatch(a.proposalEscrows, l.proposals, l.gifts, pid, p);

      w := w.(xcav := xcav);
      a := a.(vault := a.vault + bond, proposals := a.proposals[pid := a.proposals[pid].(core := p)]);
      world, accounts, ledger := w, a, l';
      return Ok(());
    }

    method UploadProposal(claimant: Key, pid: nat) returns (r: Result<()>)
      requires Valid()
      modifies this
      ensures Valid()
      ensures Follows(r, old(ledger), ledger, Governance.UploadProposal(old(ledger), claimant, pid))
    {
      hide Sum, PricePerToken, Inv, Ledger.VaultOwed, Ledger.CashTotal, Unsponsored, ModulesMatch, SponsorshipsMatch,
           SponsorEscrowsMatch, BookingEscrowsMatch, DeliverersMatch, CountersMatch, ProposalsMatch, PreSponsorsMatch,
           VotesMatch;
      ghost var l := ledger;
      var a := accounts;
      CoreStored(a.proposals, l.proposals, l.ballots, pid);
      :- Need(pid in a.proposals);
      var p := a.proposals[pid].core;
      :- Need(p.status.Claimed?);
      :- Need(p.claimant == Some(claimant));
      p := p.(uploadDeadline := 0, status := UnderReview);

      UploadProposalKeeps(l, claimant, pid);
      PutProposalsMatch(a.proposals, l.proposals, l.ballots, pid, p);
      PutPreSponsorsMatch(a.proposalEscrows, l.proposals, l.gifts, pid, p);

      a := a.(proposals := a.proposals[pid := a.proposals[pid].(core := p)]);
      accounts, ledger := a, Governance.UploadProposal(l, claimant, pid).value;
      return Ok(());
    }

    method ReleaseClaim(now: i64, pid: nat) returns (r: Result<()>)
      requires Valid() && ledger.clock <= now
      modifies this
      ensures Valid()
      ensures Follows(r, old(ledger), ledger, Governance.ReleaseClaim(old(ledger), now, pid))
    {
      hide Sum, PricePerToken, Inv, Ledger.VaultOwed, Ledger.CashTotal, Unsponsored, ModulesMatch, SponsorshipsMatch,
           SponsorEscrowsMatch, BookingEscrowsMatch, DeliverersMatch, CountersMatch, ProposalsMatch, PreSponsorsMatch,
           VotesMatch;
      ghost var l := ledger;
      var w, a := world, accounts;
      CoreStored(a.proposals, l.proposals, l.ballots, pid);
      ProposalStaked(l, pid);
      :- Need(pid in a.proposals);
      var p := a.proposals[pid].core;
      :- Need(p.status.Claimed?);
      :- Need(now >= p.uploadDeadline);
      w, a := w.(treasury := w.treasury + p.bond), a.(vault := a.vault - p.bond);
      p := p.(claimant := None, bond := 0, uploadDeadline := 0, status := Claimable);

      ReleaseClaimKeeps(l, now, pid);
      PutProposalsMatch(a.proposals, l.proposals, l.ballots, pid, p);
      PutPreSponsorsMatch(a.proposalEscrows, l.proposals, l.gifts, pid, p);

      a := a.(proposals := a.proposals[pid := a.proposals[pid].(core := p)]);
      world, accounts, ledger := w, a, Governance.ReleaseClaim(l, now, pid).value;
      return Ok(());
    }

    method ReviewProposal(now: i64, agent: Key, pid: nat, passed: bool) returns (r: Result<()>)
      requires Valid() && ledger.clock <= now
      modifies this
      ensures Valid()
      ensures Follows(r, old(ledger), ledger, Governance.ReviewProposal(old(ledger), now, agent, pid, passed))
    {
      hide Sum, PricePerToken, Inv, Ledger.VaultOwed, Ledger.CashTotal, Unsponsored, ModulesMatch, SponsorshipsMatch,
           SponsorEscrowsMatch, BookingEscrowsMatch, DeliverersMatch, CountersMatch, ProposalsMatch, PreSponsorsMatch,
           VotesMatch, Clamp;
      ghost var l := ledger;
      var w, a := world, accounts;
      ClaimantAt(l, pid);
      CoreStored(a.proposals, l.proposals, l.ballots, pid);
      ProposalStaked(l, pid);
      :- Need(w.HasRole(agent, ModuleAIAgent) && pid in a.proposals);
      var p := a.proposals[pid].core;
      :- Need(p.status.UnderReview?);
      assert p.claimant.Some?;
      if passed {
        p := p.(status := Approved);
      } else if p.failures + 1 < 2 {
        p := p.(failures := p.failures + 1, uploadDeadline := Clamp(now + w.config.uploadPeriod), status := Claimed);
      } else {
        // The second failure forfeits the bond; the claimant is banned, or the proposal rejected once the list is full.
        var claimant := p.claimant.value;
        w, a := w.(treasury := w.treasury + p.bond), a.(vault := a.vault - p.bond);
        p := p.(bond := 0, claimant := None, failures := 0, uploadDeadline := 0);
        if |p.banned| < MAX_BANNED {
          p := p.(banned := p.banned + [claimant], status := Claimable);
        } else {
          p := p.(status := Rejected);
        }
      }

      ghost var l' := Governance.ReviewProposal(l, now, agent, pid, passed).value;
      ReviewProposalKeeps(l, now, agent, pid, passed);
      PutProposalsMatch(a.proposals, l.proposals, l.ballots, pid, p);
      PutPreSponsorsMatch(a.proposalEscrows, l.proposals, l.gifts, pid, p);

      a := a.(proposals := a.proposals[pid := a.proposals[pid].(core := p)]);
      world, accounts, ledger := w, a, l';
      return Ok(());
    }

    method MintProposed(creator: Key, pid: nat) returns (r: Result<()>)
      requires Valid()
      modifies this
      ensures Valid()
      ensures Follows(r, old(ledger), ledger, Governance.MintProposed(old(ledger), creator, pid))
    {
      hide Sum, PricePerToken, Ledger.VaultOwed, Ledger.CashTotal, Unsponsored, ModulesInv, SponsorshipsInv,
           BookingsInv, CancellationsInv, ProposalsInv, BallotsInv, GiftsInv, ModulesMatch, SponsorshipsMatch,
           SponsorEscrowsMatch, BookingEscrowsMatch, DeliverersMatch, CountersMatch, ProposalsMatch, PreSponsorsMatch,
           VotesMatch;
      ghost var l := ledger;
      var w, a := world, accounts;
      ProposalAt(l, pid);
      CoreStored(a.proposals, l.proposals, l.ballots, pid);
      PreSponsorStored(a.proposalEscrows, l.proposals, l.gifts, pid);
      :- Need(w.HasRole(creator, ModuleCreator) && pid in a.proposals);
      var p, mid := a.proposals[pid].core, w.nextModule;
      :- Need(p.status.Approved? && p.claimant == Some(creator) && p.preAmount == 0);
      var next :- CheckedAdd(mid, 1, U64_MAX);
      // The bond was locked when the proposal was claimed; it becomes the module's deposit.
      var base := ModuleBase(creator, p.region, p.bond, p.amount, p.terms);

      MintProposedKeeps(l, creator, pid);
      CreateModulesMatch(a.modules, a.moduleVaults, mid, w.regions, w.nextBooking, w.nextSponsor, w.decimals,
                         l.modules, l.sponsorships, l.bookings, l.deliverers, base);
      DropProposalsMatch(a.proposals, l.proposals, l.ballots, pid);
      DropPreSponsorsMatch(a.proposalEscrows, l.proposals, l.gifts, pid);
      assert a.proposalEscrows - {pid} == a.proposalEscrows;

      w := w.(nextModule := next);
      a := a.(modules := a.modules[mid := ModuleAccount(base, p.amount, 0, 0)],
              moduleVaults := a.moduleVaults[mid := p.amount],
              proposals := a.proposals - {pid});
      world, accounts, ledger := w, a, Governance.MintProposed(l, creator, pid).value;
      return Ok(());
    }

    method MintSponsored(now: i64, creator: Key, pid: nat) returns (r: Result<()>)
      requires Valid() && ledger.clock <= now
      modifies this
      ensures Valid()
      ensures Follows(r, old(ledger), ledger, Governance.MintSponsored(old(ledger), now, creator, pid))
    {
      hide Sum, PricePerToken, Ledger.VaultOwed, Ledger.CashTotal, Unsponsored, ModulesInv, SponsorshipsInv,
           BookingsInv, CancellationsInv, ProposalsInv, BallotsInv, GiftsInv, ModulesMatch, SponsorshipsMatch,
           SponsorEscrowsMatch, BookingEscrowsMatch, DeliverersMatch, CountersMatch, ProposalsMatch, PreSponsorsMatch,
           VotesMatch;
      ghost var l := ledger;
      var w, a := world, accounts;
      ProposalAt(l, pid);
      CoreStored(a.proposals, l.proposals, l.ballots, pid);
      PreSponsorStored(a.proposalEscrows, l.proposals, l.gifts, pid);
      :- Need(w.HasRole(creator, ModuleCreator) && pid in a.proposals);
      var p := a.proposals[pid].core;
      :- Need(p.status.Approved? && p.claimant == Some(creator) && p.preAmount > 0 && p.asset in w.decimals);
      var mid, id := w.nextModule, (w.nextModule, w.nextSponsor);
      var nextModule :- CheckedAdd(w.nextModule, 1, U64_MAX);
      var nextSponsor :- CheckedAdd(w.nextSponsor, 1, U64_MAX);
      var locked := p.preAmount * p.prePrice;
      assert locked <= U64_MAX && pid in a.proposalEscrows && locked <= a.proposalEscrows[pid];
      // The escrow is closed once the pre-sponsorship is moved out, which fails if a gift is left in it.
      GiftAt(l, OfProposal(pid));
      :- Need(a.proposalEscrows[pid] - locked == 0);
      var base := ModuleBase(creator, p.region, p.bond, p.amount, p.terms);
      var deal := Deal(p.proposer, p.asset, p.preAmount, p.prePrice, now);

      ghost var l' := Governance.MintSponsored(l, now, creator, pid).value;
      MintSponsoredKeeps(l, now, creator, pid);
      MintModulesMatch(a.modules, a.moduleVaults, l, base, id, Funding(deal, locked, 0, 0, 0));
      FreshSponsorship(l, mid);
      FundSponsorshipsMatch(a.sponsorships, l.sponsorships, l.bookings,
                            w.nextBooking, l.modules, l.deliverers, id, Funding(deal, locked, 0, 0, 0));
      GiftAt(l, OfSponsorship(id));
      PutSponsorEscrow(a.sponsorEscrows, l.sponsorships, l.gifts, id, Funding(deal, locked, 0, 0, 0));
      DropProposalsMatch(a.proposals, l.proposals, l.ballots, pid);
      DropPreSponsorsMatch(a.proposalEscrows, l.proposals, l.gifts, pid);

      w := w.(nextModule := nextModule, nextSponsor := nextSponsor);
      a := a.(modules := a.modules[mid := ModuleAccount(base, SaturatingSub(p.amount, p.preAmount), p.preAmount, 0)],
              moduleVaults := a.moduleVaults[mid := p.amount],
              sponsorships := a.sponsorships[id := SponsorshipAccount(deal, 0)],
              sponsorEscrows := a.sponsorEscrows[id := locked],
              proposals := a.proposals - {pid}, proposalEscrows := a.proposalEscrows - {pid});
      assert Stored(w, a, l');
      world, accounts, ledger := w, a, l';
      return Ok(());
    }

    // ----- winding up -----

    method ExpireProposal(now: i64, pid: nat) returns (r: Result<()>)
      requires Valid() && ledger.clock <= now
      modifies this
      ensures Valid()
      ensures Follows(r, old(ledger), ledger, Governance.ExpireProposal(old(ledger), now, pid))
    {
      hide Sum, PricePerToken, Inv, Ledger.VaultOwed, Ledger.CashTotal, Unsponsored, ModulesMatch, SponsorshipsMatch,
           SponsorEscrowsMatch, BookingEscrowsMatch, DeliverersMatch, CountersMatch, ProposalsMatch, PreSponsorsMatch,
           VotesMatch, Balance, Credit, TalliesMatch, ProposalMatches, GiftIn, World.HasRole, Clamp;
      ghost var l := ledger;
      var w, a := world, accounts;
      ClaimantAt(l, pid);
      CoreStored(a.proposals, l.proposals, l.ballots, pid);
      ProposalStaked(l, pid);
      :- Need(pid in a.proposals);
      var p := a.proposals[pid].core;
      :- Need(p.status.Claimable? || p.status.Claimed? || p.status.UnderReview? || p.status.Approved?);
      :- Need(now >= if p.uploadDeadline > p.buildDeadline then p.uploadDeadline else p.buildDeadline);
      if p.bond > 0 {
        if p.status.UnderReview? {
          assert p.claimant.Some?;
          w := w.(xcav := Credit(w.xcav, p.claimant.value, p.bond));
        } else {
          w := w.(treasury := w.treasury + p.bond);
        }
        a := a.(vault := a.vault - p.bond);
      }
      BondSettledTotal(world, p);
      assert w == Governance.BondSettled(world, p);
      p := p.(bond := 0, claimant := None, uploadDeadline := 0, status := Rejected);

      ghost var l' := Governance.ExpireProposal(l, now, pid).value;
      ExpireProposalKeeps(l, now, pid);
      assert a.vault == l'.VaultOwed() + l'.surplus;
      PutProposalsMatch(a.proposals, l.proposals, l.ballots, pid, p);
      PutPreSponsorsMatch(a.proposalEscrows, l.proposals, l.gifts, pid, p);

      a := a.(proposals := a.proposals[pid := a.proposals[pid].(core := p)]);
      assert Stored(w, a, l');
      world, accounts, ledger := w, a, l';
      return Ok(());
    }

    method ReclaimPreSponsor(sponsor: Key, pid: nat) returns (r: Result<()>)
      requires Valid()
      modifies this
      ensures Valid()
      ensures Follows(r, old(ledger), ledger, Governance.ReclaimPreSponsor(old(ledger), sponsor, pid))
    {
      hide Sum, PricePerToken, Inv, Ledger.VaultOwed, Ledger.CashTotal, Unsponsored, ModulesMatch, SponsorshipsMatch,
           SponsorEscrowsMatch, BookingEscrowsMatch, DeliverersMatch, CountersMatch, ProposalsMatch, PreSponsorsMatch,
           VotesMatch;
      ghost var l := ledger;
      var w, a := world, accounts;
      ProposalAt(l, pid);
      CoreStored(a.proposals, l.proposals, l.ballots, pid);
      PreSponsorStored(a.proposalEscrows, l.proposals, l.gifts, pid);
      :- Need(pid in a.proposals && a.proposals[pid].core.proposer == sponsor);
      var p := a.proposals[pid].core;
      :- Need(p.status.Rejected?);
      :- Need(p.preAmount > 0 && p.asset in w.decimals);
      var locked := p.preAmount * p.prePrice;
      assert locked <= U64_MAX && pid in a.proposalEscrows && locked <= a.proposalEscrows[pid];
      // The escrow is closed once it has paid, which fails if a gift is left in it.
      GiftAt(l, OfProposal(pid));
      :- Need(a.proposalEscrows[pid] - locked == 0);

      ReclaimPreSponsorKeeps(l, sponsor, pid);
      DropProposalsMatch(a.proposals, l.proposals, l.ballots, pid);
      DropPreSponsorsMatch(a.proposalEscrows, l.proposals, l.gifts, pid);

      w := w.(cash := Credit(w.cash, (p.asset, sponsor), locked));
      a := a.(proposals := a.proposals - {pid}, proposalEscrows := a.proposalEscrows - {pid});
      world, accounts, ledger := w, a, Governance.ReclaimPreSponsor(l, sponsor, pid).value;
      return Ok(());
    }

    method ClearProposal(pid: nat) returns (r: Result<()>)
      requires Valid()
      modifies this
      ensures Valid()
      ensures Follows(r, old(ledger), ledger, Governance.ClearProposal(old(ledger), pid))
    {
      hide Sum, PricePerToken, Inv, Ledger.VaultOwed, Ledger.CashTotal, Unsponsored, ModulesMatch, SponsorshipsMatch,
           SponsorEscrowsMatch, BookingEscrowsMatch, DeliverersMatch, CountersMatch, ProposalsMatch, PreSponsorsMatch,
           VotesMatch;
      ghost var l := ledger;
      var a := accounts;
      CoreStored(a.proposals, l.proposals, l.ballots, pid);
      PreSponsorStored(a.proposalEscrows, l.proposals, l.gifts, pid);
      :- Need(pid in a.proposals);
      var p := a.proposals[pid].core;
      :- Need(p.status.Rejected?);
      :- Need(p.preAmount == 0);

      ClearProposalKeeps(l, pid);
      DropProposalsMatch(a.proposals, l.proposals, l.ballots, pid);
      DropPreSponsorsMatch(a.proposalEscrows, l.proposals, l.gifts, pid);
      assert a.proposalEscrows - {pid} == a.proposalEscrows;

      a := a.(proposals := a.proposals - {pid});
      accounts, ledger := a, Governance.ClearProposal(l, pid).value;
      return Ok(());
    }

    // ----- the authority, and what happens outside the program -----

    method UpdateConfig(authority: Key, c: Config) returns (r: Result<()>)
      requires Valid()
      modifies this
      ensures Valid()
      ensures Follows(r, old(ledger), ledger, Governance.UpdateConfig(old(ledger), authority, c))
    {
      hide Sum, PricePerToken, Inv, Ledger.VaultOwed, Ledger.CashTotal, Unsponsored, ModulesMatch, SponsorshipsMatch,
           SponsorEscrowsMatch, BookingEscrowsMatch, DeliverersMatch, CountersMatch, ProposalsMatch, PreSponsorsMatch,
           VotesMatch, Config.Valid;
      ghost var l := ledger;
      :- Need(authority == world.authority);
      :- Need(c.Valid());
      UpdateConfigKeeps(l, authority, c);
      world, ledger := world.(config := c), Governance.UpdateConfig(l, authority, c).value;
      return Ok(());
    }

    method UpdateAuthority(authority: Key, successor: Key) returns (r: Result<()>)
      requires Valid()
      modifies this
      ensures Valid()
      ensures Follows(r, old(ledger), ledger, Governance.UpdateAuthority(old(ledger), authority, successor))
    {
      hide Sum, PricePerToken, Inv, Ledger.VaultOwed, Ledger.CashTotal, Unsponsored, ModulesMatch, SponsorshipsMatch,
           SponsorEscrowsMatch, BookingEscrowsMatch, DeliverersMatch, CountersMatch, ProposalsMatch, PreSponsorsMatch,
           VotesMatch;
      ghost var l := ledger;
      :- Need(authority == world.authority);
      :- Need(successor != NO_KEY);
      UpdateAuthorityKeeps(l, authority, successor);
      world, ledger := world.(authority := successor), Governance.UpdateAuthority(l, authority, successor).value;
      return Ok(());
    }

    method SetRole(k: Key, role: Role, held: bool) returns (r: Result<()>)
      requires Valid()
      modifies this
      ensures Valid()
      ensures Follows(r, old(ledger), ledger, Governance.SetRole(old(ledger), k, role, held))
    {
      hide Sum, PricePerToken, Inv, Ledger.VaultOwed, Ledger.CashTotal, Unsponsored, ModulesMatch, SponsorshipsMatch,
           SponsorEscrowsMatch, BookingEscrowsMatch, DeliverersMatch, CountersMatch, ProposalsMatch, PreSponsorsMatch,
           VotesMatch;
      ghost var l := ledger;
      SetRoleKeeps(l, k, role, held);
      world := world.(roles := if held then world.roles + {(k, role)} else world.roles - {(k, role)});
      ledger := Governance.SetRole(l, k, role, held).value;
      return Ok(());
    }

    method SetRegionOwner(region: u16, owner: Key) returns (r: Result<()>)
      requires Valid()
      modifies this
      ensures Valid()
      ensures Follows(r, old(ledger), ledger, Governance.SetRegionOwner(old(ledger), region, owner))
    {
      hide Sum, PricePerToken, Inv, Ledger.VaultOwed, Ledger.CashTotal, Unsponsored, ModulesMatch, SponsorshipsMatch,
           SponsorEscrowsMatch, BookingEscrowsMatch, DeliverersMatch, CountersMatch, ProposalsMatch, PreSponsorsMatch,
           VotesMatch;
      ghost var l := ledger;
      SetRegionOwnerKeeps(l, region, owner);
      world := world.(regions := world.regions[region := owner]);
      ledger := Governance.SetRegionOwner(l, region, owner).value;
      return Ok(());
    }

    method TransferXcav(from: Key, to: Key, amount: u64) returns (r: Result<()>)
      requires Valid()
      modifies this
      ensures Valid()
      ensures Follows(r, old(ledger), ledger, Governance.TransferXcav(old(ledger), from, to, amount))
    {
      hide Sum, PricePerToken, Inv, Ledger.VaultOwed, Ledger.CashTotal, Unsponsored, ModulesMatch, SponsorshipsMatch,
           SponsorEscrowsMatch, BookingEscrowsMatch, DeliverersMatch, CountersMatch, ProposalsMatch, PreSponsorsMatch,
           VotesMatch;
      ghost var l := ledger;
      var xcav :- Debit(world.xcav, from, amount);
      TransferXcavKeeps(l, from, to, amount);
      DebitHeld(world.xcav, from, amount);
      CreditHeld(xcav, to, amount);
      world, ledger := world.(xcav := Credit(xcav, to, amount)), Governance.TransferXcav(l, from, to, amount).value;
      return Ok(());
    }

    method TransferCash(asset: Key, from: Key, to: Key, amount: u64) returns (r: Result<()>)
      requires Valid()
      modifies this
      ensures Valid()
      ensures Follows(r, old(ledger), ledger, Governance.TransferCash(old(ledger), asset, from, to, amount))
    {
      hide Sum, PricePerToken, Inv, Ledger.VaultOwed, Ledger.CashTotal, Unsponsored, ModulesMatch, SponsorshipsMatch,
           SponsorEscrowsMatch, BookingEscrowsMatch, DeliverersMatch, CountersMatch, ProposalsMatch, PreSponsorsMatch,
           VotesMatch;
      ghost var l := ledger;
      var cash :- Debit(world.cash, (asset, from), amount);
      TransferCashKeeps(l, asset, from, to, amount);
      world := world.(cash := Credit(cash, (asset, to), amount));
      ledger := Governance.TransferCash(l, asset, from, to, amount).value;
      return Ok(());
    }

    /** Tokens arrive in an escrow that is open; whose they were before is all the program could tell. */
    method Donate(from: Key, e: Escrow, amount: u64) returns (r: Result<()>)
      requires Valid()
      modifies this
      ensures Valid()
      ensures Follows(r, old(ledger), ledger, Governance.Donate(old(ledger), from, e, amount))
    {
      hide Sum, PricePerToken, Inv, Ledger.VaultOwed, Ledger.CashTotal, Unsponsored, ModulesMatch, SponsorshipsMatch,
           SponsorEscrowsMatch, BookingEscrowsMatch, DeliverersMatch, CountersMatch, ProposalsMatch, PreSponsorsMatch,
           VotesMatch, GiftIn;
      ghost var l, before := ledger, GiftIn(ledger.gifts, e);
      var w, a := world, accounts;
      var asset: Key;
      match e {
        case OfSponsorship(id) =>
          SponsorshipStored(a.sponsorships, l.sponsorships, l.bookings, id);
          :- Need(id in a.sponsorships);
          asset := a.sponsorships[id].deal.asset;
          GiftToSponsorship(a.sponsorEscrows, l.sponsorships, l.gifts, id, Gift(asset, before + amount), amount);
          a := a.(sponsorEscrows := a.sponsorEscrows[id := a.sponsorEscrows[id] + amount]);
        case OfBooking(key) =>
          :- Need(key in a.bookings);
          asset := a.bookings[key].asset;
          GiftToBooking(a.bookingEscrows, l.bookings, l.gifts, key, Gift(asset, before + amount), amount);
          a := a.(bookingEscrows := a.bookingEscrows[key := a.bookingEscrows[key] + amount]);
        case OfProposal(pid) =>
          CoreStored(a.proposals, l.proposals, l.ballots, pid);
          :- Need(pid in a.proposals && a.proposals[pid].core.preAmount > 0);
          asset := a.proposals[pid].core.asset;
          GiftToProposal(a.proposalEscrows, l.proposals, l.gifts, pid, Gift(asset, before + amount), amount);
          a := a.(proposalEscrows := a.proposalEscrows[pid := a.proposalEscrows[pid] + amount]);
      }
      :- Need(amount > 0);
      var cash :- Debit(w.cash, (asset, from), amount);
      DonateKeeps(l, from, e, amount);
      GiftElsewhere(accounts, l, e, Gift(asset, before + amount));
      world, accounts, ledger := w.(cash := cash), a, Governance.Donate(l, from, e, amount).value;
      return Ok(());
    }

    method DonateXcav(from: Key, amount: u64) returns (r: Result<()>)
      requires Valid()
      modifies this
      ensures Valid()
      ensures Follows(r, old(ledger), ledger, Governance.DonateXcav(old(ledger), from, amount))
    {
      hide Sum, PricePerToken, Inv, Ledger.VaultOwed, Ledger.CashTotal, Unsponsored, ModulesMatch, SponsorshipsMatch,
           SponsorEscrowsMatch, BookingEscrowsMatch, DeliverersMatch, CountersMatch, ProposalsMatch, PreSponsorsMatch,
           VotesMatch;
      ghost var l := ledger;
      var w, a := world, accounts;
      var xcav :- Debit(w.xcav, from, amount);
      DonateXcavKeeps(l, from, amount);
      DebitHeld(w.xcav, from, amount);
      w, a := w.(xcav := xcav), a.(vault := a.vault + amount);
      world, accounts, ledger := w, a, Governance.DonateXcav(l, from, amount).value;
      return Ok(());
    }
  }
}
