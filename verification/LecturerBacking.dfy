/**
 * Lecturers' deposits over whole runs: exactly how long every open claim is backed by a full strike's worth of
 * deposit, so that a slash is never cut short.
 */
module LecturerBacking {
  import opened Machine
  import opened Pricing
  import opened Settlement
  import opened Sums
  import opened Wallets
  import opened Voting
  import opened EducationState
  import opened EducationLedger
  import opened LedgerSums
  import opened EducationRuns
  import Delivery = DeliverySteps
  import opened DeliveryProofs
  import opened BookingHistory

  function StrikeOf(c: Config): nat {
    if c.strikeSlashBps <= 10000 then c.SlashPerStrike() else 0
  }

  /** Every lecturer's deposit covers one strike for each claim they hold. */
  ghost predicate Backed(strike: nat, ds: map<Key, Standing>, bs: map<Id, Booking>) {
    forall k: Key :: k in ds ==> ds[k].deposit >= strike * Sum(bs, HeldBy(k))
  }

  ghost predicate LedgerBacked(l: Ledger) {
    Backed(StrikeOf(l.world.config), l.deliverers, l.bookings)
  }

  // ----- the changes a step can make -----

  lemma FewerClaims(strike: nat, ds: map<Key, Standing>, bs: map<Id, Booking>, bs': map<Id, Booking>)
    requires Backed(strike, ds, bs)
    requires forall k: Key :: Sum(bs', HeldBy(k)) <= Sum(bs, HeldBy(k))
    ensures Backed(strike, ds, bs')
  {
    hide Sum;
    forall k: Key | k in ds
      ensures ds[k].deposit >= strike * Sum(bs', HeldBy(k))
    {
      MulBounded(strike, Sum(bs', HeldBy(k)), strike, Sum(bs, HeldBy(k)));
    }
  }

  /** Removing a booking, or rewriting one without giving it a new holder, adds no claim. */
  lemma DropFewer(strike: nat, ds: map<Key, Standing>, bs: map<Id, Booking>, key: Id)
    requires Backed(strike, ds, bs) && key in bs
    ensures Backed(strike, ds, bs - {key})
  {
    hide Sum, Backed;
    DropBooking(bs, key);
    FewerClaims(strike, ds, bs, bs - {key});
  }

  lemma PutFewer(strike: nat, ds: map<Key, Standing>, bs: map<Id, Booking>, key: Id, b: Booking)
    requires Backed(strike, ds, bs)
    requires b.lecturer.None? || b.settled || (key in bs && b.lecturer == bs[key].lecturer && !bs[key].settled)
    ensures Backed(strike, ds, bs[key := b])
  {
    hide Sum, Backed;
    if key in bs {
      PutBooking(bs, key, b);
    } else {
      AddBooking(bs, key, b);
    }
    FewerClaims(strike, ds, bs, bs[key := b]);
  }

  lemma ClaimBacked(strike: nat, ds: map<Key, Standing>, bs: map<Id, Booking>, key: Id, b: Booking, k: Key)
    requires Backed(strike, ds, bs) && key in bs && bs[key].lecturer.None? && b.lecturer == Some(k) && !b.settled
    requires k in ds && ds[k].deposit >= strike * (Sum(bs, HeldBy(k)) + 1)
    ensures Backed(strike, ds, bs[key := b])
  {
    hide Sum;
    PutBooking(bs, key, b);
  }

  /** Giving up a claim costs at most the strike that backed it. */
  lemma GiveUpBacked(strike: nat, ds: map<Key, Standing>, bs: map<Id, Booking>, key: Id, b: Booking, k: Key,
                     st: Standing)
    requires Backed(strike, ds, bs) && key in bs && bs[key].lecturer == Some(k) && !bs[key].settled && b.lecturer.None?
    requires k in ds && st.deposit + strike >= ds[k].deposit
    ensures Backed(strike, ds[k := st], bs[key := b])
    ensures ds[k].deposit >= strike
  {
    hide Sum;
    PutBooking(bs, key, b);
    var n := Sum(bs[key := b], HeldBy(k));
    assert strike * (n + 1) == strike * n + strike;
    assert ds[k].deposit >= strike * Sum(bs, HeldBy(k));
  }

  lemma RicherBacked(strike: nat, ds: map<Key, Standing>, bs: map<Id, Booking>, k: Key, st: Standing)
    requires Backed(strike, ds, bs)
    requires if k in ds then st.deposit >= ds[k].deposit else Sum(bs, HeldBy(k)) == 0
    ensures Backed(strike, ds[k := st], bs)
  {
    hide Sum;
  }

  lemma UnheldWithoutRegistration(l: Ledger, k: Key)
    requires Inv(l) && k !in l.deliverers
    ensures Sum(l.bookings, HeldBy(k)) == 0
  {
    hide Sum, PricePerToken, ModulesInv, SponsorshipsInv, CancellationsInv, ProposalsInv, BallotsInv, GiftsInv;
    SumZero(l.bookings, HeldBy(k));
  }

  // ----- one step -----

  lemma IdleKeepsDeliverers(l: Ledger, now: i64, c: DeliveryCall)
    requires DeliveryStep(l, now, c).Ok? && Idle(c) && !c.RegisterDeliverer? && !c.UnregisterDeliverer?
    ensures DeliveryStep(l, now, c).value.deliverers == l.deliverers
  {
    hide Sum, PricePerToken, Debit, Credit, Clamp, World.HasRole, CheckedMul, Funding.Reclaim;
    match c {
      case CreateModule(_, _, _) =>
      case BurnUnsponsored(_, _, _) =>
      case RemoveModule(_, _) =>
      case SponsorModule(_, _, _, _) =>
      case ReclaimSponsorship(_, _, _) =>
      case CloseSponsorship(_, _) =>
      case ClearOldCancellation(_, _) =>
    }
  }

  /** Every step of the delivery side keeps every claim backed. */
  lemma DeliveryKeepsBacking(l: Ledger, now: i64, c: DeliveryCall)
    requires Inv(l) && LedgerBacked(l) && DeliveryStep(l, now, c).Ok?
    ensures LedgerBacked(DeliveryStep(l, now, c).value)
  {
    hide Sum, Inv, PricePerToken, Split, Delivery.PayOut, Backed, StrikeOf, Clamp, CheckedMul, Delivery.MayFinalize,
         Funding.Reclaim;
    DeliveryFrame(l, now, c);
    var strike, l' := StrikeOf(l.world.config), DeliveryStep(l, now, c).value;
    if Idle(c) && !c.RegisterDeliverer? && !c.UnregisterDeliverer? {
      IdleLeavesBookings(l, now, c);
      IdleKeepsDeliverers(l, now, c);
    } else {
      match c {
        case BookModule(_, id, _) =>
          PutFewer(strike, l.deliverers, l.bookings, (id.0, l.world.nextBooking),
                   l'.bookings[(id.0, l.world.nextBooking)]);
        case ClaimBooking(lecturer, key) => ClaimKeepsBacking(l, now, lecturer, key);
        case CancelBooking(_, key) => DropFewer(strike, l.deliverers, l.bookings, key);
        case CancelClaim(lecturer, key) => CancelClaimKeepsBacking(l, lecturer, key);
        case ExpireBooking(key) => DropFewer(strike, l.deliverers, l.bookings, key);
        case SubmitScore(_, key, _) => RescoreKeepsBacking(l, key, l'.bookings[key]);
        case DisputeScore(_, key, _) => RescoreKeepsBacking(l, key, l'.bookings[key]);
        case ResolveDispute(_, key, _) => RescoreKeepsBacking(l, key, l'.bookings[key]);
        case FinalizeScore(cranker, key) => FinalizeKeepsBacking(l, now, cranker, key);
        case FinishBooking(key) => DropFewer(strike, l.deliverers, l.bookings, key);
        case RegisterDeliverer(lecturer) => RegisterKeepsBacking(l, lecturer);
        case UnregisterDeliverer(lecturer) => UnregisterKeepsBacking(strike, l.deliverers, l.bookings, lecturer);
      }
    }
  }

  lemma RescoreKeepsBacking(l: Ledger, key: Id, b: Booking)
    requires Inv(l) && LedgerBacked(l) && key in l.bookings
    requires b.lecturer == l.bookings[key].lecturer && (b.settled <==> l.bookings[key].settled)
    ensures Backed(StrikeOf(l.world.config), l.deliverers, l.bookings[key := b])
  {
    hide Sum, Inv, PricePerToken, Backed, StrikeOf;
    PutFewer(StrikeOf(l.world.config), l.deliverers, l.bookings, key, b);
  }

  lemma ClaimKeepsBacking(l: Ledger, now: i64, lecturer: Key, key: Id)
    requires Inv(l) && LedgerBacked(l) && Delivery.ClaimBooking(l, now, lecturer, key).Ok?
    ensures LedgerBacked(Delivery.ClaimBooking(l, now, lecturer, key).value)
  {
    hide Sum, Inv, PricePerToken, Backed, Config.SlashPerStrike;
    BookingAt(l, key);
    ClaimBacked(StrikeOf(l.world.config), l.deliverers, l.bookings, key, l.bookings[key].(lecturer := Some(lecturer)),
                lecturer);
  }

  lemma CancelClaimKeepsBacking(l: Ledger, lecturer: Key, key: Id)
    requires Inv(l) && LedgerBacked(l) && Delivery.CancelClaim(l, lecturer, key).Ok?
    ensures LedgerBacked(Delivery.CancelClaim(l, lecturer, key).value)
  {
    hide Sum, Inv, PricePerToken, Backed, Config.SlashPerStrike;
    BookingAt(l, key);
    var st := Delivery.CancelClaim(l, lecturer, key).value.deliverers[lecturer];
    GiveUpBacked(StrikeOf(l.world.config), l.deliverers, l.bookings, key, l.bookings[key].(lecturer := None), lecturer,
                 st);
  }

  lemma FinalizeKeepsBacking(l: Ledger, now: i64, cranker: Key, key: Id)
    requires Inv(l) && LedgerBacked(l) && Delivery.FinalizeScore(l, now, cranker, key).Ok?
    ensures LedgerBacked(Delivery.FinalizeScore(l, now, cranker, key).value)
  {
    hide Sum, Inv, PricePerToken, Split, Delivery.PayOut, Backed, StrikeOf;
    BookingAt(l, key);
    var l', lecturer := Delivery.FinalizeScore(l, now, cranker, key).value, l.bookings[key].lecturer.value;
    PutFewer(StrikeOf(l.world.config), l.deliverers, l.bookings, key, l'.bookings[key]);
    RicherBacked(StrikeOf(l.world.config), l.deliverers, l'.bookings, lecturer, l'.deliverers[lecturer]);
  }

  lemma RegisterKeepsBacking(l: Ledger, lecturer: Key)
    requires Inv(l) && LedgerBacked(l) && Delivery.RegisterDeliverer(l, lecturer).Ok?
    ensures LedgerBacked(Delivery.RegisterDeliverer(l, lecturer).value)
  {
    hide Sum, Inv, PricePerToken, Backed, StrikeOf;
    if lecturer !in l.deliverers {
      UnheldWithoutRegistration(l, lecturer);
    }
    var l' := Delivery.RegisterDeliverer(l, lecturer).value;
    RicherBacked(StrikeOf(l.world.config), l.deliverers, l.bookings, lecturer, l'.deliverers[lecturer]);
  }

  lemma UnregisterKeepsBacking(strike: nat, ds: map<Key, Standing>, bs: map<Id, Booking>, k: Key)
    requires Backed(strike, ds, bs)
    ensures Backed(strike, ds - {k}, bs)
  {
    hide Sum;
  }

  /** A new configuration leaves the claims backed exactly when every deposit covers the new strike. */
  lemma UpdateConfigBacks(l: Ledger, now: i64, authority: Key, c: Config)
    requires GovernanceStep(l, now, UpdateConfig(authority, c)).Ok?
    ensures LedgerBacked(GovernanceStep(l, now, UpdateConfig(authority, c)).value)
            <==> Backed(StrikeOf(c), l.deliverers, l.bookings)
  {
    hide Sum, StrikeOf, Backed;
  }

  /** Any claim can be left without full backing: some valid configuration makes a strike dearer than the deposit. */
  lemma SomeConfigUnbacks(l: Ledger, now: i64, k: Key)
    requires Inv(l) && k in l.deliverers && l.ActiveClaims(k) > 0 && l.deliverers[k].deposit < U64_MAX
    ensures exists c: Config :: GovernanceStep(l, now, UpdateConfig(l.world.authority, c)).Ok?
                               && !LedgerBacked(GovernanceStep(l, now, UpdateConfig(l.world.authority, c)).value)
  {
    hide Sum, Inv, FeeCeil;
    ConfigAt(l);
    var deposit := l.deliverers[k].deposit + 1;
    var c := l.world.config.(delivererDeposit := deposit, strikeSlashBps := 10000);
    FeeCeilExact(deposit, 10000);
    MulBounded(deposit, 1, deposit, l.ActiveClaims(k));
    UpdateConfigBacks(l, now, l.world.authority, c);
  }

  predicate Reconfigures(tx: Tx) {
    tx.call.Govern? && tx.call.governance.UpdateConfig?
  }

  lemma StepKeepsBacking(l: Ledger, tx: Tx)
    requires Inv(l) && LedgerBacked(l)
    requires Reconfigures(tx) && Step(l, tx).Ok? ==>
               Backed(StrikeOf(tx.call.governance.config), l.deliverers, l.bookings)
    ensures LedgerBacked(Apply(l, tx))
  {
    hide DeliveryStep, GovernanceStep, Sum, Inv, StrikeOf, Backed;
    if Step(l, tx).Ok? {
      match tx.call {
        case Deliver(c) =>
          DeliveryKeepsBacking(l, tx.now, c);
        case Govern(c) =>
          GovernanceFrame(l, tx.now, c);
      }
    }
  }

  // ----- whole runs -----

  /** When the i-th step sets a configuration, every deposit covers the new strike for each open claim. */
  ghost predicate CoversNewStrike(l: Ledger, txs: seq<Tx>, i: nat)
    requires i < |txs|
  {
    var before := Run(l, txs[..i]);
    Reconfigures(txs[i]) && Step(before, txs[i]).Ok? ==>
      forall k: Key :: k in before.deliverers ==>
        before.deliverers[k].deposit >= StrikeOf(txs[i].call.governance.config) * before.ActiveClaims(k)
  }

  lemma {:induction false} BackedUpTo(l: Ledger, txs: seq<Tx>, n: nat)
    requires Inv(l) && Chronological(l.clock, txs) && LedgerBacked(l) && n <= |txs|
    requires forall i: nat :: i < n ==> CoversNewStrike(l, txs, i)
    ensures LedgerBacked(Run(l, txs[..n]))
  {
    hide Step, Sum, Inv, Apply, StrikeOf;
    if n == 0 {
      assert txs[..n] == [];
    } else {
      BackedUpTo(l, txs, n - 1);
      AlongRun(l, txs, n - 1);
      assert CoversNewStrike(l, txs, n - 1);
      StepKeepsBacking(Run(l, txs[..n - 1]), txs[n - 1]);
    }
  }

  /**
   * Over any run, every open claim is backed by a full strike all along exactly when it was at the start and each
   * new configuration came at a time when every deposit already covered its strike: nothing else can unback one.
   */
  lemma BackedThroughout(l: Ledger, txs: seq<Tx>)
    requires Inv(l) && Chronological(l.clock, txs)
    ensures (forall n: nat :: n <= |txs| ==> LedgerBacked(Run(l, txs[..n])))
            <==> LedgerBacked(l) && forall i: nat :: i < |txs| ==> CoversNewStrike(l, txs, i)
  {
    hide Step, Sum, Inv, Apply, LedgerBacked, CoversNewStrike;
    if forall n: nat :: n <= |txs| ==> LedgerBacked(Run(l, txs[..n])) {
      assert LedgerBacked(Run(l, txs[..0])) && txs[..0] == [];
      forall i: nat | i < |txs|
        ensures CoversNewStrike(l, txs, i)
      {
        assert LedgerBacked(Run(l, txs[..i + 1]));
        AlongRun(l, txs, i);
        BackedAfter(l, txs, i);
      }
    }
    if LedgerBacked(l) && forall i: nat :: i < |txs| ==> CoversNewStrike(l, txs, i) {
      forall n: nat | n <= |txs|
        ensures LedgerBacked(Run(l, txs[..n]))
      {
        BackedUpTo(l, txs, n);
      }
    }
  }

  lemma BackedAfter(l: Ledger, txs: seq<Tx>, i: nat)
    requires i < |txs| && LedgerBacked(Apply(Run(l, txs[..i]), txs[i]))
    ensures CoversNewStrike(l, txs, i)
  {
    hide DeliveryStep, GovernanceStep, Sum, StrikeOf;
    var before, tx := Run(l, txs[..i]), txs[i];
    if Reconfigures(tx) && Step(before, tx).Ok? {
      UpdateConfigBacks(before, tx.now, tx.call.governance.authority, tx.call.governance.config);
    }
  }

  /** The size of a strike is the same in every configuration the run sets. */
  predicate StrikeFixed(strike: nat, txs: seq<Tx>) {
    forall i :: 0 <= i < |txs| && Reconfigures(txs[i]) ==> StrikeOf(txs[i].call.governance.config) == strike
  }

  lemma {:induction false} StrikeStays(l: Ledger, txs: seq<Tx>)
    requires StrikeFixed(StrikeOf(l.world.config), txs)
    ensures StrikeOf(Run(l, txs).world.config) == StrikeOf(l.world.config)
    decreases |txs|
  {
    hide DeliveryStep, GovernanceStep, Sum, StrikeOf;
    if txs != [] {
      var n := |txs| - 1;
      StrikeStays(l, txs[..n]);
      var before := Run(l, txs[..n]);
      if Step(before, txs[n]).Ok? {
        match txs[n].call {
          case Deliver(c) => DeliveryFrame(before, txs[n].now, c);
          case Govern(c) => GovernanceFrame(before, txs[n].now, c);
        }
      }
    }
  }

  /** In particular, while the size of a strike stays fixed, claims that were backed stay backed over any run. */
  lemma ClaimsStayBacked(l: Ledger, txs: seq<Tx>)
    requires Inv(l) && Chronological(l.clock, txs) && LedgerBacked(l) && StrikeFixed(StrikeOf(l.world.config), txs)
    ensures LedgerBacked(Run(l, txs)) && StrikeOf(Run(l, txs).world.config) == StrikeOf(l.world.config)
    decreases |txs|
  {
    hide Step, Sum, Inv, Apply, StrikeOf;
    StrikeStays(l, txs);
    if txs != [] {
      forall n: nat | n <= |txs|
        ensures LedgerBacked(Run(l, txs[..n]))
      {
        FixedCovers(l, txs, n);
      }
      assert txs[..|txs|] == txs;
    }
  }

  lemma {:induction false} FixedCovers(l: Ledger, txs: seq<Tx>, n: nat)
    requires Inv(l) && Chronological(l.clock, txs) && LedgerBacked(l) && StrikeFixed(StrikeOf(l.world.config), txs)
    requires n <= |txs|
    ensures LedgerBacked(Run(l, txs[..n]))
    ensures forall i: nat :: i < n ==> CoversNewStrike(l, txs, i)
  {
    hide Step, Sum, Inv, Apply, StrikeOf;
    if n == 0 {
      assert txs[..n] == [];
    } else {
      FixedCovers(l, txs, n - 1);
      StrikeStays(l, txs[..n - 1]);
      assert CoversNewStrike(l, txs, n - 1);
      BackedUpTo(l, txs, n);
    }
  }

  /** A lecturer takes a strike, and this much of the deposit goes to the treasury. */
  ghost predicate Struck(l: Ledger, l': Ledger, lecturer: Key, slash: nat) {
    && lecturer in l.deliverers && lecturer in l'.deliverers
    && l'.world.treasury == l.world.treasury + slash
    && l'.deliverers[lecturer].deposit == l.deliverers[lecturer].deposit - slash
    && l'.deliverers[lecturer].strikes == l.deliverers[lecturer].strikes + 1
  }

  /**
   * Where claims are backed, giving one up at the strike ceiling costs exactly one strike, and below it nothing:
   * the deposit never runs short.
   */
  lemma SlashIsWhole(l: Ledger, lecturer: Key, key: Id)
    requires Inv(l) && LedgerBacked(l) && Delivery.CancelClaim(l, lecturer, key).Ok?
    ensures lecturer in l.deliverers
    ensures Struck(l, Delivery.CancelClaim(l, lecturer, key).value, lecturer,
                   if l.deliverers[lecturer].strikes + 1 >= l.world.config.maxStrikes
                   then StrikeOf(l.world.config) else 0)
  {
    hide Sum, Inv, PricePerToken, Backed, Config.SlashPerStrike;
    BookingAt(l, key);
    GiveUpBacked(StrikeOf(l.world.config), l.deliverers, l.bookings, key, l.bookings[key].(lecturer := None), lecturer,
                 l.deliverers[lecturer]);
  }
}
