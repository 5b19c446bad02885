/**
 * The life of one booking over whole runs: who can score it, how a dispute can change the score, and that it
 * settles at most once and leaves in only one way.
 */
module BookingHistory {
  import opened Machine
  import opened Pricing
  import opened Settlement
  import opened Sums
  import opened Wallets
  import opened EducationState
  import opened EducationLedger
  import opened EducationRuns
  import Delivery = DeliverySteps
  import DeliveryProofs

  /**
   * How a booking may look later: its deal never changes; once scored its parties are fixed; a dispute is raised
   * once and, when decided, the score is final; once settled nothing changes.
   */
  predicate Later(b: Booking, b': Booking) {
    && b'.sponsorId == b.sponsorId && b'.sponsor == b.sponsor && b'.school == b.school && b'.asset == b.asset
    && b'.price == b.price && b'.deposit == b.deposit && b'.deliveryAt == b.deliveryAt
    && (b.score.Some? ==> b'.score.Some? && b'.lecturer == b.lecturer && b'.scoreAt == b.scoreAt)
    && (b.disputer.Some? ==> b'.disputer == b.disputer)
    && (b.disputer.Some? && b.proposedScore.None? ==> b'.score == b.score && b'.proposedScore.None?)
    && (b.settled ==> b' == b)
  }

  /** Only the agent's first score and an accepted amendment set the score; an amendment comes only from a party. */
  ghost predicate ScoredBy(l: Ledger, c: DeliveryCall, key: Id, b: Booking, b': Booking) {
    && (b'.score != b.score ==>
          || (c.SubmitScore? && c.key == key && b.score.None? && b'.score == Some(c.score)
              && l.world.HasRole(c.agent, ModuleAIAgent))
          || (c.ResolveDispute? && c.key == key && c.accept && b.proposedScore.Some? && b'.score == b.proposedScore
              && Delivery.Counterparty(b) == Some(c.counterparty)))
    && (b'.proposedScore.Some? && b'.proposedScore != b.proposedScore ==>
          c.DisputeScore? && c.key == key && b'.disputer == Some(c.party) && b'.proposedScore == Some(c.proposed)
             && b.IsParty(c.party))
  }

  /** A booking settles only when finalizing is allowed, at the score it stood at. */
  ghost predicate SettledBy(l: Ledger, now: i64, c: DeliveryCall, key: Id, b: Booking, b': Booking) {
    b'.settled && !b.settled ==>
      c.FinalizeScore? && c.key == key && Delivery.MayFinalize(l, now, c.cranker, b) && b'.score == b.score
  }

  /** An unscored booking leaves by being cancelled by its school or by expiring; a scored one only once settled. */
  ghost predicate LeftBy(l: Ledger, now: i64, c: DeliveryCall, key: Id, b: Booking) {
    || (b.score.None? && c.CancelBooking? && c.key == key && c.school == b.school)
    || (b.score.None? && c.ExpireBooking? && c.key == key && now > Clamp(b.deliveryAt + l.world.config.noShowGrace))
    || (b.settled && c.FinishBooking? && c.key == key)
  }

  // ----- one step -----

  /** What one step may do to one booking. */
  ghost predicate BookingMove(l: Ledger, l': Ledger, now: i64, c: DeliveryCall, key: Id) {
    && l'.world.nextBooking >= l.world.nextBooking
    && (key in l.bookings && key in l'.bookings ==>
          && Later(l.bookings[key], l'.bookings[key])
          && ScoredBy(l, c, key, l.bookings[key], l'.bookings[key])
          && SettledBy(l, now, c, key, l.bookings[key], l'.bookings[key]))
    && (key in l.bookings && key !in l'.bookings ==> LeftBy(l, now, c, key, l.bookings[key]))
    && (key !in l.bookings && key in l'.bookings ==>
          && key.1 == l.world.nextBooking
          && l'.bookings[key].score.None? && l'.bookings[key].proposedScore.None?)
  }

  predicate Idle(c: DeliveryCall) {
    c.CreateModule? || c.BurnUnsponsored? || c.RemoveModule? || c.SponsorModule? || c.ReclaimSponsorship?
       || c.CloseSponsorship?
    || c.ClearOldCancellation? || c.RegisterDeliverer? || c.UnregisterDeliverer?
  }

  /** Instructions on modules, sponsorships, registrations and old cancellations leave every booking alone. */
  lemma IdleLeavesBookings(l: Ledger, now: i64, c: DeliveryCall)
    requires DeliveryStep(l, now, c).Ok?
    requires Idle(c)
    ensures DeliveryStep(l, now, c).value.bookings == l.bookings
    ensures DeliveryStep(l, now, c).value.world.nextBooking == l.world.nextBooking
  {
    hide Sum, PricePerToken, Debit, Credit;
    match c {
      case CreateModule(_, _, _) =>
      case BurnUnsponsored(_, _, _) =>
      case RemoveModule(_, _) =>
      case SponsorModule(_, _, _, _) =>
      case ReclaimSponsorship(_, _, _) =>
      case CloseSponsorship(_, _) =>
      case ClearOldCancellation(_, _) =>
      case RegisterDeliverer(_) =>
      case UnregisterDeliverer(_) =>
    }
  }

  lemma ScoringMovesBooking(l: Ledger, now: i64, c: DeliveryCall, key: Id)
    requires DeliveryStep(l, now, c).Ok? && (c.SubmitScore? || c.DisputeScore? || c.ResolveDispute?)
    requires key in l.bookings ==> BookingShape(l.bookings[key]) && key.1 < l.world.nextBooking
    ensures BookingMove(l, DeliveryStep(l, now, c).value, now, c, key)
  {
    hide Sum, Delivery.PayOut, PricePerToken, Split, Clamp, Delivery.Delivered, World.HasRole, Funding.Settle;
    match c {
      case SubmitScore(_, _, _) =>
      case DisputeScore(_, _, _) =>
      case ResolveDispute(_, _, _) =>
    }
  }

  lemma SettlingMovesBooking(l: Ledger, now: i64, c: DeliveryCall, key: Id)
    requires DeliveryStep(l, now, c).Ok? && (c.FinalizeScore?)
    requires key in l.bookings ==> BookingShape(l.bookings[key]) && key.1 < l.world.nextBooking
    ensures BookingMove(l, DeliveryStep(l, now, c).value, now, c, key)
  {
    hide Sum, Delivery.PayOut, PricePerToken, Split, Clamp, Delivery.Delivered, World.HasRole, Funding.Settle;
    match c {
      case FinalizeScore(_, _) =>
    }
  }

  lemma TradeMovesBooking(l: Ledger, now: i64, c: DeliveryCall, key: Id)
    requires DeliveryStep(l, now, c).Ok? && (c.BookModule? || c.ClaimBooking? || c.CancelClaim?)
    requires key in l.bookings ==> BookingShape(l.bookings[key]) && key.1 < l.world.nextBooking
    ensures BookingMove(l, DeliveryStep(l, now, c).value, now, c, key)
  {
    hide Sum, PricePerToken, Debit, Credit, Clamp, World.HasRole, Config.SlashPerStrike, Funding.WithAmount;
    match c {
      case BookModule(_, _, _) =>
      case ClaimBooking(_, _) =>
      case CancelClaim(_, _) =>
    }
  }

  lemma LeavingMovesBooking(l: Ledger, now: i64, c: DeliveryCall, key: Id)
    requires DeliveryStep(l, now, c).Ok? && (c.CancelBooking? || c.ExpireBooking? || c.FinishBooking?)
    requires key in l.bookings ==> BookingShape(l.bookings[key]) && key.1 < l.world.nextBooking
    ensures BookingMove(l, DeliveryStep(l, now, c).value, now, c, key)
  {
    hide Sum, PricePerToken, Debit, Credit, Clamp, World.HasRole, Config.SlashPerStrike, Funding.WithAmount;
    match c {
      case CancelBooking(_, _) =>
      case ExpireBooking(_) =>
      case FinishBooking(_) =>
    }
  }

  /** What one step of a run does to one booking, whatever the step. */
  lemma StepMovesBooking(l: Ledger, tx: Tx, key: Id)
    requires Inv(l)
    ensures tx.call.Deliver? && Step(l, tx).Ok? ==> BookingMove(l, Step(l, tx).value, tx.now, tx.call.delivery, key)
    ensures tx.call.Govern? || Step(l, tx).Err? ==>
              Apply(l, tx).bookings == l.bookings && Apply(l, tx).world.nextBooking == l.world.nextBooking
  {
    hide DeliveryStep, GovernanceStep, Inv, Sum, PricePerToken, Delivery.MayFinalize;
    DeliveryProofs.BookingAt(l, key);
    if Step(l, tx).Ok? {
      match tx.call {
        case Deliver(c) =>
          if Idle(c) {
            IdleLeavesBookings(l, tx.now, c);
          } else if c.SubmitScore? || c.DisputeScore? || c.ResolveDispute? {
            ScoringMovesBooking(l, tx.now, c, key);
          } else if c.FinalizeScore? {
            SettlingMovesBooking(l, tx.now, c, key);
          } else if c.BookModule? || c.ClaimBooking? || c.CancelClaim? {
            TradeMovesBooking(l, tx.now, c, key);
          } else {
            LeavingMovesBooking(l, tx.now, c, key);
          }
        case Govern(c) => GovernanceFrame(l, tx.now, c);
      }
    }
  }

  // ----- whole runs -----

  /** Whatever happens, a booking that is still there is a later form of itself, and one that is gone never returns. */
  lemma {:induction false} BookingOverRun(l: Ledger, txs: seq<Tx>, key: Id)
    requires Inv(l) && Chronological(l.clock, txs)
    ensures var l' := Run(l, txs);
            && l'.world.nextBooking >= l.world.nextBooking
            && (key in l.bookings && key in l'.bookings ==> Later(l.bookings[key], l'.bookings[key]))
            && (key !in l.bookings && key in l'.bookings ==> key.1 >= l.world.nextBooking)
    decreases |txs|
  {
    hide Step, Inv, Sum;
    if txs != [] {
      var n := |txs| - 1;
      ChronologicalPrefix(l.clock, txs, n);
      BookingOverRun(l, txs[..n], key);
      AlongRun(l, txs, n);
      DeliveryProofs.BookingAt(l, key);
      assert txs[..n + 1] == txs;
      StepMovesBooking(Run(l, txs[..n]), txs[n], key);
    }
  }

  /**
   * In every state any run from the start reaches, each booking is at one of its stages, draws on a live sponsorship
   * at its price, has its module and lecturer while it is unsettled, shares its id with none, and was not cancelled.
   */
  lemma BookingAlways(w: World, txs: seq<Tx>, key: Id)
    requires w.config.Valid() && Sum(w.xcav, Held()) + w.treasury <= U64_MAX && Chronological(I64_MIN, txs)
    ensures var l := Run(Start(w), txs);
            key in l.bookings ==>
              && BookingOk(l.world.nextBooking, l.modules, l.sponsorships, l.deliverers, key, l.bookings[key])
              && (forall other :: other in l.bookings && other.1 == key.1 ==> other == key)
              && (forall school: Key :: (school, key.1) !in l.cancellations)
  {
    hide Step, Inv, Sum, BookingOk, Config.Valid, Apply, Ledger.XcavTotal, Ledger.CashTotal;
    ReachableHolds(w, txs);
    var l := Run(Start(w), txs);
    DeliveryProofs.BookingAt(l, key);
    if key in l.bookings {
      forall school: Key
        ensures (school, key.1) !in l.cancellations
      {
        DeliveryProofs.FreshCancellation(l, key, school);
      }
      forall other | other in l.bookings && other.1 == key.1
        ensures other == key
      {
        DeliveryProofs.BookingIds(l, key, other);
      }
    }
  }

  /** Once gone, gone for good: ids are never used twice. */
  lemma GoneForGood(l: Ledger, txs: seq<Tx>, n: nat, key: Id)
    requires Inv(l) && Chronological(l.clock, txs) && n <= |txs|
    requires key in Run(l, txs[..n]).bookings || key in l.bookings
    ensures key in Run(l, txs).bookings ==> key in Run(l, txs[..n]).bookings
  {
    hide Step, Inv, Sum, Apply;
    RestOfRun(l, txs, n);
    DeliveryProofs.BookingAt(l, key);
    BookingOverRun(l, txs[..n], key);
    BookingOverRun(Run(l, txs[..n]), txs[n..], key);
  }

  /** The rest of a run is a run from where the first part ended. */
  lemma RestOfRun(l: Ledger, txs: seq<Tx>, n: nat)
    requires Inv(l) && Chronological(l.clock, txs) && n <= |txs|
    ensures Chronological(l.clock, txs[..n]) && Inv(Run(l, txs[..n])) && Chronological(Run(l, txs[..n]).clock, txs[n..])
    ensures Run(l, txs) == Run(Run(l, txs[..n]), txs[n..])
  {
    hide Step, Inv, Sum, Apply;
    ChronologicalPrefix(l.clock, txs, n);
    RunKeeps(l, txs[..n]);
    RunSplit(l, txs, n);
    assert n > 0 ==> txs[..n][n - 1] == txs[n - 1];
  }

  /** The i-th step of the run settles the booking. */
  ghost predicate Settles(l: Ledger, txs: seq<Tx>, i: nat, key: Id)
    requires i < |txs|
  {
    && Step(Run(l, txs[..i]), txs[i]).Ok?
    && txs[i].call.Deliver? && txs[i].call.delivery.FinalizeScore? && txs[i].call.delivery.key == key
  }

  lemma SettlesNow(l: Ledger, now: i64, cranker: Key, key: Id)
    requires Delivery.FinalizeScore(l, now, cranker, key).Ok?
    ensures key in l.bookings && Delivery.MayFinalize(l, now, cranker, l.bookings[key])
    ensures var l' := Delivery.FinalizeScore(l, now, cranker, key).value;
            key in l'.bookings && l'.bookings[key] == l.bookings[key].(settled := true, proposedScore := None)
  {
    hide Sum, Delivery.PayOut, PricePerToken, Split;
  }

  /** A settling step leaves the booking settled, and it was not settled before. */
  lemma SettlesHere(l: Ledger, txs: seq<Tx>, i: nat, key: Id)
    requires Inv(l) && Chronological(l.clock, txs) && i < |txs| && Settles(l, txs, i, key)
    ensures key in Run(l, txs[..i]).bookings && !Run(l, txs[..i]).bookings[key].settled
    ensures key in Run(l, txs[..i + 1]).bookings && Run(l, txs[..i + 1]).bookings[key].settled
  {
    hide Delivery.FinalizeScore, Inv, Sum;
    AlongRun(l, txs, i);
    SettlesNow(Run(l, txs[..i]), txs[i].now, txs[i].call.delivery.cranker, key);
  }

  /** A booking settles at most once over any run. */
  lemma SettlesOnce(l: Ledger, txs: seq<Tx>, i: nat, j: nat, key: Id)
    requires Inv(l) && Chronological(l.clock, txs) && i < j < |txs|
    requires Settles(l, txs, i, key)
    ensures !Settles(l, txs, j, key)
  {
    hide Step, Inv, Sum, Settles, Apply;
    if Settles(l, txs, j, key) {
      SettlesHere(l, txs, i, key);
      SettlesHere(l, txs, j, key);
      assert txs[..j][..i + 1] == txs[..i + 1];
      ChronologicalPrefix(l.clock, txs, j);
      RestOfRun(l, txs[..j], i + 1);
      BookingOverRun(Run(l, txs[..i + 1]), txs[..j][i + 1..], key);
    }
  }

  // ----- where a score comes from -----

  /** The i-th step is an agent's score. */
  ghost predicate Submits(l: Ledger, txs: seq<Tx>, i: nat, key: Id, s: u16)
    requires i < |txs|
  {
    && Step(Run(l, txs[..i]), txs[i]).Ok?
    && txs[i].call.Deliver? && txs[i].call.delivery.SubmitScore?
    && txs[i].call.delivery.key == key && txs[i].call.delivery.score == s
    && Run(l, txs[..i]).world.HasRole(txs[i].call.delivery.agent, ModuleAIAgent)
  }

  /** The j-th step is one party's amendment. */
  ghost predicate Proposes(l: Ledger, txs: seq<Tx>, j: nat, key: Id, s: u16, party: Key)
    requires j < |txs|
  {
    && Step(Run(l, txs[..j]), txs[j]).Ok?
    && txs[j].call == Deliver(DisputeScore(party, key, s))
    && key in Run(l, txs[..j]).bookings && Run(l, txs[..j]).bookings[key].IsParty(party)
  }

  /** The i-th step is the other party accepting an amendment that one party proposed before. */
  ghost predicate Accepts(l: Ledger, txs: seq<Tx>, i: nat, key: Id, s: u16)
    requires i < |txs|
  {
    && Step(Run(l, txs[..i]), txs[i]).Ok?
    && txs[i].call.Deliver? && txs[i].call.delivery.ResolveDispute?
    && txs[i].call.delivery.key == key && txs[i].call.delivery.accept
    && key in Run(l, txs[..i]).bookings && Run(l, txs[..i]).bookings[key].IsParty(txs[i].call.delivery.counterparty)
    && exists j: nat, party :: j < i && party != txs[i].call.delivery.counterparty && Proposes(l, txs, j, key, s, party)
  }

  ghost predicate Authored(l: Ledger, txs: seq<Tx>, key: Id, s: u16) {
    exists i: nat :: i < |txs| && (Submits(l, txs, i, key, s) || Accepts(l, txs, i, key, s))
  }

  /** A pending amendment was proposed by the party on record. */
  ghost predicate Pending(l: Ledger, txs: seq<Tx>, key: Id, s: u16, party: Key) {
    exists j: nat :: j < |txs| && Proposes(l, txs, j, key, s, party)
  }

  lemma PrefixHistory(l: Ledger, txs: seq<Tx>, n: nat, key: Id, s: u16)
    requires n <= |txs|
    ensures Authored(l, txs[..n], key, s) ==> Authored(l, txs, key, s)
    ensures forall party :: Pending(l, txs[..n], key, s, party) ==> Pending(l, txs, key, s, party)
  {
    hide Step, Run;
    forall i: nat | i < n
      ensures txs[..n][..i] == txs[..i]
    {
    }
    if Authored(l, txs[..n], key, s) {
      var i: nat :| i < n && (Submits(l, txs[..n], i, key, s) || Accepts(l, txs[..n], i, key, s));
      if Submits(l, txs[..n], i, key, s) {
        assert Submits(l, txs, i, key, s);
      } else {
        var j: nat, party :| j < i && party != txs[i].call.delivery.counterparty
           && Proposes(l, txs[..n], j, key, s, party);
        assert Proposes(l, txs, j, key, s, party);
        assert Accepts(l, txs, i, key, s);
      }
    }
    forall party | Pending(l, txs[..n], key, s, party)
      ensures Pending(l, txs, key, s, party)
    {
      var j: nat :| j < n && Proposes(l, txs[..n], j, key, s, party);
      assert Proposes(l, txs, j, key, s, party);
    }
  }

  /**
   * Over any run from before it was scored, a booking's score is the agent's, or an amendment one of its two
   * parties proposed and the other accepted.
   */
  lemma {:induction false} ScoreIsAuthored(l: Ledger, txs: seq<Tx>, key: Id)
    requires Inv(l) && Chronological(l.clock, txs)
    requires key in l.bookings ==> l.bookings[key].score.None?
    ensures key in Run(l, txs).bookings ==>
              var b := Run(l, txs).bookings[key];
              && (b.score.Some? ==> Authored(l, txs, key, b.score.value))
              && (b.proposedScore.Some? ==>
                    b.disputer.Some? && Pending(l, txs, key, b.proposedScore.value, b.disputer.value))
    decreases |txs|
  {
    hide Step, Inv, Sum, Apply;
    DeliveryProofs.BookingAt(l, key);
    if txs != [] && key in Run(l, txs).bookings {
      var n := |txs| - 1;
      ChronologicalPrefix(l.clock, txs, n);
      ScoreIsAuthored(l, txs[..n], key);
      AlongRun(l, txs, n);
      assert txs[..n + 1] == txs;
      ScoreAuthoredByStep(l, txs, key);
    }
  }

  lemma ScoreAuthoredByStep(l: Ledger, txs: seq<Tx>, key: Id)
    requires txs != [] && var n := |txs| - 1; Inv(Run(l, txs[..n]))
    requires var n := |txs| - 1; key in Run(l, txs[..n]).bookings ==>
               var b := Run(l, txs[..n]).bookings[key];
               && (b.score.Some? ==> Authored(l, txs[..n], key, b.score.value))
               && (b.proposedScore.Some? ==>
                     b.disputer.Some? && Pending(l, txs[..n], key, b.proposedScore.value, b.disputer.value))
    requires key in Run(l, txs).bookings
    ensures var b := Run(l, txs).bookings[key];
            && (b.score.Some? ==> Authored(l, txs, key, b.score.value))
            && (b.proposedScore.Some? ==>
                  b.disputer.Some? && Pending(l, txs, key, b.proposedScore.value, b.disputer.value))
  {
    hide Step, Inv, Sum, Delivery.MayFinalize;
    var n := |txs| - 1;
    var before, tx, b' := Run(l, txs[..n]), txs[n], Run(l, txs).bookings[key];
    StepMovesBooking(before, tx, key);
    DeliveryProofs.BookingAt(before, key);
    if key in before.bookings {
      var b := before.bookings[key];
      if b'.score.Some? {
        PrefixHistory(l, txs, n, key, b'.score.value);
        if b'.score != b.score {
          if tx.call.delivery.SubmitScore? {
            assert Submits(l, txs, n, key, b'.score.value);
          } else {
            var j: nat :| j < n && Proposes(l, txs[..n], j, key, b'.score.value, b.disputer.value);
            assert txs[..n][..j] == txs[..j];
            assert Proposes(l, txs, j, key, b'.score.value, b.disputer.value);
            assert Accepts(l, txs, n, key, b'.score.value);
          }
        }
      }
      if b'.proposedScore.Some? {
        PrefixHistory(l, txs, n, key, b'.proposedScore.value);
        if b'.proposedScore != b.proposedScore {
          assert Proposes(l, txs, n, key, b'.proposedScore.value, b'.disputer.value);
        }
      }
    }
  }
}
