/**
 * What a module and a sponsorship keep over whole runs: the terms they were made on never change, and their
 * history only grows, so the accounting identities are about the original funding and the original supply.
 */
module RecordHistory {
  import opened Machine
  import opened Pricing
  import opened Settlement
  import opened Sums
  import opened Wallets
  import opened EducationState
  import opened EducationLedger
  import opened EducationRuns
  import Delivery = DeliverySteps
  import opened DeliveryProofs

  predicate ModuleLater(m: ModuleRecord, m': ModuleRecord) {
    m'.base == m.base && m.burned <= m'.burned && m.delivered <= m'.delivered
  }

  predicate FundingLater(s: Funding, s': Funding) {
    && s'.funded == s.funded && s'.deal == s.deal.(amount := s'.deal.amount)
    && s.reclaimed <= s'.reclaimed && s.paidOut <= s'.paidOut && s.refunded <= s'.refunded
  }

  ghost predicate RecordsMove(l: Ledger, l': Ledger, mid: nat, id: Id) {
    && l'.world.nextModule >= l.world.nextModule && l'.world.nextSponsor >= l.world.nextSponsor
    && (mid in l.modules && mid in l'.modules ==> ModuleLater(l.modules[mid], l'.modules[mid]))
    && (mid !in l.modules && mid in l'.modules ==> mid >= l.world.nextModule)
    && (id in l.sponsorships && id in l'.sponsorships ==> FundingLater(l.sponsorships[id], l'.sponsorships[id]))
    && (id !in l.sponsorships && id in l'.sponsorships ==> id.1 >= l.world.nextSponsor)
  }

  /** Nothing about modules and sponsorships changed. */
  ghost predicate RecordsStay(l: Ledger, l': Ledger) {
    && l'.modules == l.modules && l'.sponsorships == l.sponsorships
    && l'.world.nextModule == l.world.nextModule && l'.world.nextSponsor == l.world.nextSponsor
  }

  lemma SellingMovesRecords(l: Ledger, now: i64, c: DeliveryCall, mid: nat, id: Id)
    requires DeliveryStep(l, now, c).Ok?
             && (c.SponsorModule? || c.ReclaimSponsorship? || c.CloseSponsorship? || c.BookModule?)
    requires mid in l.modules ==> mid < l.world.nextModule
    requires id in l.sponsorships ==> id.1 < l.world.nextSponsor
    ensures RecordsMove(l, DeliveryStep(l, now, c).value, mid, id)
  {
    hide Sum, Delivery.PayOut, Delivery.Delivered, Delivery.MayFinalize, PricePerToken, Split, Debit, Credit, Clamp,
         World.HasRole;
    match c {
      case SponsorModule(_, _, _, _) =>
      case ReclaimSponsorship(_, _, _) =>
      case CloseSponsorship(_, _) =>
      case BookModule(_, _, _) =>
    }
  }

  lemma SettlingMovesRecords(l: Ledger, now: i64, c: DeliveryCall, mid: nat, id: Id)
    requires DeliveryStep(l, now, c).Ok? && (c.CancelBooking? || c.ExpireBooking? || c.FinalizeScore?)
    requires mid in l.modules ==> mid < l.world.nextModule
    requires id in l.sponsorships ==> id.1 < l.world.nextSponsor
    ensures RecordsMove(l, DeliveryStep(l, now, c).value, mid, id)
  {
    hide Sum, Delivery.PayOut, Delivery.Delivered, Delivery.MayFinalize, PricePerToken, Split, Debit, Credit, Clamp,
         World.HasRole;
    match c {
      case CancelBooking(_, _) =>
      case ExpireBooking(_) =>
      case FinalizeScore(_, _) =>
    }
  }

  lemma SupplyMovesRecords(l: Ledger, now: i64, c: DeliveryCall, mid: nat, id: Id)
    requires DeliveryStep(l, now, c).Ok? && (c.CreateModule? || c.BurnUnsponsored? || c.RemoveModule?)
    requires mid in l.modules ==> mid < l.world.nextModule
    requires id in l.sponsorships ==> id.1 < l.world.nextSponsor
    ensures RecordsMove(l, DeliveryStep(l, now, c).value, mid, id)
  {
    hide Sum, Delivery.PayOut, Delivery.Delivered, Delivery.MayFinalize, PricePerToken, Split, Debit, Credit, Clamp,
         World.HasRole;
    match c {
      case CreateModule(_, _, _) =>
      case BurnUnsponsored(_, _, _) =>
      case RemoveModule(_, _) =>
    }
  }

  lemma RestLeavesRecords(l: Ledger, now: i64, c: DeliveryCall)
    requires DeliveryStep(l, now, c).Ok?
    requires !(c.SponsorModule? || c.ReclaimSponsorship? || c.CloseSponsorship? || c.BookModule?)
    requires !(c.CancelBooking? || c.ExpireBooking? || c.FinalizeScore?)
    requires !(c.CreateModule? || c.BurnUnsponsored? || c.RemoveModule?)
    ensures RecordsStay(l, DeliveryStep(l, now, c).value)
  {
    hide Sum, PricePerToken, Debit, Credit, Clamp, World.HasRole, Config.SlashPerStrike, Delivery.Counterparty;
    match c {
      case ClaimBooking(_, _) =>
      case ClearOldCancellation(_, _) =>
      case CancelClaim(_, _) =>
      case SubmitScore(_, _, _) =>
      case DisputeScore(_, _, _) =>
      case ResolveDispute(_, _, _) =>
      case FinishBooking(_) =>
      case RegisterDeliverer(_) =>
      case UnregisterDeliverer(_) =>
    }
  }

  lemma MintingMovesRecords(l: Ledger, now: i64, c: GovernanceCall, mid: nat, id: Id)
    requires GovernanceStep(l, now, c).Ok? && (c.MintProposed? || c.MintSponsored?)
    requires mid in l.modules ==> mid < l.world.nextModule
    requires id in l.sponsorships ==> id.1 < l.world.nextSponsor
    ensures RecordsMove(l, GovernanceStep(l, now, c).value, mid, id)
  {
    hide Sum, World.HasRole;
    match c {
      case MintProposed(_, _) =>
      case MintSponsored(_, _) =>
    }
  }

  lemma StepMovesRecords(l: Ledger, tx: Tx, mid: nat, id: Id)
    requires Inv(l)
    ensures RecordsMove(l, Apply(l, tx), mid, id)
  {
    hide DeliveryStep, GovernanceStep, Inv, Sum, PricePerToken, FundingBalances;
    ModuleAt(l, mid);
    SponsorshipAt(l, id);
    if Step(l, tx).Ok? {
      match tx.call {
        case Deliver(c) =>
          if c.SponsorModule? || c.ReclaimSponsorship? || c.CloseSponsorship? || c.BookModule? {
            SellingMovesRecords(l, tx.now, c, mid, id);
          } else if c.CancelBooking? || c.ExpireBooking? || c.FinalizeScore? {
            SettlingMovesRecords(l, tx.now, c, mid, id);
          } else if c.CreateModule? || c.BurnUnsponsored? || c.RemoveModule? {
            SupplyMovesRecords(l, tx.now, c, mid, id);
          } else {
            RestLeavesRecords(l, tx.now, c);
          }
        case Govern(c) =>
          if c.MintProposed? || c.MintSponsored? {
            MintingMovesRecords(l, tx.now, c, mid, id);
          } else {
            GovernanceFrame(l, tx.now, c);
          }
      }
    }
  }

  /** Over any run a module's terms and a sponsorship's funding stay as they were made, and history only grows. */
  lemma {:induction false} RecordsOverRun(l: Ledger, txs: seq<Tx>, mid: nat, id: Id)
    requires Inv(l) && Chronological(l.clock, txs)
    ensures RecordsMove(l, Run(l, txs), mid, id)
    decreases |txs|
  {
    hide Step, Inv, Sum, PricePerToken, FundingBalances, Apply;
    ModuleAt(l, mid);
    SponsorshipAt(l, id);
    if txs != [] {
      var n := |txs| - 1;
      ChronologicalPrefix(l.clock, txs, n);
      RecordsOverRun(l, txs[..n], mid, id);
      AlongRun(l, txs, n);
      assert txs[..n + 1] == txs;
      StepMovesRecords(Run(l, txs[..n]), txs[n], mid, id);
    }
  }
}
