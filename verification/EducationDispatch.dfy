/** The program's entry point: each call goes to its instruction, so every run of the object is a run of the ledger. */
module EducationDispatch {
  import opened Machine
  import opened EducationState
  import opened EducationLedger
  import opened EducationAccounts
  import opened EducationProgram
  import opened EducationRuns
  import Delivery = DeliverySteps
  import Governance = GovernanceSteps

  method ExecuteDelivery(p: Education, now: i64, c: DeliveryCall) returns (r: Result<()>)
    requires p.Valid() && p.ledger.clock <= now
    modifies p
    ensures p.Valid()
    ensures Follows(r, old(p.ledger), p.ledger, DeliveryStep(old(p.ledger), now, c))
  {
    hide Delivery.CreateModule, Delivery.BurnUnsponsored, Delivery.RemoveModule, Delivery.SponsorModule,
         Delivery.ReclaimSponsorship, Delivery.CloseSponsorship, Delivery.BookModule, Delivery.ClaimBooking,
         Delivery.CancelBooking, Delivery.ClearOldCancellation, Delivery.CancelClaim, Delivery.ExpireBooking,
         Delivery.SubmitScore, Delivery.DisputeScore, Delivery.ResolveDispute, Delivery.FinalizeScore,
         Delivery.FinishBooking, Delivery.RegisterDeliverer, Delivery.UnregisterDeliverer, Stored, Follows;
    match c {
      case CreateModule(creator, region, amount) =>
        r := p.CreateModule(creator, region, amount);
      case BurnUnsponsored(creator, mid, amount) =>
        r := p.BurnUnsponsored(creator, mid, amount);
      case RemoveModule(creator, mid) =>
        r := p.RemoveModule(creator, mid);
      case SponsorModule(sponsor, mid, amount, asset) =>
        r := p.SponsorModule(now, sponsor, mid, amount, asset);
      case ReclaimSponsorship(sponsor, id, amount) =>
        r := p.ReclaimSponsorship(now, sponsor, id, amount);
      case CloseSponsorship(sponsor, id) =>
        r := p.CloseSponsorship(sponsor, id);
      case BookModule(school, id, deliveryAt) =>
        r := p.BookModule(now, school, id, deliveryAt);
      case ClaimBooking(lecturer, key) =>
        r := p.ClaimBooking(now, lecturer, key);
      case CancelBooking(school, key) =>
        r := p.CancelBooking(now, school, key);
      case ClearOldCancellation(school, bid) =>
        r := p.ClearOldCancellation(now, school, bid);
      case CancelClaim(lecturer, key) =>
        r := p.CancelClaim(lecturer, key);
      case ExpireBooking(key) =>
        r := p.ExpireBooking(now, key);
      case SubmitScore(agent, key, score) =>
        r := p.SubmitScore(now, agent, key, score);
      case DisputeScore(party, key, proposed) =>
        r := p.DisputeScore(now, party, key, proposed);
      case ResolveDispute(counterparty, key, accept) =>
        r := p.ResolveDispute(counterparty, key, accept);
      case FinalizeScore(cranker, key) =>
        r := p.FinalizeScore(now, cranker, key);
      case FinishBooking(key) =>
        r := p.FinishBooking(key);
      case RegisterDeliverer(lecturer) =>
        r := p.RegisterDeliverer(lecturer);
      case UnregisterDeliverer(lecturer) =>
        r := p.UnregisterDeliverer(lecturer);
    }
  }

  method ExecuteGovernance(p: Education, now: i64, c: GovernanceCall) returns (r: Result<()>)
    requires p.Valid() && p.ledger.clock <= now
    modifies p
    ensures p.Valid()
    ensures Follows(r, old(p.ledger), p.ledger, GovernanceStep(old(p.ledger), now, c))
  {
    hide Governance.CreateProposal, Governance.CreateSponsorProposal, Governance.VoteOnProposal,
         Governance.FinalizeProposal, Governance.UnlockVote, Governance.ClaimProposal, Governance.UploadProposal,
         Governance.ReleaseClaim, Governance.ReviewProposal, Governance.MintProposed, Governance.MintSponsored,
         Governance.ExpireProposal, Governance.ReclaimPreSponsor, Governance.ClearProposal, Governance.UpdateConfig,
         Governance.UpdateAuthority, Governance.TransferXcav, Governance.TransferCash, Governance.Donate,
         Governance.DonateXcav, Stored, Follows, Governance.SetRole, Governance.SetRegionOwner;
    match c {
      case CreateProposal(proposer, role, region, amount) =>
        r := p.CreateProposal(now, proposer, role, region, amount);
      case CreateSponsorProposal(proposer, region, amount, asset) =>
        r := p.CreateSponsorProposal(now, proposer, region, amount, asset);
      case VoteOnProposal(voter, pid, vote, amount) =>
        r := p.VoteOnProposal(now, voter, pid, vote, amount);
      case FinalizeProposal(pid) =>
        r := p.FinalizeProposal(now, pid);
      case UnlockVote(voter, pid) =>
        r := p.UnlockVote(now, voter, pid);
      case ClaimProposal(creator, pid) =>
        r := p.ClaimProposal(now, creator, pid);
      case UploadProposal(claimant, pid) =>
        r := p.UploadProposal(claimant, pid);
      case ReleaseClaim(pid) =>
        r := p.ReleaseClaim(now, pid);
      case ReviewProposal(agent, pid, passed) =>
        r := p.ReviewProposal(now, agent, pid, passed);
      case MintProposed(creator, pid) =>
        r := p.MintProposed(creator, pid);
      case MintSponsored(creator, pid) =>
        r := p.MintSponsored(now, creator, pid);
      case ExpireProposal(pid) =>
        r := p.ExpireProposal(now, pid);
      case ReclaimPreSponsor(sponsor, pid) =>
        r := p.ReclaimPreSponsor(sponsor, pid);
      case ClearProposal(pid) =>
        r := p.ClearProposal(pid);
      case UpdateConfig(authority, config) =>
        r := p.UpdateConfig(authority, config);
      case UpdateAuthority(authority, successor) =>
        r := p.UpdateAuthority(authority, successor);
      case SetRole(k, role, held) =>
        r := p.SetRole(k, role, held);
      case SetRegionOwner(region, owner) =>
        r := p.SetRegionOwner(region, owner);
      case TransferXcav(from, to, amount) =>
        r := p.TransferXcav(from, to, amount);
      case TransferCash(asset, from, to, amount) =>
        r := p.TransferCash(asset, from, to, amount);
      case Donate(from, e, amount) =>
        r := p.Donate(from, e, amount);
      case DonateXcav(from, amount) =>
        r := p.DonateXcav(from, amount);
    }
  }

  /** One transaction: it succeeds exactly when the ledger's step does, and leaves the object at the step's ledger. */
  method Execute(p: Education, tx: Tx) returns (r: Result<()>)
    requires p.Valid() && p.ledger.clock <= tx.now
    modifies p
    ensures p.Valid()
    ensures Follows(r, old(p.ledger), p.ledger, Step(old(p.ledger), tx)) && p.ledger == Apply(old(p.ledger), tx)
  {
    hide DeliveryStep, GovernanceStep, Stored;
    match tx.call {
      case Deliver(c) => r := ExecuteDelivery(p, tx.now, c);
      case Govern(c) => r := ExecuteGovernance(p, tx.now, c);
    }
  }

  /**
   * Any sequence of transactions, some of which may fail, leaves the object at the ledger of that run. Its vault then
   * holds every stake on record, and each escrow what its record accounts for, besides what was sent there unasked.
   */
  method ExecuteAll(p: Education, txs: seq<Tx>) returns (done: seq<bool>)
    requires p.Valid() && Chronological(p.ledger.clock, txs)
    modifies p
    ensures p.Valid() && p.ledger == Run(old(p.ledger), txs)
    ensures |done| == |txs|
    ensures forall i :: 0 <= i < |txs| ==> done[i] == Step(Run(old(p.ledger), txs[..i]), txs[i]).Ok?
    ensures p.accounts.vault == p.ledger.VaultOwed() + p.ledger.surplus
    ensures p.ledger.XcavTotal() == old(p.ledger.XcavTotal())
    ensures forall asset :: p.ledger.CashTotal(asset) == old(p.ledger).CashTotal(asset)
    ensures forall id :: id in p.accounts.sponsorships ==>
              && id in p.accounts.sponsorEscrows
              && var d := p.accounts.sponsorships[id].deal;
                p.accounts.sponsorEscrows[id] == d.amount * d.price + GiftIn(p.ledger.gifts, OfSponsorship(id))
    ensures forall key :: key in p.accounts.bookings ==>
              && key in p.accounts.bookingEscrows
              && var b := p.accounts.bookings[key];
                p.accounts.bookingEscrows[key]
                == (if b.settled then 0 else b.price) + GiftIn(p.ledger.gifts, OfBooking(key))
    ensures forall pid :: pid in p.accounts.proposals ==>
              var q := p.accounts.proposals[pid].core;
              q.preAmount > 0 ==>
                && pid in p.accounts.proposalEscrows
                && p.accounts.proposalEscrows[pid] == q.preAmount * q.prePrice + GiftIn(p.ledger.gifts, OfProposal(pid))
  {
    hide Step, Apply, Stored, Ledger.VaultOwed, Ledger.XcavTotal, Ledger.CashTotal;
    ghost var start := p.ledger;
    StoredInv(p.world, p.accounts, p.ledger);
    done := [];
    var n := 0;
    while n < |txs|
      invariant 0 <= n <= |txs| && |done| == n
      invariant p.Valid() && p.ledger == Run(start, txs[..n])
      invariant forall i :: 0 <= i < n ==> done[i] == Step(Run(start, txs[..i]), txs[i]).Ok?
    {
      AlongRun(start, txs, n);
      var r := Execute(p, txs[n]);
      done := done + [r.Ok?];
      n := n + 1;
    }
    assert txs[..n] == txs;
    RunKeeps(start, txs);
    BalancesStored(p.world, p.accounts, p.ledger);
  }
}
