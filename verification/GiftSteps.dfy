/** No instruction depends on what escrows were given, but the two that close one without a look, and a gift itself. */
module GiftSteps {
  import opened Machine
  import opened Pricing
  import opened Settlement
  import opened Sums
  import opened Wallets
  import opened Voting
  import opened EducationState
  import opened EducationLedger
  import opened EducationRuns
  import Delivery = DeliverySteps
  import Governance = GovernanceSteps

  /** What a step comes to on a ledger with other gifts. */
  ghost function WithGifts(r: Result<Ledger>, gs: Gifts): Result<Ledger> {
    if r.Ok? then Ok(r.value.(gifts := gs)) else Err
  }

  lemma CreateModuleIgnores(l: Ledger, gs: Gifts, creator: Key, region: u16, amount: u64)
    ensures Delivery.CreateModule(l.(gifts := gs), creator, region, amount)
            == WithGifts(Delivery.CreateModule(l, creator, region, amount), gs)
  {
    hide Sum, Debit;
  }

  lemma BurnUnsponsoredIgnores(l: Ledger, gs: Gifts, creator: Key, mid: nat, amount: u64)
    ensures Delivery.BurnUnsponsored(l.(gifts := gs), creator, mid, amount)
            == WithGifts(Delivery.BurnUnsponsored(l, creator, mid, amount), gs)
  {
    hide Sum, Unsponsored;
  }

  lemma RemoveModuleIgnores(l: Ledger, gs: Gifts, creator: Key, mid: nat)
    ensures Delivery.RemoveModule(l.(gifts := gs), creator, mid)
            == WithGifts(Delivery.RemoveModule(l, creator, mid), gs)
  {
    hide Sum, Credit;
  }

  lemma SponsorModuleIgnores(l: Ledger, gs: Gifts, now: i64, sponsor: Key, mid: nat, amount: u64, asset: Key)
    ensures Delivery.SponsorModule(l.(gifts := gs), now, sponsor, mid, amount, asset)
            == WithGifts(Delivery.SponsorModule(l, now, sponsor, mid, amount, asset), gs)
  {
    hide Sum, Unsponsored, PricePerToken, CheckedMul, Debit;
  }

  lemma ReclaimSponsorshipIgnores(l: Ledger, gs: Gifts, now: i64, sponsor: Key, id: Id, amount: u64)
    ensures Delivery.ReclaimSponsorship(l.(gifts := gs), now, sponsor, id, amount)
            == WithGifts(Delivery.ReclaimSponsorship(l, now, sponsor, id, amount), gs)
  {
    hide Sum, Credit, Clamp, Funding.Reclaim;
  }

  lemma CloseSponsorshipIgnores(l: Ledger, gs: Gifts, sponsor: Key, id: Id)
    ensures Delivery.CloseSponsorship(l.(gifts := gs), sponsor, id)
            == WithGifts(Delivery.CloseSponsorship(l, sponsor, id), gs)
  {
    hide Sum;
  }

  lemma BookModuleIgnores(l: Ledger, gs: Gifts, now: i64, school: Key, id: Id, deliveryAt: i64)
    ensures Delivery.BookModule(l.(gifts := gs), now, school, id, deliveryAt)
            == WithGifts(Delivery.BookModule(l, now, school, id, deliveryAt), gs)
  {
    hide Sum, Debit, Clamp, Funding.WithAmount;
  }

  lemma ClaimBookingIgnores(l: Ledger, gs: Gifts, now: i64, lecturer: Key, key: Id)
    ensures Delivery.ClaimBooking(l.(gifts := gs), now, lecturer, key)
            == WithGifts(Delivery.ClaimBooking(l, now, lecturer, key), gs)
  {
    hide Sum, Config.SlashPerStrike;
  }

  lemma CancelBookingIgnores(l: Ledger, gs: Gifts, now: i64, school: Key, key: Id)
    ensures Delivery.CancelBooking(l.(gifts := gs), now, school, key)
            == WithGifts(Delivery.CancelBooking(l, now, school, key), gs)
  {
    hide Sum, Credit, Funding.WithAmount;
  }

  lemma ClearOldCancellationIgnores(l: Ledger, gs: Gifts, now: i64, school: Key, bid: nat)
    ensures Delivery.ClearOldCancellation(l.(gifts := gs), now, school, bid)
            == WithGifts(Delivery.ClearOldCancellation(l, now, school, bid), gs)
  {
    hide Sum, Clamp;
  }

  lemma CancelClaimIgnores(l: Ledger, gs: Gifts, lecturer: Key, key: Id)
    ensures Delivery.CancelClaim(l.(gifts := gs), lecturer, key)
            == WithGifts(Delivery.CancelClaim(l, lecturer, key), gs)
  {
    hide Sum, Config.SlashPerStrike;
  }

  lemma ExpireBookingIgnores(l: Ledger, gs: Gifts, now: i64, key: Id)
    ensures Delivery.ExpireBooking(l.(gifts := gs), now, key)
            == WithGifts(Delivery.ExpireBooking(l, now, key), gs)
  {
    hide Sum, Credit, Clamp, Funding.WithAmount;
  }

  lemma SubmitScoreIgnores(l: Ledger, gs: Gifts, now: i64, agent: Key, key: Id, score: u16)
    ensures Delivery.SubmitScore(l.(gifts := gs), now, agent, key, score)
            == WithGifts(Delivery.SubmitScore(l, now, agent, key, score), gs)
  {
    hide Sum;
  }

  lemma DisputeScoreIgnores(l: Ledger, gs: Gifts, now: i64, party: Key, key: Id, proposed: u16)
    ensures Delivery.DisputeScore(l.(gifts := gs), now, party, key, proposed)
            == WithGifts(Delivery.DisputeScore(l, now, party, key, proposed), gs)
  {
    hide Sum, Clamp, Booking.IsParty;
  }

  lemma ResolveDisputeIgnores(l: Ledger, gs: Gifts, counterparty: Key, key: Id, accept: bool)
    ensures Delivery.ResolveDispute(l.(gifts := gs), counterparty, key, accept)
            == WithGifts(Delivery.ResolveDispute(l, counterparty, key, accept), gs)
  {
    hide Sum, Delivery.Counterparty;
  }

  lemma FinalizeScoreIgnores(l: Ledger, gs: Gifts, now: i64, cranker: Key, key: Id)
    ensures Delivery.FinalizeScore(l.(gifts := gs), now, cranker, key)
            == WithGifts(Delivery.FinalizeScore(l, now, cranker, key), gs)
  {
    hide Sum, Split, Clamp, Delivery.PayOut, Delivery.Delivered, Funding.Settle;
  }

  lemma FinishBookingIgnores(l: Ledger, gs: Gifts, key: Id)
    ensures Delivery.FinishBooking(l.(gifts := gs), key)
            == WithGifts(Delivery.FinishBooking(l, key), gs)
  {
    hide Sum, Credit;
  }

  lemma RegisterDelivererIgnores(l: Ledger, gs: Gifts, lecturer: Key)
    ensures Delivery.RegisterDeliverer(l.(gifts := gs), lecturer)
            == WithGifts(Delivery.RegisterDeliverer(l, lecturer), gs)
  {
    hide Sum, Debit, SaturatingSub;
  }

  lemma UnregisterDelivererIgnores(l: Ledger, gs: Gifts, lecturer: Key)
    ensures Delivery.UnregisterDeliverer(l.(gifts := gs), lecturer)
            == WithGifts(Delivery.UnregisterDeliverer(l, lecturer), gs)
  {
    hide Sum, Credit;
  }

  lemma CreateProposalIgnores(l: Ledger, gs: Gifts, now: i64, proposer: Key, role: Role, region: u16, amount: u64)
    ensures Governance.CreateProposal(l.(gifts := gs), now, proposer, role, region, amount)
            == WithGifts(Governance.CreateProposal(l, now, proposer, role, region, amount), gs)
  {
    hide Sum, Debit, Governance.Opened, Governance.IsProposerRole;
  }

  lemma CreateSponsorProposalIgnores(l: Ledger, gs: Gifts, now: i64, proposer: Key, region: u16, amount: u64,
                                     asset: Key)
    ensures Governance.CreateSponsorProposal(l.(gifts := gs), now, proposer, region, amount, asset)
            == WithGifts(Governance.CreateSponsorProposal(l, now, proposer, region, amount, asset), gs)
  {
    hide Sum, Debit, PricePerToken, CheckedMul, Governance.Opened;
  }

  lemma VoteOnProposalIgnores(l: Ledger, gs: Gifts, now: i64, voter: Key, pid: nat, vote: Vote, amount: u64)
    ensures Governance.VoteOnProposal(l.(gifts := gs), now, voter, pid, vote, amount)
            == WithGifts(Governance.VoteOnProposal(l, now, voter, pid, vote, amount), gs)
  {
    hide Sum, Debit, Pay;
  }

  lemma FinalizeProposalIgnores(l: Ledger, gs: Gifts, now: i64, pid: nat)
    ensures Governance.FinalizeProposal(l.(gifts := gs), now, pid)
            == WithGifts(Governance.FinalizeProposal(l, now, pid), gs)
  {
    hide Sum, Credit, Clamp, VotePasses, Governance.Decided;
  }

  lemma UnlockVoteIgnores(l: Ledger, gs: Gifts, now: i64, voter: Key, pid: nat)
    ensures Governance.UnlockVote(l.(gifts := gs), now, voter, pid)
            == WithGifts(Governance.UnlockVote(l, now, voter, pid), gs)
  {
    hide Sum, Pay;
  }

  lemma ClaimProposalIgnores(l: Ledger, gs: Gifts, now: i64, creator: Key, pid: nat)
    ensures Governance.ClaimProposal(l.(gifts := gs), now, creator, pid)
            == WithGifts(Governance.ClaimProposal(l, now, creator, pid), gs)
  {
    hide Sum, Debit, Clamp, Governance.Reserved;
  }

  lemma UploadProposalIgnores(l: Ledger, gs: Gifts, claimant: Key, pid: nat)
    ensures Governance.UploadProposal(l.(gifts := gs), claimant, pid)
            == WithGifts(Governance.UploadProposal(l, claimant, pid), gs)
  {
    hide Sum, Governance.Uploaded;
  }

  lemma ReleaseClaimIgnores(l: Ledger, gs: Gifts, now: i64, pid: nat)
    ensures Governance.ReleaseClaim(l.(gifts := gs), now, pid)
            == WithGifts(Governance.ReleaseClaim(l, now, pid), gs)
  {
    hide Sum, Governance.Released;
  }

  lemma ReviewProposalIgnores(l: Ledger, gs: Gifts, now: i64, agent: Key, pid: nat, passed: bool)
    ensures Governance.ReviewProposal(l.(gifts := gs), now, agent, pid, passed)
            == WithGifts(Governance.ReviewProposal(l, now, agent, pid, passed), gs)
  {
    hide Sum, Clamp, Governance.Reviewed;
  }

  lemma MintProposedIgnores(l: Ledger, gs: Gifts, creator: Key, pid: nat)
    ensures Governance.MintProposed(l.(gifts := gs), creator, pid)
            == WithGifts(Governance.MintProposed(l, creator, pid), gs)
  {
    hide Sum, Governance.BuiltModule;
  }

  lemma ExpireProposalIgnores(l: Ledger, gs: Gifts, now: i64, pid: nat)
    ensures Governance.ExpireProposal(l.(gifts := gs), now, pid)
            == WithGifts(Governance.ExpireProposal(l, now, pid), gs)
  {
    hide Sum, Governance.BondSettled, Governance.Expired, Governance.Unbuilt;
  }

  lemma ClearProposalIgnores(l: Ledger, gs: Gifts, pid: nat)
    ensures Governance.ClearProposal(l.(gifts := gs), pid)
            == WithGifts(Governance.ClearProposal(l, pid), gs)
  {
    hide Sum;
  }

  lemma UpdateConfigIgnores(l: Ledger, gs: Gifts, authority: Key, config: Config)
    ensures Governance.UpdateConfig(l.(gifts := gs), authority, config)
            == WithGifts(Governance.UpdateConfig(l, authority, config), gs)
  {
    hide Sum, Config.Valid;
  }

  lemma UpdateAuthorityIgnores(l: Ledger, gs: Gifts, authority: Key, successor: Key)
    ensures Governance.UpdateAuthority(l.(gifts := gs), authority, successor)
            == WithGifts(Governance.UpdateAuthority(l, authority, successor), gs)
  {
    hide Sum;
  }

  lemma SetRoleIgnores(l: Ledger, gs: Gifts, k: Key, role: Role, held: bool)
    ensures Governance.SetRole(l.(gifts := gs), k, role, held)
            == WithGifts(Governance.SetRole(l, k, role, held), gs)
  {
    hide Sum;
  }

  lemma SetRegionOwnerIgnores(l: Ledger, gs: Gifts, region: u16, owner: Key)
    ensures Governance.SetRegionOwner(l.(gifts := gs), region, owner)
            == WithGifts(Governance.SetRegionOwner(l, region, owner), gs)
  {
    hide Sum;
  }

  lemma TransferXcavIgnores(l: Ledger, gs: Gifts, from: Key, to: Key, amount: u64)
    ensures Governance.TransferXcav(l.(gifts := gs), from, to, amount)
            == WithGifts(Governance.TransferXcav(l, from, to, amount), gs)
  {
    hide Sum, Debit, Credit;
  }

  lemma TransferCashIgnores(l: Ledger, gs: Gifts, asset: Key, from: Key, to: Key, amount: u64)
    ensures Governance.TransferCash(l.(gifts := gs), asset, from, to, amount)
            == WithGifts(Governance.TransferCash(l, asset, from, to, amount), gs)
  {
    hide Sum, Debit, Credit;
  }

  lemma DonateXcavIgnores(l: Ledger, gs: Gifts, from: Key, amount: u64)
    ensures Governance.DonateXcav(l.(gifts := gs), from, amount)
            == WithGifts(Governance.DonateXcav(l, from, amount), gs)
  {
    hide Sum, Debit;
  }

  lemma DeliveryIgnores(l: Ledger, gs: Gifts, now: i64, c: DeliveryCall)
    ensures DeliveryStep(l.(gifts := gs), now, c) == WithGifts(DeliveryStep(l, now, c), gs)
  {
    hide WithGifts, Delivery.CreateModule, Delivery.BurnUnsponsored, Delivery.RemoveModule, Delivery.SponsorModule,
         Delivery.ReclaimSponsorship, Delivery.CloseSponsorship, Delivery.BookModule, Delivery.ClaimBooking,
         Delivery.CancelBooking, Delivery.ClearOldCancellation, Delivery.CancelClaim, Delivery.ExpireBooking,
         Delivery.SubmitScore, Delivery.DisputeScore, Delivery.ResolveDispute, Delivery.FinalizeScore,
         Delivery.FinishBooking, Delivery.RegisterDeliverer, Delivery.UnregisterDeliverer;
    match c {
      case CreateModule(creator, region, amount) => CreateModuleIgnores(l, gs, creator, region, amount);
      case BurnUnsponsored(creator, mid, amount) => BurnUnsponsoredIgnores(l, gs, creator, mid, amount);
      case RemoveModule(creator, mid) => RemoveModuleIgnores(l, gs, creator, mid);
      case SponsorModule(sponsor, mid, amount, asset) =>
        SponsorModuleIgnores(l, gs, now, sponsor, mid, amount, asset);
      case ReclaimSponsorship(sponsor, id, amount) => ReclaimSponsorshipIgnores(l, gs, now, sponsor, id, amount);
      case CloseSponsorship(sponsor, id) => CloseSponsorshipIgnores(l, gs, sponsor, id);
      case BookModule(school, id, deliveryAt) => BookModuleIgnores(l, gs, now, school, id, deliveryAt);
      case ClaimBooking(lecturer, key) => ClaimBookingIgnores(l, gs, now, lecturer, key);
      case CancelBooking(school, key) => CancelBookingIgnores(l, gs, now, school, key);
      case ClearOldCancellation(school, bid) => ClearOldCancellationIgnores(l, gs, now, school, bid);
      case CancelClaim(lecturer, key) => CancelClaimIgnores(l, gs, lecturer, key);
      case ExpireBooking(key) => ExpireBookingIgnores(l, gs, now, key);
      case SubmitScore(agent, key, score) => SubmitScoreIgnores(l, gs, now, agent, key, score);
      case DisputeScore(party, key, proposed) => DisputeScoreIgnores(l, gs, now, party, key, proposed);
      case ResolveDispute(counterparty, key, accept) => ResolveDisputeIgnores(l, gs, counterparty, key, accept);
      case FinalizeScore(cranker, key) => FinalizeScoreIgnores(l, gs, now, cranker, key);
      case FinishBooking(key) => FinishBookingIgnores(l, gs, key);
      case RegisterDeliverer(lecturer) => RegisterDelivererIgnores(l, gs, lecturer);
      case UnregisterDeliverer(lecturer) => UnregisterDelivererIgnores(l, gs, lecturer);
    }
  }

  lemma GovernanceIgnores(l: Ledger, gs: Gifts, now: i64, c: GovernanceCall)
    requires !c.MintSponsored? && !c.ReclaimPreSponsor? && !c.Donate?
    ensures GovernanceStep(l.(gifts := gs), now, c) == WithGifts(GovernanceStep(l, now, c), gs)
  {
    hide WithGifts, Governance.CreateProposal, Governance.CreateSponsorProposal, Governance.VoteOnProposal,
         Governance.FinalizeProposal, Governance.UnlockVote, Governance.ClaimProposal, Governance.UploadProposal,
         Governance.ReleaseClaim, Governance.ReviewProposal, Governance.MintProposed, Governance.ExpireProposal,
         Governance.ClearProposal, Governance.UpdateConfig, Governance.UpdateAuthority, Governance.SetRole,
         Governance.SetRegionOwner, Governance.TransferXcav, Governance.TransferCash, Governance.DonateXcav;
    match c {
      case CreateProposal(proposer, role, region, amount) =>
        CreateProposalIgnores(l, gs, now, proposer, role, region, amount);
      case CreateSponsorProposal(proposer, region, amount, asset) =>
        CreateSponsorProposalIgnores(l, gs, now, proposer, region, amount, asset);
      case VoteOnProposal(voter, pid, vote, amount) => VoteOnProposalIgnores(l, gs, now, voter, pid, vote, amount);
      case FinalizeProposal(pid) => FinalizeProposalIgnores(l, gs, now, pid);
      case UnlockVote(voter, pid) => UnlockVoteIgnores(l, gs, now, voter, pid);
      case ClaimProposal(creator, pid) => ClaimProposalIgnores(l, gs, now, creator, pid);
      case UploadProposal(claimant, pid) => UploadProposalIgnores(l, gs, claimant, pid);
      case ReleaseClaim(pid) => ReleaseClaimIgnores(l, gs, now, pid);
      case ReviewProposal(agent, pid, passed) => ReviewProposalIgnores(l, gs, now, agent, pid, passed);
      case MintProposed(creator, pid) => MintProposedIgnores(l, gs, creator, pid);
      case ExpireProposal(pid) => ExpireProposalIgnores(l, gs, now, pid);
      case ClearProposal(pid) => ClearProposalIgnores(l, gs, pid);
      case UpdateConfig(authority, config) => UpdateConfigIgnores(l, gs, authority, config);
      case UpdateAuthority(authority, successor) => UpdateAuthorityIgnores(l, gs, authority, successor);
      case SetRole(k, role, held) => SetRoleIgnores(l, gs, k, role, held);
      case SetRegionOwner(region, owner) => SetRegionOwnerIgnores(l, gs, region, owner);
      case TransferXcav(from, to, amount) => TransferXcavIgnores(l, gs, from, to, amount);
      case TransferCash(asset, from, to, amount) => TransferCashIgnores(l, gs, asset, from, to, amount);
      case DonateXcav(from, amount) => DonateXcavIgnores(l, gs, from, amount);
    }
  }
}
