/**
 * Whole runs of the education program: any sequence of instructions, config changes and outside transfers,
 * at times that never go back. An instruction that fails changes nothing.
 */
module EducationRuns {
  import opened Machine
  import opened Pricing
  import opened Settlement
  import opened Sums
  import opened Wallets
  import opened Voting
  import opened EducationState
  import opened EducationLedger
  import Delivery = DeliverySteps
  import Governance = GovernanceSteps
  import DeliveryProofs
  import GovernanceProofs

  datatype DeliveryCall =
    | CreateModule(creator: Key, region: u16, amount: u64)
    | BurnUnsponsored(creator: Key, mid: nat, amount: u64)
    | RemoveModule(creator: Key, mid: nat)
    | SponsorModule(sponsor: Key, mid: nat, amount: u64, asset: Key)
    | ReclaimSponsorship(sponsor: Key, id: Id, amount: u64)
    | CloseSponsorship(sponsor: Key, id: Id)
    | BookModule(school: Key, id: Id, deliveryAt: i64)
    | ClaimBooking(lecturer: Key, key: Id)
    | CancelBooking(school: Key, key: Id)
    | ClearOldCancellation(school: Key, bid: nat)
    | CancelClaim(lecturer: Key, key: Id)
    | ExpireBooking(key: Id)
    | SubmitScore(agent: Key, key: Id, score: u16)
    | DisputeScore(party: Key, key: Id, proposed: u16)
    | ResolveDispute(counterparty: Key, key: Id, accept: bool)
    | FinalizeScore(cranker: Key, key: Id)
    | FinishBooking(key: Id)
    | RegisterDeliverer(lecturer: Key)
    | UnregisterDeliverer(lecturer: Key)

  datatype GovernanceCall =
    | CreateProposal(proposer: Key, role: Role, region: u16, amount: u64)
    | CreateSponsorProposal(proposer: Key, region: u16, amount: u64, asset: Key)
    | VoteOnProposal(voter: Key, pid: nat, vote: Vote, amount: u64)
    | FinalizeProposal(pid: nat)
    | UnlockVote(voter: Key, pid: nat)
    | ClaimProposal(creator: Key, pid: nat)
    | UploadProposal(claimant: Key, pid: nat)
    | ReleaseClaim(pid: nat)
    | ReviewProposal(agent: Key, pid: nat, passed: bool)
    | MintProposed(creator: Key, pid: nat)
    | MintSponsored(creator: Key, pid: nat)
    | ExpireProposal(pid: nat)
    | ReclaimPreSponsor(sponsor: Key, pid: nat)
    | ClearProposal(pid: nat)
    | UpdateConfig(authority: Key, config: Config)
    | UpdateAuthority(authority: Key, successor: Key)
    | SetRole(k: Key, role: Role, held: bool)
    | SetRegionOwner(region: u16, owner: Key)
    | TransferXcav(from: Key, to: Key, amount: u64)
    | TransferCash(asset: Key, from: Key, to: Key, amount: u64)
    | Donate(from: Key, escrow: Escrow, amount: u64)
    | DonateXcav(from: Key, amount: u64)

  datatype Call = Deliver(delivery: DeliveryCall) | Govern(governance: GovernanceCall)

  datatype Tx = Tx(now: i64, call: Call)

  ghost function DeliveryStep(l: Ledger, now: i64, c: DeliveryCall): Result<Ledger> {
    match c
    case CreateModule(creator, region, amount) => Delivery.CreateModule(l, creator, region, amount)
    case BurnUnsponsored(creator, mid, amount) => Delivery.BurnUnsponsored(l, creator, mid, amount)
    case RemoveModule(creator, mid) => Delivery.RemoveModule(l, creator, mid)
    case SponsorModule(sponsor, mid, amount, asset) => Delivery.SponsorModule(l, now, sponsor, mid, amount, asset)
    case ReclaimSponsorship(sponsor, id, amount) => Delivery.ReclaimSponsorship(l, now, sponsor, id, amount)
    case CloseSponsorship(sponsor, id) => Delivery.CloseSponsorship(l, sponsor, id)
    case BookModule(school, id, deliveryAt) => Delivery.BookModule(l, now, school, id, deliveryAt)
    case ClaimBooking(lecturer, key) => Delivery.ClaimBooking(l, now, lecturer, key)
    case CancelBooking(school, key) => Delivery.CancelBooking(l, now, school, key)
    case ClearOldCancellation(school, bid) => Delivery.ClearOldCancellation(l, now, school, bid)
    case CancelClaim(lecturer, key) => Delivery.CancelClaim(l, lecturer, key)
    case ExpireBooking(key) => Delivery.ExpireBooking(l, now, key)
    case SubmitScore(agent, key, score) => Delivery.SubmitScore(l, now, agent, key, score)
    case DisputeScore(party, key, proposed) => Delivery.DisputeScore(l, now, party, key, proposed)
    case ResolveDispute(counterparty, key, accept) => Delivery.ResolveDispute(l, counterparty, key, accept)
    case FinalizeScore(cranker, key) => Delivery.FinalizeScore(l, now, cranker, key)
    case FinishBooking(key) => Delivery.FinishBooking(l, key)
    case RegisterDeliverer(lecturer) => Delivery.RegisterDeliverer(l, lecturer)
    case UnregisterDeliverer(lecturer) => Delivery.UnregisterDeliverer(l, lecturer)
  }

  ghost function GovernanceStep(l: Ledger, now: i64, c: GovernanceCall): Result<Ledger> {
    match c
    case CreateProposal(proposer, role, region, amount) =>
      Governance.CreateProposal(l, now, proposer, role, region, amount)
    case CreateSponsorProposal(proposer, region, amount, asset) =>
      Governance.CreateSponsorProposal(l, now, proposer, region, amount, asset)
    case VoteOnProposal(voter, pid, vote, amount) => Governance.VoteOnProposal(l, now, voter, pid, vote, amount)
    case FinalizeProposal(pid) => Governance.FinalizeProposal(l, now, pid)
    case UnlockVote(voter, pid) => Governance.UnlockVote(l, now, voter, pid)
    case ClaimProposal(creator, pid) => Governance.ClaimProposal(l, now, creator, pid)
    case UploadProposal(claimant, pid) => Governance.UploadProposal(l, claimant, pid)
    case ReleaseClaim(pid) => Governance.ReleaseClaim(l, now, pid)
    case ReviewProposal(agent, pid, passed) => Governance.ReviewProposal(l, now, agent, pid, passed)
    case MintProposed(creator, pid) => Governance.MintProposed(l, creator, pid)
    case MintSponsored(creator, pid) => Governance.MintSponsored(l, now, creator, pid)
    case ExpireProposal(pid) => Governance.ExpireProposal(l, now, pid)
    case ReclaimPreSponsor(sponsor, pid) => Governance.ReclaimPreSponsor(l, sponsor, pid)
    case ClearProposal(pid) => Governance.ClearProposal(l, pid)
    case UpdateConfig(authority, config) => Governance.UpdateConfig(l, authority, config)
    case UpdateAuthority(authority, successor) => Governance.UpdateAuthority(l, authority, successor)
    case SetRole(k, role, held) => Governance.SetRole(l, k, role, held)
    case SetRegionOwner(region, owner) => Governance.SetRegionOwner(l, region, owner)
    case TransferXcav(from, to, amount) => Governance.TransferXcav(l, from, to, amount)
    case TransferCash(asset, from, to, amount) => Governance.TransferCash(l, asset, from, to, amount)
    case Donate(from, e, amount) => Governance.Donate(l, from, e, amount)
    case DonateXcav(from, amount) => Governance.DonateXcav(l, from, amount)
  }

  ghost function Step(l: Ledger, tx: Tx): Result<Ledger> {
    match tx.call
    case Deliver(c) => DeliveryStep(l, tx.now, c)
    case Govern(c) => GovernanceStep(l, tx.now, c)
  }

  ghost function Apply(l: Ledger, tx: Tx): Ledger {
    if Step(l, tx).Ok? then Step(l, tx).value else l
  }

  /** The ledger after a run; what it was along the way is the run of a prefix. */
  ghost function Run(l: Ledger, txs: seq<Tx>): Ledger {
    if txs == [] then l else Apply(Run(l, txs[..|txs| - 1]), txs[|txs| - 1])
  }

  /** Times never go back, and start no earlier than what the ledger has seen. */
  predicate Chronological(start: int, txs: seq<Tx>) {
    && (forall i :: 0 <= i < |txs| ==> start <= txs[i].now)
    && (forall i, j :: 0 <= i < j < |txs| ==> txs[i].now <= txs[j].now)
  }

  /** Where every run of the program starts: no accounts yet. */
  function Start(w: World): Ledger {
    Ledger(w, I64_MIN, map[], map[], map[], map[], map[], map[], map[], map[], 0)
  }

  lemma StartHolds(w: World)
    requires w.config.Valid() && Sum(w.xcav, Held()) + w.treasury <= U64_MAX
    ensures Inv(Start(w))
  {
    hide Config.Valid;
    var l := Start(w);
    assert l.VaultOwed() == 0;
    assert BallotsInv(w.nextProposal, l.clock, l.proposals, ExpiryOf, l.ballots);
  }

  // ----- one step -----

  lemma DeliveryStepKeeps(l: Ledger, now: i64, c: DeliveryCall)
    requires Inv(l) && l.clock <= now && DeliveryStep(l, now, c).Ok?
    ensures Keeps(l, DeliveryStep(l, now, c).value)
  {
    hide Delivery.CreateModule, Delivery.BurnUnsponsored, Delivery.RemoveModule, Delivery.SponsorModule,
         Delivery.ReclaimSponsorship, Delivery.CloseSponsorship, Delivery.BookModule, Delivery.ClaimBooking,
         Delivery.CancelBooking, Delivery.ClearOldCancellation, Delivery.CancelClaim, Delivery.ExpireBooking,
         Delivery.SubmitScore, Delivery.DisputeScore, Delivery.ResolveDispute, Delivery.FinalizeScore,
         Delivery.FinishBooking, Delivery.RegisterDeliverer, Delivery.UnregisterDeliverer, Inv, Keeps;
    match c {
      case CreateModule(creator, region, amount) => DeliveryProofs.CreateModuleKeeps(l, creator, region, amount);
      case BurnUnsponsored(creator, mid, amount) => DeliveryProofs.BurnUnsponsoredKeeps(l, creator, mid, amount);
      case RemoveModule(creator, mid) => DeliveryProofs.RemoveModuleKeeps(l, creator, mid);
      case SponsorModule(sponsor, mid, amount, asset) =>
        DeliveryProofs.SponsorModuleKeeps(l, now, sponsor, mid, amount, asset);
      case ReclaimSponsorship(sponsor, id, amount) =>
        DeliveryProofs.ReclaimSponsorshipKeeps(l, now, sponsor, id, amount);
      case CloseSponsorship(sponsor, id) => DeliveryProofs.CloseSponsorshipKeeps(l, sponsor, id);
      case BookModule(school, id, deliveryAt) => DeliveryProofs.BookModuleKeeps(l, now, school, id, deliveryAt);
      case ClaimBooking(lecturer, key) => DeliveryProofs.ClaimBookingKeeps(l, now, lecturer, key);
      case CancelBooking(school, key) => DeliveryProofs.CancelBookingKeeps(l, now, school, key);
      case ClearOldCancellation(school, bid) => DeliveryProofs.ClearOldCancellationKeeps(l, now, school, bid);
      case CancelClaim(lecturer, key) => DeliveryProofs.CancelClaimKeeps(l, lecturer, key);
      case ExpireBooking(key) => DeliveryProofs.ExpireBookingKeeps(l, now, key);
      case SubmitScore(agent, key, score) => DeliveryProofs.SubmitScoreKeeps(l, now, agent, key, score);
      case DisputeScore(party, key, proposed) => DeliveryProofs.DisputeScoreKeeps(l, now, party, key, proposed);
      case ResolveDispute(counterparty, key, accept) =>
        DeliveryProofs.ResolveDisputeKeeps(l, counterparty, key, accept);
      case FinalizeScore(cranker, key) => DeliveryProofs.FinalizeScoreKeeps(l, now, cranker, key);
      case FinishBooking(key) => DeliveryProofs.FinishBookingKeeps(l, key);
      case RegisterDeliverer(lecturer) => DeliveryProofs.RegisterDelivererKeeps(l, lecturer);
      case UnregisterDeliverer(lecturer) => DeliveryProofs.UnregisterDelivererKeeps(l, lecturer);
    }
  }

  lemma GovernanceStepKeeps(l: Ledger, now: i64, c: GovernanceCall)
    requires Inv(l) && l.clock <= now && GovernanceStep(l, now, c).Ok?
    ensures Keeps(l, GovernanceStep(l, now, c).value)
  {
    hide Governance.CreateProposal, Governance.CreateSponsorProposal, Governance.VoteOnProposal,
         Governance.FinalizeProposal, Governance.UnlockVote, Governance.ClaimProposal, Governance.UploadProposal,
         Governance.ReleaseClaim, Governance.ReviewProposal, Governance.MintProposed, Governance.MintSponsored,
         Governance.ExpireProposal, Governance.ReclaimPreSponsor, Governance.ClearProposal, Governance.UpdateConfig,
         Governance.UpdateAuthority, Governance.SetRole, Governance.SetRegionOwner, Governance.TransferXcav,
         Governance.TransferCash, Governance.Donate, Governance.DonateXcav, Inv, Keeps;
    match c {
      case CreateProposal(proposer, role, region, amount) =>
        GovernanceProofs.CreateProposalKeeps(l, now, proposer, role, region, amount);
      case CreateSponsorProposal(proposer, region, amount, asset) =>
        GovernanceProofs.CreateSponsorProposalKeeps(l, now, proposer, region, amount, asset);
      case VoteOnProposal(voter, pid, vote, amount) =>
        GovernanceProofs.VoteOnProposalKeeps(l, now, voter, pid, vote, amount);
      case FinalizeProposal(pid) => GovernanceProofs.FinalizeProposalKeeps(l, now, pid);
      case UnlockVote(voter, pid) => GovernanceProofs.UnlockVoteKeeps(l, now, voter, pid);
      case ClaimProposal(creator, pid) => GovernanceProofs.ClaimProposalKeeps(l, now, creator, pid);
      case UploadProposal(claimant, pid) => GovernanceProofs.UploadProposalKeeps(l, claimant, pid);
      case ReleaseClaim(pid) => GovernanceProofs.ReleaseClaimKeeps(l, now, pid);
      case ReviewProposal(agent, pid, passed) => GovernanceProofs.ReviewProposalKeeps(l, now, agent, pid, passed);
      case MintProposed(creator, pid) => GovernanceProofs.MintProposedKeeps(l, creator, pid);
      case MintSponsored(creator, pid) => GovernanceProofs.MintSponsoredKeeps(l, now, creator, pid);
      case ExpireProposal(pid) => GovernanceProofs.ExpireProposalKeeps(l, now, pid);
      case ReclaimPreSponsor(sponsor, pid) => GovernanceProofs.ReclaimPreSponsorKeeps(l, sponsor, pid);
      case ClearProposal(pid) => GovernanceProofs.ClearProposalKeeps(l, pid);
      case UpdateConfig(authority, config) => GovernanceProofs.UpdateConfigKeeps(l, authority, config);
      case UpdateAuthority(authority, successor) => GovernanceProofs.UpdateAuthorityKeeps(l, authority, successor);
      case SetRole(k, role, held) => GovernanceProofs.SetRoleKeeps(l, k, role, held);
      case SetRegionOwner(region, owner) => GovernanceProofs.SetRegionOwnerKeeps(l, region, owner);
      case TransferXcav(from, to, amount) => GovernanceProofs.TransferXcavKeeps(l, from, to, amount);
      case TransferCash(asset, from, to, amount) => GovernanceProofs.TransferCashKeeps(l, asset, from, to, amount);
      case Donate(from, e, amount) => GovernanceProofs.DonateKeeps(l, from, e, amount);
      case DonateXcav(from, amount) => GovernanceProofs.DonateXcavKeeps(l, from, amount);
    }
  }

  // ----- what each side leaves alone -----

  /** The delivery side touches no proposal, vote, gift or configuration, and at most moves the clock to now. */
  ghost predicate DeliveryOnly(l: Ledger, l': Ledger, now: i64) {
    && l'.proposals == l.proposals && l'.ballots == l.ballots && l'.world.nextProposal == l.world.nextProposal
    && l'.world.config == l.world.config && l'.gifts == l.gifts && l'.clock in {l.clock, now}
  }

  /** The calls that neither open, nor advance, nor close a proposal. */
  predicate Quiet(c: GovernanceCall) {
    || c.VoteOnProposal? || c.UnlockVote? || c.UpdateConfig? || c.UpdateAuthority? || c.SetRole? || c.SetRegionOwner?
    || c.TransferXcav? || c.TransferCash? || c.Donate? || c.DonateXcav?
  }

  /**
   * The governance side touches no booking, no lecturer and no cancellation. Only one call sets the configuration,
   * only a gift is a gift, only voting and unlocking touch a ballot, and only minting a module or a sponsorship.
   */
  ghost predicate GovernanceOnly(l: Ledger, l': Ledger, now: i64, c: GovernanceCall) {
    && l'.bookings == l.bookings && l'.deliverers == l.deliverers && l'.cancellations == l.cancellations
    && l'.world.nextBooking == l.world.nextBooking
    && l'.world.config == (if c.UpdateConfig? then c.config else l.world.config)
    && (!c.Donate? ==> l'.gifts == l.gifts)
    && (!c.VoteOnProposal? && !c.UnlockVote? ==> l'.ballots == l.ballots)
    && (Quiet(c) ==> l'.proposals == l.proposals && l'.world.nextProposal == l.world.nextProposal)
    && (!c.MintProposed? && !c.MintSponsored? ==>
          && l'.modules == l.modules && l'.sponsorships == l.sponsorships
          && l'.world.nextModule == l.world.nextModule && l'.world.nextSponsor == l.world.nextSponsor)
    && l'.clock in {l.clock, now}
  }

  lemma SellingOnly(l: Ledger, now: i64, c: DeliveryCall)
    requires DeliveryStep(l, now, c).Ok?
    requires c.CreateModule? || c.BurnUnsponsored? || c.RemoveModule? || c.SponsorModule?
             || c.ReclaimSponsorship? || c.CloseSponsorship?
    ensures DeliveryOnly(l, DeliveryStep(l, now, c).value, now)
  {
    hide Sum, Delivery.PayOut, Delivery.Unwindable, Delivery.MayFinalize, Delivery.Delivered, Delivery.Counterparty,
         PricePerToken, Split, Debit, Credit, Clamp, CheckedMul, SaturatingSub, Config.SlashPerStrike, World.HasRole,
         Funding.Settle, Funding.Reclaim;
    match c {
      case CreateModule(_, _, _) =>
      case BurnUnsponsored(_, _, _) =>
      case RemoveModule(_, _) =>
      case SponsorModule(_, _, _, _) =>
      case ReclaimSponsorship(_, _, _) =>
      case CloseSponsorship(_, _) =>
    }
  }

  lemma BookingOnly(l: Ledger, now: i64, c: DeliveryCall)
    requires DeliveryStep(l, now, c).Ok?
    requires c.BookModule? || c.ClaimBooking? || c.CancelBooking? || c.ClearOldCancellation?
             || c.CancelClaim? || c.ExpireBooking?
    ensures DeliveryOnly(l, DeliveryStep(l, now, c).value, now)
  {
    hide Sum, Delivery.PayOut, Delivery.Unwindable, Delivery.MayFinalize, Delivery.Delivered, Delivery.Counterparty,
         PricePerToken, Split, Debit, Credit, Clamp, CheckedMul, SaturatingSub, Config.SlashPerStrike, World.HasRole,
         Funding.Settle, Funding.Reclaim;
    match c {
      case BookModule(_, _, _) =>
      case ClaimBooking(_, _) =>
      case CancelBooking(_, _) =>
      case ClearOldCancellation(_, _) =>
      case CancelClaim(_, _) =>
      case ExpireBooking(_) =>
    }
  }

  lemma ScoringOnly(l: Ledger, now: i64, c: DeliveryCall)
    requires DeliveryStep(l, now, c).Ok?
    requires c.SubmitScore? || c.DisputeScore? || c.ResolveDispute? || c.FinalizeScore?
             || c.FinishBooking? || c.RegisterDeliverer? || c.UnregisterDeliverer?
    ensures DeliveryOnly(l, DeliveryStep(l, now, c).value, now)
  {
    hide Sum, Delivery.PayOut, Delivery.Unwindable, Delivery.MayFinalize, Delivery.Delivered, Delivery.Counterparty,
         PricePerToken, Split, Debit, Credit, Clamp, CheckedMul, SaturatingSub, Config.SlashPerStrike, World.HasRole,
         Funding.Settle, Funding.Reclaim;
    match c {
      case SubmitScore(_, _, _) =>
      case DisputeScore(_, _, _) =>
      case ResolveDispute(_, _, _) =>
      case FinalizeScore(_, _) =>
      case FinishBooking(_) =>
      case RegisterDeliverer(_) =>
      case UnregisterDeliverer(_) =>
    }
  }

  lemma DeliveryFrame(l: Ledger, now: i64, c: DeliveryCall)
    requires DeliveryStep(l, now, c).Ok?
    ensures DeliveryOnly(l, DeliveryStep(l, now, c).value, now)
  {
    hide DeliveryStep, DeliveryOnly;
    match c {
      case CreateModule(_, _, _) => SellingOnly(l, now, c);
      case BurnUnsponsored(_, _, _) => SellingOnly(l, now, c);
      case RemoveModule(_, _) => SellingOnly(l, now, c);
      case SponsorModule(_, _, _, _) => SellingOnly(l, now, c);
      case ReclaimSponsorship(_, _, _) => SellingOnly(l, now, c);
      case CloseSponsorship(_, _) => SellingOnly(l, now, c);
      case BookModule(_, _, _) => BookingOnly(l, now, c);
      case ClaimBooking(_, _) => BookingOnly(l, now, c);
      case CancelBooking(_, _) => BookingOnly(l, now, c);
      case ClearOldCancellation(_, _) => BookingOnly(l, now, c);
      case CancelClaim(_, _) => BookingOnly(l, now, c);
      case ExpireBooking(_) => BookingOnly(l, now, c);
      case SubmitScore(_, _, _) => ScoringOnly(l, now, c);
      case DisputeScore(_, _, _) => ScoringOnly(l, now, c);
      case ResolveDispute(_, _, _) => ScoringOnly(l, now, c);
      case FinalizeScore(_, _) => ScoringOnly(l, now, c);
      case FinishBooking(_) => ScoringOnly(l, now, c);
      case RegisterDeliverer(_) => ScoringOnly(l, now, c);
      case UnregisterDeliverer(_) => ScoringOnly(l, now, c);
    }
  }

  lemma VotingOnly(l: Ledger, now: i64, c: GovernanceCall)
    requires GovernanceStep(l, now, c).Ok?
    requires c.CreateProposal? || c.CreateSponsorProposal? || c.VoteOnProposal? || c.FinalizeProposal?
             || c.UnlockVote?
    ensures GovernanceOnly(l, GovernanceStep(l, now, c).value, now, c)
  {
    hide Sum, PricePerToken, Debit, Credit, Pay, Clamp, World.HasRole, VotePasses, Config.Valid, Ledger.EscrowAsset,
         GiftIn;
    match c {
      case CreateProposal(_, _, _, _) =>
      case CreateSponsorProposal(_, _, _, _) =>
      case VoteOnProposal(_, _, _, _) =>
      case FinalizeProposal(_) =>
      case UnlockVote(_, _) =>
    }
  }

  lemma BuildingOnly(l: Ledger, now: i64, c: GovernanceCall)
    requires GovernanceStep(l, now, c).Ok?
    requires c.ClaimProposal? || c.UploadProposal? || c.ReleaseClaim? || c.ReviewProposal?
    ensures GovernanceOnly(l, GovernanceStep(l, now, c).value, now, c)
  {
    hide Sum, PricePerToken, Debit, Credit, Pay, Clamp, World.HasRole, VotePasses, Config.Valid, Ledger.EscrowAsset,
         GiftIn, Governance.Reviewed, Governance.Reserved, Governance.Uploaded, Governance.Released,
         Governance.BuiltModule;
    match c {
      case ClaimProposal(_, _) =>
      case UploadProposal(_, _) =>
      case ReleaseClaim(_) =>
      case ReviewProposal(_, _, _) =>
    }
  }

  lemma MintingOnly(l: Ledger, now: i64, c: GovernanceCall)
    requires GovernanceStep(l, now, c).Ok?
    requires c.MintProposed? || c.MintSponsored?
    ensures GovernanceOnly(l, GovernanceStep(l, now, c).value, now, c)
  {
    hide Sum, Credit, World.HasRole, Governance.BuiltModule;
    match c {
      case MintProposed(_, _) =>
      case MintSponsored(_, _) =>
    }
  }

  lemma EndingOnly(l: Ledger, now: i64, c: GovernanceCall)
    requires GovernanceStep(l, now, c).Ok?
    requires c.ExpireProposal? || c.ReclaimPreSponsor? || c.ClearProposal?
    ensures GovernanceOnly(l, GovernanceStep(l, now, c).value, now, c)
  {
    hide Sum, PricePerToken, Debit, Credit, Pay, Clamp, World.HasRole, VotePasses, Config.Valid, Ledger.EscrowAsset,
         GiftIn;
    match c {
      case ExpireProposal(_) =>
      case ReclaimPreSponsor(_, _) =>
      case ClearProposal(_) =>
    }
  }

  lemma AuthorityOnly(l: Ledger, now: i64, c: GovernanceCall)
    requires GovernanceStep(l, now, c).Ok?
    requires c.UpdateConfig? || c.UpdateAuthority? || c.SetRole? || c.SetRegionOwner?
    ensures GovernanceOnly(l, GovernanceStep(l, now, c).value, now, c)
  {
    hide Sum, Config.Valid;
    match c {
      case UpdateConfig(_, _) =>
      case UpdateAuthority(_, _) =>
      case SetRole(_, _, _) =>
      case SetRegionOwner(_, _) =>
    }
  }

  lemma OutsideOnly(l: Ledger, now: i64, c: GovernanceCall)
    requires GovernanceStep(l, now, c).Ok?
    requires c.TransferXcav? || c.TransferCash? || c.Donate? || c.DonateXcav?
    ensures GovernanceOnly(l, GovernanceStep(l, now, c).value, now, c)
  {
    hide Sum, PricePerToken, Debit, Credit, Pay, Clamp, World.HasRole, VotePasses, Config.Valid, Ledger.EscrowAsset,
         GiftIn;
    match c {
      case TransferXcav(_, _, _) =>
      case TransferCash(_, _, _, _) =>
      case Donate(_, _, _) =>
      case DonateXcav(_, _) =>
    }
  }

  lemma GovernanceFrame(l: Ledger, now: i64, c: GovernanceCall)
    requires GovernanceStep(l, now, c).Ok?
    ensures GovernanceOnly(l, GovernanceStep(l, now, c).value, now, c)
  {
    hide GovernanceStep, GovernanceOnly;
    match c {
      case CreateProposal(_, _, _, _) => VotingOnly(l, now, c);
      case CreateSponsorProposal(_, _, _, _) => VotingOnly(l, now, c);
      case VoteOnProposal(_, _, _, _) => VotingOnly(l, now, c);
      case FinalizeProposal(_) => VotingOnly(l, now, c);
      case UnlockVote(_, _) => VotingOnly(l, now, c);
      case ClaimProposal(_, _) => BuildingOnly(l, now, c);
      case UploadProposal(_, _) => BuildingOnly(l, now, c);
      case ReleaseClaim(_) => BuildingOnly(l, now, c);
      case ReviewProposal(_, _, _) => BuildingOnly(l, now, c);
      case MintProposed(_, _) => MintingOnly(l, now, c);
      case MintSponsored(_, _) => MintingOnly(l, now, c);
      case ExpireProposal(_) => EndingOnly(l, now, c);
      case ReclaimPreSponsor(_, _) => EndingOnly(l, now, c);
      case ClearProposal(_) => EndingOnly(l, now, c);
      case UpdateConfig(_, _) => AuthorityOnly(l, now, c);
      case UpdateAuthority(_, _) => AuthorityOnly(l, now, c);
      case SetRole(_, _, _) => AuthorityOnly(l, now, c);
      case SetRegionOwner(_, _) => AuthorityOnly(l, now, c);
      case TransferXcav(_, _, _) => OutsideOnly(l, now, c);
      case TransferCash(_, _, _, _) => OutsideOnly(l, now, c);
      case Donate(_, _, _) => OutsideOnly(l, now, c);
      case DonateXcav(_, _) => OutsideOnly(l, now, c);
    }
  }

  /** The clock never runs ahead of the step being taken. */
  lemma StepClock(l: Ledger, tx: Tx)
    requires l.clock <= tx.now
    ensures Apply(l, tx).clock <= tx.now
  {
    hide DeliveryStep, GovernanceStep;
    if Step(l, tx).Ok? {
      match tx.call {
        case Deliver(c) => DeliveryFrame(l, tx.now, c);
        case Govern(c) => GovernanceFrame(l, tx.now, c);
      }
    }
  }

  /** One step, successful or not, keeps the invariant and every token total. */
  lemma ApplyKeeps(l: Ledger, tx: Tx)
    requires Inv(l) && l.clock <= tx.now
    ensures Keeps(l, Apply(l, tx))
  {
    hide DeliveryStep, GovernanceStep, Inv, Sum, Ledger.XcavTotal, Ledger.CashTotal;
    if Step(l, tx).Ok? {
      match tx.call {
        case Deliver(c) => DeliveryStepKeeps(l, tx.now, c);
        case Govern(c) => GovernanceStepKeeps(l, tx.now, c);
      }
    }
  }

  // ----- whole runs -----

  lemma ChronologicalPrefix(start: int, txs: seq<Tx>, n: nat)
    requires Chronological(start, txs) && n <= |txs|
    ensures Chronological(start, txs[..n])
  {
  }

  /** Over every run the invariant holds, and no XCAV and no unit of any payment asset is made or lost. */
  lemma {:induction false} RunKeeps(l: Ledger, txs: seq<Tx>)
    requires Inv(l) && Chronological(l.clock, txs)
    ensures Keeps(l, Run(l, txs))
    ensures txs != [] ==> Run(l, txs).clock <= txs[|txs| - 1].now
    ensures txs == [] ==> Run(l, txs) == l
    decreases |txs|
  {
    hide Step, Inv, Sum, Ledger.XcavTotal, Ledger.CashTotal, Apply;
    if txs != [] {
      var n := |txs| - 1;
      ChronologicalPrefix(l.clock, txs, n);
      RunKeeps(l, txs[..n]);
      assert n > 0 ==> txs[..n][n - 1] == txs[n - 1];
      ApplyKeeps(Run(l, txs[..n]), txs[n]);
      StepClock(Run(l, txs[..n]), txs[n]);
    }
  }

  /** What every run from the start reaches satisfies the invariant and holds all that was there to begin with. */
  lemma ReachableHolds(w: World, txs: seq<Tx>)
    requires w.config.Valid() && Sum(w.xcav, Held()) + w.treasury <= U64_MAX && Chronological(I64_MIN, txs)
    ensures Inv(Run(Start(w), txs))
    ensures Run(Start(w), txs).XcavTotal() == Sum(w.xcav, Held()) + w.treasury
    ensures forall asset :: Run(Start(w), txs).CashTotal(asset) == Sum(w.cash, HeldIn(asset))
  {
    hide Step, Inv, Apply, Config.Valid, Run;
    StartHolds(w);
    RunKeeps(Start(w), txs);
  }

  /** The state before the i-th step of a run is one every lemma about reachable ledgers applies to. */
  lemma AlongRun(l: Ledger, txs: seq<Tx>, i: nat)
    requires Inv(l) && Chronological(l.clock, txs) && i < |txs|
    ensures Inv(Run(l, txs[..i])) && Run(l, txs[..i]).clock <= txs[i].now
    ensures Run(l, txs[..i + 1]) == Apply(Run(l, txs[..i]), txs[i])
  {
    hide Step, Inv, Sum, Ledger.XcavTotal, Ledger.CashTotal, Apply;
    ChronologicalPrefix(l.clock, txs, i);
    RunKeeps(l, txs[..i]);
    assert txs[..i + 1][..i] == txs[..i];
  }

  /** A run is its first part followed by the rest. */
  lemma {:induction false} RunSplit(l: Ledger, txs: seq<Tx>, n: nat)
    requires n <= |txs|
    ensures Run(l, txs) == Run(Run(l, txs[..n]), txs[n..])
    decreases |txs|
  {
    hide Apply;
    if n == |txs| {
      assert txs[..n] == txs;
    } else {
      var m := |txs| - 1;
      RunSplit(l, txs[..m], n);
      assert txs[..m][..n] == txs[..n] && txs[..m][n..] == txs[n..m] && txs[n..][..m - n] == txs[n..m];
    }
  }
}
