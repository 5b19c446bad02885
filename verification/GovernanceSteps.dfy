/**
 * What each instruction of the proposal side does to the ledger: opening, voting, building and minting,
 * and what the authority and the outside world may do.
 */
module GovernanceSteps {
  import opened Machine
  import opened Pricing
  import opened Wallets
  import opened Voting
  import opened EducationState
  import opened EducationLedger

  // ----- opening a proposal -----

  predicate IsProposerRole(r: Role) {
    r in {ModuleCreator, ModuleSponsor, ModuleBooker, ModuleDeliverer}
  }

  /** A fresh proposal: the configured terms are frozen on it, and nobody builds it yet. */
  function Opened(c: Config, now: i64, proposer: Key, role: Role, region: u16, amount: u64): Proposal {
    Proposal(proposer, role, region, Voting, Clamp(now + c.votingPeriod), c.proposalDeposit,
             amount, c.terms, None, 0, 0, 0, [], 0, 0, 0, 0)
  }

  ghost function CreateProposal(l: Ledger, now: i64, proposer: Key, role: Role, region: u16,
                                amount: u64): Result<Ledger> {
    var w, c := l.world, l.world.config;
    :- Need(IsProposerRole(role) && w.HasRole(proposer, role) && region in w.regions);
    :- Need(0 < amount <= c.maxModuleTokens && w.nextProposal < U64_MAX);
    var xcav :- Debit(w.xcav, proposer, c.proposalDeposit);
    Ok(l.(clock := now,
          world := w.(xcav := xcav, nextProposal := w.nextProposal + 1),
          proposals := l.proposals[w.nextProposal := Opened(c, now, proposer, role, region, amount)]))
  }

  ghost function CreateSponsorProposal(l: Ledger, now: i64, proposer: Key, region: u16, amount: u64,
                                       asset: Key): Result<Ledger> {
    var w, c := l.world, l.world.config;
    :- Need(w.HasRole(proposer, ModuleSponsor) && region in w.regions);
    :- Need(0 < amount <= c.maxModuleTokens && w.nextProposal < U64_MAX);
    :- Need(asset in w.decimals && asset in c.acceptedAssets && asset in w.supported);
    :- Need(0 < c.preSponsorAmount <= amount);
    var xcav :- Debit(w.xcav, proposer, c.proposalDeposit);
    var price :- PricePerToken(c.terms, w.decimals[asset]);
    var total :- CheckedMul(price, c.preSponsorAmount, U64_MAX);
    var cash :- Debit(w.cash, (asset, proposer), total);
    var p := Opened(c, now, proposer, ModuleSponsor, region, amount);
    Ok(l.(clock := now,
          world := w.(xcav := xcav, cash := cash, nextProposal := w.nextProposal + 1),
          proposals := l.proposals[w.nextProposal :=
            p.(asset := asset, preAmount := c.preSponsorAmount, prePrice := price)]))
  }

  // ----- voting -----

  ghost function VoteOnProposal(l: Ledger, now: i64, voter: Key, pid: nat, vote: Vote, amount: u64): Result<Ledger> {
    var w, k := l.world, (pid, voter);
    :- Need(amount >= w.config.minimumVotingAmount && pid in l.proposals);
    :- Need(l.proposals[pid].status.Voting? && now < l.proposals[pid].expiry);
    var refunded := if k in l.ballots then Pay(w.xcav, voter, l.ballots[k].power) else w.xcav;
    var xcav :- Debit(refunded, voter, amount);
    Ok(l.(clock := now, world := w.(xcav := xcav),
          ballots := l.ballots[k := Ballot(vote, amount, l.proposals[pid].expiry, true)]))
  }

  /** The vote is counted: the proposal can be claimed until the deadline, or it is rejected. */
  function Decided(p: Proposal, passed: bool, deadline: i64): Proposal {
    if passed then p.(status := Claimable, buildDeadline := deadline) else p.(status := Rejected)
  }

  ghost function FinalizeProposal(l: Ledger, now: i64, pid: nat): Result<Ledger> {
    var w, c := l.world, l.world.config;
    :- Need(pid in l.proposals && l.proposals[pid].status.Voting? && now >= l.proposals[pid].expiry);
    var p := l.proposals[pid];
    var passed := VotePasses(l.Tally(pid, Yes), l.Tally(pid, No), c.thresholdBps, c.quorum);
    var w' := if passed then w.(xcav := Credit(w.xcav, p.proposer,
                                               p.deposit)) else w.(treasury := w.treasury + p.deposit);
    Ok(l.(clock := now, world := w',
          proposals := l.proposals[pid := Decided(p, passed, Clamp(now + c.claimPeriod))]))
  }

  ghost function UnlockVote(l: Ledger, now: i64, voter: Key, pid: nat): Result<Ledger> {
    var w, k := l.world, (pid, voter);
    :- Need(k in l.ballots && l.ballots[k].locked && now >= l.ballots[k].expiry);
    Ok(l.(clock := now, world := w.(xcav := Pay(w.xcav, voter, l.ballots[k].power)),
          ballots := l.ballots[k := l.ballots[k].(locked := false)]))
  }

  // ----- building -----

  function Reserved(p: Proposal, creator: Key, bond: u64, deadline: i64): Proposal {
    p.(status := Claimed, claimant := Some(creator), bond := bond, uploadDeadline := deadline, failures := 0)
  }

  function Uploaded(p: Proposal): Proposal {
    p.(status := UnderReview, uploadDeadline := 0)
  }

  function Released(p: Proposal): Proposal {
    p.(status := Claimable, claimant := None, bond := 0, uploadDeadline := 0)
  }

  /**
   * A first failure sends the claimant back to upload again; a second drops and bans them, or rejects the
   * proposal once the ban list is full.
   */
  function Reviewed(p: Proposal, passed: bool, deadline: i64): Proposal
    requires p.claimant.Some?
  {
    if passed then p.(status := Approved)
    else if p.failures == 0 then p.(status := Claimed, failures := 1, uploadDeadline := deadline)
    else
      var dropped := p.(claimant := None, bond := 0, failures := 0, uploadDeadline := 0);
      if |p.banned| < MAX_BANNED then dropped.(banned := p.banned + [p.claimant.value], status := Claimable)
      else dropped.(status := Rejected)
  }

  /** Passed by the vote and not minted yet. */
  predicate Unbuilt(s: Status) {
    s.Claimable? || s.Claimed? || s.UnderReview? || s.Approved?
  }

  function Expired(p: Proposal): Proposal {
    p.(status := Rejected, claimant := None, bond := 0, uploadDeadline := 0)
  }

  ghost function ClaimProposal(l: Ledger, now: i64, creator: Key, pid: nat): Result<Ledger> {
    var w, c := l.world, l.world.config;
    :- Need(pid in l.proposals && l.proposals[pid].status.Claimable? && w.HasRole(creator, ModuleCreator));
    var p := l.proposals[pid];
    :- Need((p.role == ModuleCreator ==> p.proposer == creator) && creator !in p.banned);
    var xcav :- Debit(w.xcav, creator, c.moduleDeposit);
    Ok(l.(clock := now, world := w.(xcav := xcav),
          proposals := l.proposals[pid := Reserved(p, creator, c.moduleDeposit, Clamp(now + c.uploadPeriod))]))
  }

  ghost function UploadProposal(l: Ledger, claimant: Key, pid: nat): Result<Ledger> {
    var ps := l.proposals;
    :- Need(pid in ps && ps[pid].status.Claimed? && ps[pid].claimant == Some(claimant));
    Ok(l.(proposals := ps[pid := Uploaded(ps[pid])]))
  }

  ghost function ReleaseClaim(l: Ledger, now: i64, pid: nat): Result<Ledger> {
    var w := l.world;
    :- Need(pid in l.proposals && l.proposals[pid].status.Claimed? && now >= l.proposals[pid].uploadDeadline);
    var p := l.proposals[pid];
    Ok(l.(clock := now, world := w.(treasury := w.treasury + p.bond),
          proposals := l.proposals[pid := Released(p)]))
  }

  ghost function ReviewProposal(l: Ledger, now: i64, agent: Key, pid: nat, passed: bool): Result<Ledger> {
    var w, c := l.world, l.world.config;
    :- Need(pid in l.proposals && l.proposals[pid].status.UnderReview? && w.HasRole(agent, ModuleAIAgent));
    var p := l.proposals[pid];
    :- Need(p.claimant.Some?);
    // A failed review that is not the claimant's first costs them the bond.
    var slashed := if passed || p.failures == 0 then 0 else p.bond;
    Ok(l.(clock := now, world := w.(treasury := w.treasury + slashed),
          proposals := l.proposals[pid := Reviewed(p, passed, Clamp(now + c.uploadPeriod))]))
  }

  /** The module a proposal is built into: its builder's, on the terms that were voted on, backed by the bond. */
  function BuiltModule(p: Proposal, creator: Key): ModuleRecord {
    ModuleRecord(ModuleBase(creator, p.region, p.bond, p.amount, p.terms), 0, 0)
  }

  ghost function MintProposed(l: Ledger, creator: Key, pid: nat): Result<Ledger> {
    var w := l.world;
    :- Need(pid in l.proposals && l.proposals[pid].status.Approved? && w.HasRole(creator, ModuleCreator));
    var p := l.proposals[pid];
    :- Need(p.claimant == Some(creator) && p.preAmount == 0 && w.nextModule < U64_MAX);
    Ok(l.(world := w.(nextModule := w.nextModule + 1),
          modules := l.modules[w.nextModule := BuiltModule(p, creator)],
          proposals := l.proposals - {pid}))
  }

  ghost function MintSponsored(l: Ledger, now: i64, creator: Key, pid: nat): Result<Ledger> {
    var w := l.world;
    :- Need(pid in l.proposals && l.proposals[pid].status.Approved? && w.HasRole(creator, ModuleCreator));
    var p := l.proposals[pid];
    :- Need(p.claimant == Some(creator) && p.preAmount > 0 && p.asset in w.decimals);
    :- Need(w.nextModule < U64_MAX && w.nextSponsor < U64_MAX);
    // The escrow is closed without a look at what is left in it, and only an empty account can be closed.
    :- Need(OfProposal(pid) !in l.gifts);
    var deal := Deal(p.proposer, p.asset, p.preAmount, p.prePrice, now);
    Ok(l.(clock := now,
          world := w.(nextModule := w.nextModule + 1, nextSponsor := w.nextSponsor + 1),
          modules := l.modules[w.nextModule := BuiltModule(p, creator)],
          sponsorships := l.sponsorships[(w.nextModule, w.nextSponsor) :=
            Funding(deal, p.preAmount * p.prePrice, 0, 0, 0)],
          proposals := l.proposals - {pid}))
  }

  // ----- winding up -----

  /** A bond goes back to a claimant who was still waiting for a review, and to the treasury otherwise. */
  function BondSettled(w: World, p: Proposal): World
    requires p.bond > 0 && p.status.UnderReview? ==> p.claimant.Some?
  {
    if p.bond == 0 then w
    else if p.status.UnderReview? then w.(xcav := Credit(w.xcav, p.claimant.value, p.bond))
    else w.(treasury := w.treasury + p.bond)
  }

  ghost function ExpireProposal(l: Ledger, now: i64, pid: nat): Result<Ledger> {
    var w := l.world;
    :- Need(pid in l.proposals && Unbuilt(l.proposals[pid].status));
    var p := l.proposals[pid];
    :- Need(now >= p.buildDeadline && now >= p.uploadDeadline);
    :- Need(p.bond > 0 && p.status.UnderReview? ==> p.claimant.Some?);
    Ok(l.(clock := now, world := BondSettled(w, p), proposals := l.proposals[pid := Expired(p)]))
  }

  ghost function ReclaimPreSponsor(l: Ledger, sponsor: Key, pid: nat): Result<Ledger> {
    var w := l.world;
    :- Need(pid in l.proposals && l.proposals[pid].status.Rejected? && l.proposals[pid].proposer == sponsor);
    var p := l.proposals[pid];
    :- Need(p.preAmount > 0 && p.asset in w.decimals);
    :- Need(OfProposal(pid) !in l.gifts);
    Ok(l.(world := w.(cash := Credit(w.cash, (p.asset, sponsor), p.preAmount * p.prePrice)),
          proposals := l.proposals - {pid}))
  }

  ghost function ClearProposal(l: Ledger, pid: nat): Result<Ledger> {
    var ps := l.proposals;
    :- Need(pid in ps && ps[pid].status.Rejected? && ps[pid].preAmount == 0);
    Ok(l.(proposals := ps - {pid}))
  }

  // ----- the authority and the outside world -----

  ghost function UpdateConfig(l: Ledger, authority: Key, c: Config): Result<Ledger> {
    var w := l.world;
    :- Need(authority == w.authority && c.Valid());
    Ok(l.(world := w.(config := c)))
  }

  ghost function UpdateAuthority(l: Ledger, authority: Key, successor: Key): Result<Ledger> {
    var w := l.world;
    :- Need(authority == w.authority && successor != NO_KEY);
    Ok(l.(world := w.(authority := successor)))
  }

  /** The roles program grants or withdraws a role. */
  ghost function SetRole(l: Ledger, k: Key, r: Role, held: bool): Result<Ledger> {
    Ok(l.(world := l.world.(roles := if held then l.world.roles + {(k, r)} else l.world.roles - {(k, r)})))
  }

  /** The regions program creates a region or seats a new operator; it never removes a region. */
  ghost function SetRegionOwner(l: Ledger, region: u16, owner: Key): Result<Ledger> {
    Ok(l.(world := l.world.(regions := l.world.regions[region := owner])))
  }

  /** A holder sends XCAV, or a payment asset, to someone else. */
  ghost function TransferXcav(l: Ledger, from: Key, to: Key, amount: u64): Result<Ledger> {
    var xcav :- Debit(l.world.xcav, from, amount);
    Ok(l.(world := l.world.(xcav := Credit(xcav, to, amount))))
  }

  ghost function TransferCash(l: Ledger, asset: Key, from: Key, to: Key, amount: u64): Result<Ledger> {
    var cash :- Debit(l.world.cash, (asset, from), amount);
    Ok(l.(world := l.world.(cash := Credit(cash, (asset, to), amount))))
  }

  /** Anyone may send tokens into an open escrow, or XCAV into the vault: no instruction is asked. */
  ghost function Donate(l: Ledger, from: Key, e: Escrow, amount: u64): Result<Ledger> {
    var w := l.world;
    var asset :- l.EscrowAsset(e);
    :- Need(amount > 0);
    var cash :- Debit(w.cash, (asset, from), amount);
    Ok(l.(world := w.(cash := cash), gifts := l.gifts[e := Gift(asset, GiftIn(l.gifts, e) + amount)]))
  }

  ghost function DonateXcav(l: Ledger, from: Key, amount: u64): Result<Ledger> {
    var w := l.world;
    var xcav :- Debit(w.xcav, from, amount);
    Ok(l.(world := w.(xcav := xcav), surplus := l.surplus + amount))
  }
}
