/**
 * The regions program as a ledger of records only, and what each instruction does to it. The surplus is what was
 * sent into the vault unasked.
 */
module RegionsLedger {
  import opened Machine
  import opened Sums
  import opened Wallets
  import opened Voting
  import opened RegionsState

  datatype Ledger = Ledger(
    world: RegionsWorld, clock: int,
    regions: map<u16, Region>, states: map<u16, RegionState>, proposals: map<nat, RegionProposal>, ballots: Ballots,
    surplus: nat)
  {
    ghost function Tally(pid: nat, vote: Vote): nat {
      Sum(ballots, CastFor(pid, vote))
    }

    /** Every XCAV stake the vault must be able to return. */
    ghost function VaultOwed(): nat {
      Sum(states, HeldDeposit()) + Sum(regions, Collateral()) + Sum(ballots, LockedPower())
    }

    ghost function XcavTotal(): nat {
      Sum(world.xcav, Held()) + VaultOwed() + surplus
    }
  }

  ghost function HeldDeposit(): (u16, RegionState) -> nat {
    (code: u16, s: RegionState) => When(!s.status.Rejected?, s.deposit)
  }

  ghost function Collateral(): (u16, Region) -> nat {
    (code: u16, r: Region) => r.collateral
  }

  // ----- what every reachable ledger satisfies -----

  /** A region is either created or on its way, never both, and only recognised codes are either. */
  ghost predicate RegionsInv(regions: map<u16, Region>, states: map<u16, RegionState>) {
    && (forall code :: code in regions ==> IsRegionCode(code) && code !in states)
    && (forall code :: code in states ==> IsRegionCode(code))
  }

  /** A proposal exists exactly while the region it is for is being voted on, one per region. */
  ghost predicate ProposalsInv(next: nat, states: map<u16, RegionState>, ps: map<nat, RegionProposal>) {
    && (forall code :: code in states ==>
          var s := states[code];
          && s.proposalId < next
          && (s.status.Proposing? <==> s.proposalId in ps)
          && (s.status.Proposing? ==> ps[s.proposalId].region == code && ps[s.proposalId].proposer == s.proposer))
    && (forall pid :: pid in ps ==>
          pid < next && ps[pid].region in states && states[ps[pid].region].proposalId == pid)
  }

  ghost predicate Inv(l: Ledger) {
    && l.world.config.Valid()
    && RegionsInv(l.regions, l.states)
    && ProposalsInv(l.world.nextProposal, l.states, l.proposals)
    && BallotsInv(l.world.nextProposal, l.clock, l.proposals, ExpiryOf, l.ballots)
    && l.XcavTotal() <= U64_MAX
  }

  /** A step keeps the invariant and neither makes nor loses XCAV. */
  ghost predicate Keeps(l: Ledger, l': Ledger) {
    Inv(l') && l'.XcavTotal() == l.XcavTotal()
  }

  // ----- proposing and voting; the supply is the XCAV mint's -----

  ghost function ProposeRegion(l: Ledger, now: i64, proposer: Key, code: u16, supply: u64): Result<Ledger> {
    var w := l.world;
    :- Need(proposer in w.operators && code !in l.regions && code !in l.states);
    :- Need(IsRegionCode(code) && w.nextProposal < U64_MAX);
    var deposit :- OperatorBond(supply);
    var xcav :- Debit(w.xcav, proposer, deposit);
    Ok(l.(clock := now,
          world := w.(xcav := xcav, nextProposal := w.nextProposal + 1),
          states := l.states[code := RegionState(Proposing, w.nextProposal, proposer, deposit, 0)],
          proposals := l.proposals[w.nextProposal :=
            RegionProposal(proposer, code, Clamp(now + w.config.votingPeriod))]))
  }

  ghost function VoteOnRegion(l: Ledger, now: i64, voter: Key, code: u16, vote: Vote, amount: u64): Result<Ledger> {
    var w := l.world;
    :- Need(amount >= w.config.minimumVotingAmount && code in l.states && l.states[code].proposalId in l.proposals);
    var pid := l.states[code].proposalId;
    var p, k := l.proposals[pid], (pid, voter);
    :- Need(now < p.expiry);
    var refunded := if k in l.ballots then Pay(w.xcav, voter, l.ballots[k].power) else w.xcav;
    var xcav :- Debit(refunded, voter, amount);
    Ok(l.(clock := now, world := w.(xcav := xcav), ballots := l.ballots[k := Ballot(vote, amount, p.expiry, true)]))
  }

  ghost function FinalizeRegion(l: Ledger, now: i64, code: u16): Result<Ledger> {
    var w, c := l.world, l.world.config;
    :- Need(code in l.states && l.states[code].status.Proposing? && l.states[code].proposalId in l.proposals);
    var s := l.states[code];
    var p := l.proposals[s.proposalId];
    :- Need(now >= p.expiry);
    var proposals := l.proposals - {s.proposalId};
    if VotePasses(l.Tally(s.proposalId, Yes), l.Tally(s.proposalId, No), c.thresholdBps, c.quorum) then
      var deadline :- AddTime(now, c.ownerChangePeriod);
      Ok(l.(clock := now, proposals := proposals,
            states := l.states[code := s.(status := Passed, claimDeadline := deadline)]))
    else
      Ok(l.(clock := now, proposals := proposals,
            world := w.(xcav := Credit(w.xcav, p.proposer, s.deposit)),
            states := l.states[code := s.(status := Rejected)]))
  }

  ghost function UnlockVote(l: Ledger, now: i64, voter: Key, pid: nat): Result<Ledger> {
    var w, k := l.world, (pid, voter);
    :- Need(k in l.ballots && l.ballots[k].locked && now >= l.ballots[k].expiry);
    Ok(l.(clock := now, world := w.(xcav := Pay(w.xcav, voter, l.ballots[k].power)),
          ballots := l.ballots[k := l.ballots[k].(locked := false)]))
  }

  ghost function ClearRegion(l: Ledger, now: i64, code: u16): Result<Ledger> {
    var w := l.world;
    :- Need(code in l.states);
    var s := l.states[code];
    :- Need(s.status.Rejected? || (s.status.Passed? && now >= s.claimDeadline));
    var w' := if s.status.Passed? then w.(xcav := Credit(w.xcav, s.proposer, s.deposit)) else w;
    Ok(l.(clock := now, world := w', states := l.states - {code}))
  }

  // ----- the operator's seat -----

  ghost function CreateRegion(l: Ledger, now: i64, creator: Key, code: u16): Result<Ledger> {
    var w := l.world;
    :- Need(creator in w.operators && code in l.states && code !in l.regions);
    var s := l.states[code];
    :- Need(s.status.Passed? && s.proposer == creator && now < s.claimDeadline);
    var next :- AddTime(now, w.config.ownerChangePeriod);
    Ok(l.(clock := now, states := l.states - {code},
          regions := l.regions[code := Region(creator, s.deposit, next)]))
  }

  /** Take an open seat, or renew one's own: a renewal moves only the difference between old and new bond. */
  ghost function ClaimSeat(l: Ledger, now: i64, operator: Key, code: u16, supply: u64): Result<Ledger> {
    var w := l.world;
    :- Need(operator in w.operators && code in l.regions);
    var r := l.regions[code];
    :- Need(r.nextOwnerChange < now);
    var bond :- OperatorBond(supply);
    var xcav :-
      if operator == r.owner then
        if bond > r.collateral then Debit(w.xcav, operator, bond - r.collateral)
        else Ok(Pay(w.xcav, operator, r.collateral - bond))
      else
        var paid :- Debit(w.xcav, operator, bond);
        Ok(Credit(paid, r.owner, r.collateral));
    var next :- AddTime(now, w.config.ownerChangePeriod);
    Ok(l.(clock := now, world := w.(xcav := xcav),
          regions := l.regions[code := Region(operator, bond, next)]))
  }

  ghost function Resign(l: Ledger, now: i64, operator: Key, code: u16): Result<Ledger> {
    var w := l.world;
    :- Need(operator in w.operators && code in l.regions && l.regions[code].owner == operator);
    var next :- AddTime(now, w.config.noticePeriod);
    :- Need(l.regions[code].nextOwnerChange > next);
    Ok(l.(clock := now, regions := l.regions[code := l.regions[code].(nextOwnerChange := next)]))
  }

  // ----- the authority and the outside world -----

  ghost function UpdateConfig(l: Ledger, authority: Key, c: RegionsConfig): Result<Ledger> {
    var w := l.world;
    :- Need(authority == w.authority && c.Valid());
    Ok(l.(world := w.(config := c)))
  }

  ghost function UpdateAuthority(l: Ledger, authority: Key, successor: Key): Result<Ledger> {
    var w := l.world;
    :- Need(authority == w.authority && successor != NO_KEY);
    Ok(l.(world := w.(authority := successor)))
  }

  ghost function SetOperator(l: Ledger, k: Key, held: bool): Result<Ledger> {
    Ok(l.(world := l.world.(operators := if held then l.world.operators + {k} else l.world.operators - {k})))
  }

  ghost function TransferXcav(l: Ledger, from: Key, to: Key, amount: u64): Result<Ledger> {
    var xcav :- Debit(l.world.xcav, from, amount);
    Ok(l.(world := l.world.(xcav := Credit(xcav, to, amount))))
  }

  /** Anyone may send XCAV into the vault: no instruction is asked. */
  ghost function DonateXcav(l: Ledger, from: Key, amount: u64): Result<Ledger> {
    var w := l.world;
    var xcav :- Debit(w.xcav, from, amount);
    Ok(l.(world := w.(xcav := xcav), surplus := l.surplus + amount))
  }
}
