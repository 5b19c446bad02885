/** Every instruction of the regions program keeps its ledger's invariant and the XCAV total. */
module RegionsProofs {
  import opened Machine
  import opened Sums
  import opened Wallets
  import opened Voting
  import opened RegionsState
  import opened RegionsLedger

  // ----- sums and parts of the invariant -----

  /** Writing a region's state replaces what it held. */
  lemma PutState(states: map<u16, RegionState>, code: u16, s: RegionState)
    ensures Sum(states[code := s], HeldDeposit())
            + (if code in states then When(!states[code].status.Rejected?, states[code].deposit) else 0)
            == Sum(states, HeldDeposit()) + When(!s.status.Rejected?, s.deposit)
  {
    hide Sum;
    SumPut(states, code, s);
  }

  lemma DropState(states: map<u16, RegionState>, code: u16)
    requires code in states
    ensures Sum(states, HeldDeposit())
            == Sum(states - {code}, HeldDeposit()) + When(!states[code].status.Rejected?, states[code].deposit)
  {
    hide Sum;
    SumDrop(states, code);
  }

  lemma PutRegion(regions: map<u16, Region>, code: u16, r: Region)
    ensures Sum(regions[code := r], Collateral()) + (if code in regions then regions[code].collateral else 0)
            == Sum(regions, Collateral()) + r.collateral
  {
    hide Sum;
    SumPut(regions, code, r);
  }

  lemma RegionStaked(l: Ledger, code: u16)
    ensures code in l.regions ==> l.regions[code].collateral <= l.VaultOwed()
    ensures code in l.states && !l.states[code].status.Rejected? ==> l.states[code].deposit <= l.VaultOwed()
  {
    hide Sum;
    if code in l.regions {
      SumDrop(l.regions, code);
    }
    if code in l.states {
      DropState(l.states, code);
    }
  }

  lemma BallotStaked(l: Ledger, k: (nat, Key))
    ensures k in l.ballots && l.ballots[k].locked ==> l.ballots[k].power <= l.VaultOwed()
  {
    hide Sum;
    if k in l.ballots {
      SumDrop(l.ballots, k);
    }
  }

  /** The proposal of a region being voted on, seen from the region and from itself. */
  lemma ProposalOf(l: Ledger, code: u16)
    requires Inv(l)
    ensures code in l.states ==>
              var s := l.states[code];
              && s.proposalId < l.world.nextProposal
              && (s.status.Proposing? <==> s.proposalId in l.proposals)
              && (s.status.Proposing? ==>
                    l.proposals[s.proposalId].region == code && l.proposals[s.proposalId].proposer == s.proposer)
  {
    hide Sum, RegionsInv, BallotsInv;
  }

  /** While voting is open no vote on it has been unlocked. */
  lemma OpenVote(l: Ledger, k: (nat, Key))
    requires Inv(l)
    ensures k in l.ballots && k.0 in l.proposals ==>
              l.ballots[k].expiry == l.proposals[k.0].expiry
                 && (l.clock < l.proposals[k.0].expiry ==> l.ballots[k].locked)
  {
    hide Sum, RegionsInv, ProposalsInv, BallotsInv;
    OpenBallotIsLocked(l.world.nextProposal, l.clock, l.proposals, ExpiryOf, l.ballots, k);
  }

  lemma TallyFits(l: Ledger, pid: nat)
    requires Inv(l)
    ensures Sum(l.ballots, CastOn(pid)) <= U64_MAX
    ensures l.Tally(pid, Yes) + l.Tally(pid, No) + l.Tally(pid, Abstain) == Sum(l.ballots, CastOn(pid))
  {
    hide Sum, RegionsInv, ProposalsInv, BallotsInv;
    BallotsFit(l.world.nextProposal, l.clock, l.proposals, ExpiryOf, l.ballots, pid);
  }

  lemma FreshProposal(l: Ledger)
    requires Inv(l)
    ensures l.world.nextProposal !in l.proposals
  {
    hide Sum, RegionsInv, BallotsInv;
  }

  lemma OpenProposals(next: nat, states: map<u16, RegionState>, ps: map<nat, RegionProposal>, code: u16, s: RegionState,
                      p: RegionProposal)
    requires ProposalsInv(next, states, ps) && code !in states
    requires s.status.Proposing? && s.proposalId == next && p.region == code && p.proposer == s.proposer
    ensures ProposalsInv(next + 1, states[code := s], ps[next := p])
  {
  }

  lemma CloseProposals(next: nat, states: map<u16, RegionState>, ps: map<nat, RegionProposal>, code: u16,
                       s: RegionState)
    requires ProposalsInv(next, states, ps) && code in states && states[code].status.Proposing?
    requires !s.status.Proposing? && s.proposalId == states[code].proposalId
    ensures ProposalsInv(next, states[code := s], ps - {s.proposalId})
  {
  }

  lemma DropProposals(next: nat, states: map<u16, RegionState>, ps: map<nat, RegionProposal>, code: u16)
    requires ProposalsInv(next, states, ps) && code in states && !states[code].status.Proposing?
    ensures ProposalsInv(next, states - {code}, ps)
  {
  }

  // ----- the instructions -----

  lemma ProposeRegionKeeps(l: Ledger, now: i64, proposer: Key, code: u16, supply: u64)
    requires Inv(l) && l.clock <= now && ProposeRegion(l, now, proposer, code, supply).Ok?
    ensures Keeps(l, ProposeRegion(l, now, proposer, code, supply).value)
  {
    hide Sum, ProposalsInv, BallotsInv;
    var w, l' := l.world, ProposeRegion(l, now, proposer, code, supply).value;
    var s, p := l'.states[code], l'.proposals[w.nextProposal];
    DebitHeld(w.xcav, proposer, s.deposit);
    PutState(l.states, code, s);
    OpenProposals(w.nextProposal, l.states, l.proposals, code, s, p);
    PutProposalBallots(w.nextProposal, w.nextProposal + 1, l.clock, l.proposals, ExpiryOf, l.ballots,
                       w.nextProposal, p);
    LaterBallots(w.nextProposal + 1, l.clock, now, l'.proposals, ExpiryOf, l.ballots);
  }

  lemma VoteOnRegionKeeps(l: Ledger, now: i64, voter: Key, code: u16, vote: Vote, amount: u64)
    requires Inv(l) && l.clock <= now && VoteOnRegion(l, now, voter, code, vote, amount).Ok?
    ensures Keeps(l, VoteOnRegion(l, now, voter, code, vote, amount).value)
  {
    hide Sum, RegionsInv, ProposalsInv, BallotsInv;
    var w, l' := l.world, VoteOnRegion(l, now, voter, code, vote, amount).value;
    ProposalOf(l, code);
    var k := (l.states[code].proposalId, voter);
    var b := l'.ballots[k];
    var refunded := if k in l.ballots then Pay(w.xcav, voter, l.ballots[k].power) else w.xcav;
    OpenVote(l, k);
    if k in l.ballots {
      CreditHeld(w.xcav, voter, l.ballots[k].power);
    }
    DebitHeld(refunded, voter, amount);
    PutBallot(l.ballots, k, b);
    CastBallots(w.nextProposal, l.clock, now, l.proposals, ExpiryOf, l.ballots, k, b);
  }

  lemma FinalizeRegionKeeps(l: Ledger, now: i64, code: u16)
    requires Inv(l) && l.clock <= now && FinalizeRegion(l, now, code).Ok?
    ensures Keeps(l, FinalizeRegion(l, now, code).value)
  {
    hide Sum, ProposalsInv, BallotsInv, VotePasses;
    var w, l' := l.world, FinalizeRegion(l, now, code).value;
    ProposalOf(l, code);
    var s, s' := l.states[code], l'.states[code];
    CreditHeld(w.xcav, s.proposer, s.deposit);
    PutState(l.states, code, s');
    CloseProposals(w.nextProposal, l.states, l.proposals, code, s');
    DropProposalBallots(w.nextProposal, l.clock, l.proposals, ExpiryOf, l.ballots, s.proposalId);
    LaterBallots(w.nextProposal, l.clock, now, l'.proposals, ExpiryOf, l.ballots);
  }

  lemma UnlockVoteKeeps(l: Ledger, now: i64, voter: Key, pid: nat)
    requires Inv(l) && l.clock <= now && UnlockVote(l, now, voter, pid).Ok?
    ensures Keeps(l, UnlockVote(l, now, voter, pid).value)
  {
    hide Sum, RegionsInv, ProposalsInv, BallotsInv;
    var k := (pid, voter);
    CreditHeld(l.world.xcav, voter, l.ballots[k].power);
    PutBallot(l.ballots, k, l.ballots[k].(locked := false));
    UnlockBallots(l.world.nextProposal, l.clock, now, l.proposals, ExpiryOf, l.ballots, k);
  }

  lemma ClearRegionKeeps(l: Ledger, now: i64, code: u16)
    requires Inv(l) && l.clock <= now && ClearRegion(l, now, code).Ok?
    ensures Keeps(l, ClearRegion(l, now, code).value)
  {
    hide Sum, ProposalsInv, BallotsInv;
    var w, s := l.world, l.states[code];
    CreditHeld(w.xcav, s.proposer, s.deposit);
    DropState(l.states, code);
    DropProposals(w.nextProposal, l.states, l.proposals, code);
    LaterBallots(w.nextProposal, l.clock, now, l.proposals, ExpiryOf, l.ballots);
  }

  lemma CreateRegionKeeps(l: Ledger, now: i64, creator: Key, code: u16)
    requires Inv(l) && l.clock <= now && CreateRegion(l, now, creator, code).Ok?
    ensures Keeps(l, CreateRegion(l, now, creator, code).value)
  {
    hide Sum, ProposalsInv, BallotsInv;
    var w, l' := l.world, CreateRegion(l, now, creator, code).value;
    DropState(l.states, code);
    PutRegion(l.regions, code, l'.regions[code]);
    DropProposals(w.nextProposal, l.states, l.proposals, code);
    LaterBallots(w.nextProposal, l.clock, now, l.proposals, ExpiryOf, l.ballots);
  }

  lemma ClaimSeatKeeps(l: Ledger, now: i64, operator: Key, code: u16, supply: u64)
    requires Inv(l) && l.clock <= now && ClaimSeat(l, now, operator, code, supply).Ok?
    ensures Keeps(l, ClaimSeat(l, now, operator, code, supply).value)
  {
    hide Sum, ProposalsInv, BallotsInv;
    var w, l', r := l.world, ClaimSeat(l, now, operator, code, supply).value, l.regions[code];
    var bond := l'.regions[code].collateral;
    if operator != r.owner {
      DebitHeld(w.xcav, operator, bond);
      CreditHeld(Debit(w.xcav, operator, bond).value, r.owner, r.collateral);
    } else if bond > r.collateral {
      DebitHeld(w.xcav, operator, bond - r.collateral);
    } else {
      CreditHeld(w.xcav, operator, r.collateral - bond);
    }
    PutRegion(l.regions, code, l'.regions[code]);
    LaterBallots(w.nextProposal, l.clock, now, l.proposals, ExpiryOf, l.ballots);
  }

  lemma ResignKeeps(l: Ledger, now: i64, operator: Key, code: u16)
    requires Inv(l) && l.clock <= now && Resign(l, now, operator, code).Ok?
    ensures Keeps(l, Resign(l, now, operator, code).value)
  {
    hide Sum, ProposalsInv, BallotsInv;
    var l' := Resign(l, now, operator, code).value;
    PutRegion(l.regions, code, l'.regions[code]);
    LaterBallots(l.world.nextProposal, l.clock, now, l.proposals, ExpiryOf, l.ballots);
  }

  lemma UpdateConfigKeeps(l: Ledger, authority: Key, c: RegionsConfig)
    requires Inv(l) && UpdateConfig(l, authority, c).Ok?
    ensures Keeps(l, UpdateConfig(l, authority, c).value)
  {
    hide Sum, RegionsInv, ProposalsInv, BallotsInv;
  }

  lemma UpdateAuthorityKeeps(l: Ledger, authority: Key, successor: Key)
    requires Inv(l) && UpdateAuthority(l, authority, successor).Ok?
    ensures Keeps(l, UpdateAuthority(l, authority, successor).value)
  {
    hide Sum, RegionsInv, ProposalsInv, BallotsInv;
  }

  lemma SetOperatorKeeps(l: Ledger, k: Key, held: bool)
    requires Inv(l)
    ensures Keeps(l, SetOperator(l, k, held).value)
  {
    hide Sum, RegionsInv, ProposalsInv, BallotsInv;
  }

  lemma TransferXcavKeeps(l: Ledger, from: Key, to: Key, amount: u64)
    requires Inv(l) && TransferXcav(l, from, to, amount).Ok?
    ensures Keeps(l, TransferXcav(l, from, to, amount).value)
  {
    hide Sum, RegionsInv, ProposalsInv, BallotsInv;
    DebitHeld(l.world.xcav, from, amount);
    CreditHeld(Debit(l.world.xcav, from, amount).value, to, amount);
  }

  lemma DonateXcavKeeps(l: Ledger, from: Key, amount: u64)
    requires Inv(l) && DonateXcav(l, from, amount).Ok?
    ensures Keeps(l, DonateXcav(l, from, amount).value)
  {
    hide Sum, RegionsInv, ProposalsInv, BallotsInv;
    DebitHeld(l.world.xcav, from, amount);
  }
}
