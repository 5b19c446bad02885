/**
 * The regions program: one object holding every account, and one method per instruction, each committed only at
 * the end. An `assert` of a bound stands for a check the program makes that is proved never to fail.
 */
module RegionsProgram {
  import opened Machine
  import opened Sums
  import opened Wallets
  import opened Voting
  import opened RegionsState
  import L = RegionsLedger
  import opened RegionsProofs

  datatype RegionAccounts = RegionAccounts(
    vault: nat, regions: map<u16, Region>, states: map<u16, RegionState>,
    proposals: map<nat, RegionProposalAccount>, votes: Votes)

  ghost predicate ProposalsMatch(accounts: map<nat, RegionProposalAccount>, ps: map<nat, RegionProposal>,
                                 ballots: Ballots) {
    && accounts.Keys == ps.Keys
    && forall pid :: pid in ps ==> accounts[pid].core == ps[pid] && TalliesMatch(accounts[pid].tallies, pid, ballots)
  }

  /** The accounts store exactly what the ledger says: its records, and the right number in each tally and the vault. */
  ghost predicate Stored(w: RegionsWorld, a: RegionAccounts, l: L.Ledger) {
    && L.Inv(l)
    && w == l.world && a.regions == l.regions && a.states == l.states
    && ProposalsMatch(a.proposals, l.proposals, l.ballots)
    && VotesMatch(a.votes, l.ballots)
    && a.vault == l.VaultOwed() + l.surplus
  }

  // ----- how the tallies move -----

  lemma ProposalStored(accounts: map<nat, RegionProposalAccount>, ps: map<nat, RegionProposal>, ballots: Ballots,
                       pid: nat)
    requires ProposalsMatch(accounts, ps, ballots)
    ensures pid in accounts <==> pid in ps
    ensures pid in ps ==> accounts[pid].core == ps[pid] && TalliesMatch(accounts[pid].tallies, pid, ballots)
  {
    hide Sum;
  }

  lemma OpenMatch(accounts: map<nat, RegionProposalAccount>, next: nat, clock: int, ps: map<nat, RegionProposal>,
                  ballots: Ballots, p: RegionProposal)
    requires ProposalsMatch(accounts, ps, ballots) && BallotsInv(next, clock, ps, ExpiryOf, ballots)
    ensures ProposalsMatch(accounts[next := RegionProposalAccount(p, Tallies(0, 0, 0))], ps[next := p], ballots)
  {
    hide Sum;
    NothingCastYet(next, clock, ps, ExpiryOf, ballots);
  }

  lemma CloseMatch(accounts: map<nat, RegionProposalAccount>, ps: map<nat, RegionProposal>, ballots: Ballots, pid: nat)
    requires ProposalsMatch(accounts, ps, ballots)
    ensures ProposalsMatch(accounts - {pid}, ps - {pid}, ballots)
  {
    hide Sum;
  }

  lemma CastMatch(accounts: map<nat, RegionProposalAccount>, ps: map<nat, RegionProposal>, ballots: Ballots,
                  k: (nat, Key), b: Ballot, a: RegionProposalAccount)
    requires ProposalsMatch(accounts, ps, ballots) && k.0 in ps
    requires a.core == ps[k.0] && TalliesMatch(a.tallies, k.0, ballots[k := b])
    ensures ProposalsMatch(accounts[k.0 := a], ps, ballots[k := b])
  {
    hide Sum;
    PutBallot(ballots, k, b);
  }

  lemma UnlockMatch(accounts: map<nat, RegionProposalAccount>, ps: map<nat, RegionProposal>, ballots: Ballots,
                    k: (nat, Key))
    requires ProposalsMatch(accounts, ps, ballots) && k in ballots
    ensures ProposalsMatch(accounts, ps, ballots[k := ballots[k].(locked := false)])
  {
    hide Sum;
    PutBallot(ballots, k, ballots[k].(locked := false));
  }

  /** The instruction succeeds exactly when the ledger's does, and then does the same to the records. */
  ghost predicate Follows(r: Result<()>, before: L.Ledger, after: L.Ledger, step: Result<L.Ledger>) {
    r.Ok? == step.Ok? && after == (if step.Ok? then step.value else before)
  }

  class Regions {
    var world: RegionsWorld
    var accounts: RegionAccounts
    ghost var ledger: L.Ledger

    ghost predicate Valid()
      reads this
    {
      Stored(world, accounts, ledger)
    }

    /** A program set up under a valid configuration, with no regions yet and all XCAV in wallets. */
    constructor (w: RegionsWorld)
      requires w.config.Valid() && w.nextProposal == 0 && Sum(w.xcav, Held()) <= U64_MAX
      ensures Valid() && world == w
      ensures ledger == L.Ledger(w, I64_MIN, map[], map[], map[], map[], 0)
    {
      world := w;
      accounts := RegionAccounts(0, map[], map[], map[], map[]);
      ledger := L.Ledger(w, I64_MIN, map[], map[], map[], map[], 0);
    }

    method ProposeRegion(now: i64, proposer: Key, code: u16, supply: u64) returns (r: Result<()>)
      requires Valid() && ledger.clock <= now
      modifies this
      ensures Valid()
      ensures Follows(r, old(ledger), ledger, L.ProposeRegion(old(ledger), now, proposer, code, supply))
    {
      hide Sum, L.RegionsInv, L.ProposalsInv, BallotsInv, L.Ledger.VaultOwed, ProposalsMatch, VotesMatch;
      ghost var l := ledger;
      var w, a := world, accounts;
      :- Need(proposer in w.operators && code !in a.regions && code !in a.states);
      :- Need(IsRegionCode(code));
      var pid := w.nextProposal;
      var deposit :- OperatorBond(supply);
      var xcav :- Debit(w.xcav, proposer, deposit);
      var next :- CheckedAdd(pid, 1, U64_MAX);
      var p := RegionProposal(proposer, code, Clamp(now + w.config.votingPeriod));

      ProposeRegionKeeps(l, now, proposer, code, supply);
      FreshProposal(l);
      DebitHeld(w.xcav, proposer, deposit);
      OpenMatch(a.proposals, pid, l.clock, l.proposals, l.ballots, p);

      w := w.(xcav := xcav, nextProposal := next);
      a := a.(vault := a.vault + deposit, proposals := a.proposals[pid := RegionProposalAccount(p, Tallies(0, 0, 0))],
              states := a.states[code := RegionState(Proposing, pid, proposer, deposit, 0)]);
      world, accounts, ledger := w, a, L.ProposeRegion(l, now, proposer, code, supply).value;
      return Ok(());
    }

    method VoteOnRegion(now: i64, voter: Key, code: u16, vote: Vote, amount: u64) returns (r: Result<()>)
      requires Valid() && ledger.clock <= now
      modifies this
      ensures Valid()
      ensures Follows(r, old(ledger), ledger, L.VoteOnRegion(old(ledger), now, voter, code, vote, amount))
    {
      hide Sum, L.Inv, L.Ledger.VaultOwed, ProposalsMatch, VotesMatch, Tallies.Add, Tallies.Sub;
      ghost var l := ledger;
      var w, a := world, accounts;
      :- Need(amount >= w.config.minimumVotingAmount && code in a.states);
      var pid := a.states[code].proposalId;
      var k := (pid, voter);
      ProposalStored(a.proposals, l.proposals, l.ballots, pid);
      VoteStored(a.votes, l.ballots, k);
      OpenVote(l, k);
      BallotStaked(l, k);
      :- Need(pid in a.proposals);
      var p, expiry := a.proposals[pid], a.proposals[pid].core.expiry;
      :- Need(now < expiry);
      // A prior vote is undone and refunded before the new one is locked.
      var vault, wallets := a.vault, w.xcav;
      if k in a.votes {
        p := p.(tallies := p.tallies.Sub(a.votes[k].vote, a.votes[k].power));
        vault, wallets := vault - a.votes[k].power, Pay(wallets, voter, a.votes[k].power);
        CreditHeld(w.xcav, voter, a.votes[k].power);
      }
      var xcav :- Debit(wallets, voter, amount);

      ghost var l' := L.VoteOnRegion(l, now, voter, code, vote, amount).value;
      ghost var b := Ballot(vote, amount, expiry, true);
      VoteOnRegionKeeps(l, now, voter, code, vote, amount);
      TallyFits(l', pid);
      VoteRecounted(a.proposals[pid].tallies, l.ballots, k, b);
      assert p.tallies.Add(vote, amount).Ok?;
      p := p.(tallies := p.tallies.Add(vote, amount).value);
      DebitHeld(wallets, voter, amount);
      CastMatch(a.proposals, l.proposals, l.ballots, k, b, p);
      CastVotesMatch(a.votes, l.ballots, k, b);

      w := w.(xcav := xcav);
      a := a.(vault := vault + amount, proposals := a.proposals[pid := p],
              votes := a.votes[k := VoteRecord(vote, amount, expiry)]);
      world, accounts, ledger := w, a, l';
      return Ok(());
    }

    method FinalizeRegion(now: i64, code: u16) returns (r: Result<()>)
      requires Valid() && ledger.clock <= now
      modifies this
      ensures Valid()
      ensures Follows(r, old(ledger), ledger, L.FinalizeRegion(old(ledger), now, code))
    {
      hide Sum, L.Inv, L.Ledger.VaultOwed, ProposalsMatch, VotesMatch, VotePasses, Balance, Credit;
      ghost var l := ledger;
      var w, a, c := world, accounts, world.config;
      ProposalOf(l, code);
      RegionStaked(l, code);
      :- Need(code in a.states && a.states[code].status.Proposing?);
      var s := a.states[code];
      ProposalStored(a.proposals, l.proposals, l.ballots, s.proposalId);
      TallyFits(l, s.proposalId);
      :- Need(s.proposalId in a.proposals && now >= a.proposals[s.proposalId].core.expiry);
      var p := a.proposals[s.proposalId];
      assert p.tallies.yes + p.tallies.no <= U64_MAX;
      if VotePasses(p.tallies.yes, p.tallies.no, c.thresholdBps, c.quorum) {
        // The deposit stays in the vault, to become the region's collateral.
        var deadline :- AddTime(now, c.ownerChangePeriod);
        s := s.(status := Passed, claimDeadline := deadline);
      } else {
        CreditHeld(w.xcav, p.core.proposer, s.deposit);
        w := w.(xcav := Credit(w.xcav, p.core.proposer, s.deposit));
        a := a.(vault := a.vault - s.deposit);
        s := s.(status := Rejected);
      }

      FinalizeRegionKeeps(l, now, code);
      CloseMatch(a.proposals, l.proposals, l.ballots, s.proposalId);

      a := a.(states := a.states[code := s], proposals := a.proposals - {s.proposalId});
      world, accounts, ledger := w, a, L.FinalizeRegion(l, now, code).value;
      return Ok(());
    }

    method UnlockVote(now: i64, voter: Key, pid: nat) returns (r: Result<()>)
      requires Valid() && ledger.clock <= now
      modifies this
      ensures Valid()
      ensures Follows(r, old(ledger), ledger, L.UnlockVote(old(ledger), now, voter, pid))
    {
      hide Sum, L.Inv, L.Ledger.VaultOwed, ProposalsMatch, VotesMatch;
      ghost var l := ledger;
      var w, a, k := world, accounts, (pid, voter);
      VoteStored(a.votes, l.ballots, k);
      BallotStaked(l, k);
      :- Need(k in a.votes);
      var v := a.votes[k];
      :- Need(now >= v.expiry);

      UnlockVoteKeeps(l, now, voter, pid);
      CreditHeld(w.xcav, voter, v.power);
      UnlockMatch(a.proposals, l.proposals, l.ballots, k);
      UnlockVotesMatch(a.votes, l.ballots, k);

      w := w.(xcav := Pay(w.xcav, voter, v.power));
      a := a.(vault := a.vault - v.power, votes := a.votes - {k});
      world, accounts, ledger := w, a, L.UnlockVote(l, now, voter, pid).value;
      return Ok(());
    }

    method ClearRegion(now: i64, code: u16) returns (r: Result<()>)
      requires Valid() && ledger.clock <= now
      modifies this
      ensures Valid()
      ensures Follows(r, old(ledger), ledger, L.ClearRegion(old(ledger), now, code))
    {
      hide Sum, L.Inv, L.Ledger.VaultOwed, ProposalsMatch, VotesMatch;
      ghost var l := ledger;
      var w, a := world, accounts;
      RegionStaked(l, code);
      :- Need(code in a.states);
      var s := a.states[code];
      :- Need(s.status.Rejected? || (s.status.Passed? && now >= s.claimDeadline));
      if s.status.Passed? {
        CreditHeld(w.xcav, s.proposer, s.deposit);
        w := w.(xcav := Credit(w.xcav, s.proposer, s.deposit));
        a := a.(vault := a.vault - s.deposit);
      }

      ClearRegionKeeps(l, now, code);

      a := a.(states := a.states - {code});
      world, accounts, ledger := w, a, L.ClearRegion(l, now, code).value;
      return Ok(());
    }

    method CreateRegion(now: i64, creator: Key, code: u16) returns (r: Result<()>)
      requires Valid() && ledger.clock <= now
      modifies this
      ensures Valid()
      ensures Follows(r, old(ledger), ledger, L.CreateRegion(old(ledger), now, creator, code))
    {
      hide Sum, L.Inv, L.Ledger.VaultOwed, ProposalsMatch, VotesMatch;
      ghost var l := ledger;
      var w, a := world, accounts;
      :- Need(creator in w.operators && code in a.states && code !in a.regions);
      var s := a.states[code];
      :- Need(s.status.Passed?);
      :- Need(s.proposer == creator);
      :- Need(now < s.claimDeadline);
      var next :- AddTime(now, w.config.ownerChangePeriod);

      CreateRegionKeeps(l, now, creator, code);

      // The deposit is already in the vault; it becomes the collateral.
      a := a.(regions := a.regions[code := Region(creator, s.deposit, next)], states := a.states - {code});
      accounts, ledger := a, L.CreateRegion(l, now, creator, code).value;
      return Ok(());
    }

    method ClaimSeat(now: i64, operator: Key, code: u16, supply: u64) returns (r: Result<()>)
      requires Valid() && ledger.clock <= now
      modifies this
      ensures Valid()
      ensures Follows(r, old(ledger), ledger, L.ClaimSeat(old(ledger), now, operator, code, supply))
    {
      hide Sum, L.Inv, L.Ledger.VaultOwed, ProposalsMatch, VotesMatch;
      ghost var l := ledger;
      var w, a := world, accounts;
      RegionStaked(l, code);
      :- Need(operator in w.operators && code in a.regions);
      var region := a.regions[code];
      :- Need(region.nextOwnerChange < now);
      var bond :- OperatorBond(supply);
      var existing := region.collateral;
      if operator == region.owner {
        if bond > existing {
          var xcav :- Debit(w.xcav, operator, bond - existing);
          DebitHeld(w.xcav, operator, bond - existing);
          w, a := w.(xcav := xcav), a.(vault := a.vault + (bond - existing));
        } else if existing > bond {
          CreditHeld(w.xcav, operator, existing - bond);
          w, a := w.(xcav := Credit(w.xcav, operator, existing - bond)), a.(vault := a.vault - (existing - bond));
        }
      } else {
        var xcav :- Debit(w.xcav, operator, bond);
        DebitHeld(w.xcav, operator, bond);
        CreditHeld(xcav, region.owner, existing);
        w, a := w.(xcav := Credit(xcav, region.owner, existing)), a.(vault := a.vault + bond - existing);
      }
      var next :- AddTime(now, w.config.ownerChangePeriod);

      ClaimSeatKeeps(l, now, operator, code, supply);

      a := a.(regions := a.regions[code := Region(operator, bond, next)]);
      world, accounts, ledger := w, a, L.ClaimSeat(l, now, operator, code, supply).value;
      return Ok(());
    }

    method Resign(now: i64, operator: Key, code: u16) returns (r: Result<()>)
      requires Valid() && ledger.clock <= now
      modifies this
      ensures Valid()
      ensures Follows(r, old(ledger), ledger, L.Resign(old(ledger), now, operator, code))
    {
      hide Sum, L.Inv, L.Ledger.VaultOwed, ProposalsMatch, VotesMatch;
      ghost var l := ledger;
      var w, a := world, accounts;
      :- Need(operator in w.operators && code in a.regions && a.regions[code].owner == operator);
      var region := a.regions[code];
      var next :- AddTime(now, w.config.noticePeriod);
      // A notice only ever brings the change forward.
      :- Need(region.nextOwnerChange > next);

      ResignKeeps(l, now, operator, code);

      a := a.(regions := a.regions[code := region.(nextOwnerChange := next)]);
      accounts, ledger := a, L.Resign(l, now, operator, code).value;
      return Ok(());
    }

    method UpdateConfig(authority: Key, c: RegionsConfig) returns (r: Result<()>)
      requires Valid()
      modifies this
      ensures Valid()
      ensures Follows(r, old(ledger), ledger, L.UpdateConfig(old(ledger), authority, c))
    {
      hide Sum, L.Inv, L.Ledger.VaultOwed, ProposalsMatch, VotesMatch, RegionsConfig.Valid;
      ghost var l := ledger;
      :- Need(authority == world.authority);
      :- Need(c.Valid());
      UpdateConfigKeeps(l, authority, c);
      world, ledger := world.(config := c), L.UpdateConfig(l, authority, c).value;
      return Ok(());
    }

    method UpdateAuthority(authority: Key, successor: Key) returns (r: Result<()>)
      requires Valid()
      modifies this
      ensures Valid()
      ensures Follows(r, old(ledger), ledger, L.UpdateAuthority(old(ledger), authority, successor))
    {
      hide Sum, L.Inv, L.Ledger.VaultOwed, ProposalsMatch, VotesMatch;
      ghost var l := ledger;
      :- Need(authority == world.authority);
      :- Need(successor != NO_KEY);
      UpdateAuthorityKeeps(l, authority, successor);
      world, ledger := world.(authority := successor), L.UpdateAuthority(l, authority, successor).value;
      return Ok(());
    }

    method SetOperator(k: Key, held: bool) returns (r: Result<()>)
      requires Valid()
      modifies this
      ensures Valid()
      ensures Follows(r, old(ledger), ledger, L.SetOperator(old(ledger), k, held))
    {
      hide Sum, L.Inv, L.Ledger.VaultOwed, ProposalsMatch, VotesMatch;
      ghost var l := ledger;
      SetOperatorKeeps(l, k, held);
      world := world.(operators := if held then world.operators + {k} else world.operators - {k});
      ledger := L.SetOperator(l, k, held).value;
      return Ok(());
    }

    method TransferXcav(from: Key, to: Key, amount: u64) returns (r: Result<()>)
      requires Valid()
      modifies this
      ensures Valid()
      ensures Follows(r, old(ledger), ledger, L.TransferXcav(old(ledger), from, to, amount))
    {
      hide Sum, L.Inv, L.Ledger.VaultOwed, ProposalsMatch, VotesMatch;
      ghost var l := ledger;
      var xcav :- Debit(world.xcav, from, amount);
      TransferXcavKeeps(l, from, to, amount);
      DebitHeld(world.xcav, from, amount);
      CreditHeld(xcav, to, amount);
      world, ledger := world.(xcav := Credit(xcav, to, amount)), L.TransferXcav(l, from, to, amount).value;
      return Ok(());
    }

    method DonateXcav(from: Key, amount: u64) returns (r: Result<()>)
      requires Valid()
      modifies this
      ensures Valid()
      ensures Follows(r, old(ledger), ledger, L.DonateXcav(old(ledger), from, amount))
    {
      hide Sum, L.Inv, L.Ledger.VaultOwed, ProposalsMatch, VotesMatch;
      ghost var l := ledger;
      var xcav :- Debit(world.xcav, from, amount);
      DonateXcavKeeps(l, from, amount);
      DebitHeld(world.xcav, from, amount);
      world, accounts := world.(xcav := xcav), accounts.(vault := accounts.vault + amount);
      ledger := L.DonateXcav(l, from, amount).value;
      return Ok(());
    }
  }
}
