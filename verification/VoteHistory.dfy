/**
 * Votes over whole runs: once voting is over a tally never changes again, although voters take their stakes
 * back, and each voter gets back exactly what they staked last.
 */
module VoteHistory {
  import opened Machine
  import opened Pricing
  import opened Sums
  import opened Wallets
  import opened Voting
  import opened EducationState
  import opened EducationLedger
  import opened EducationRuns
  import opened GovernanceProofs
  import opened ProposalHistory

  // ----- one step -----

  predicate VotesBy(c: GovernanceCall, k: (nat, Key)) {
    c.VoteOnProposal? && c.pid == k.0 && c.voter == k.1
  }

  /** A ballot changes only by its voter voting while voting is open, or unlocking when it is over. */
  ghost predicate BallotMove(l: Ledger, l': Ledger, now: i64, c: GovernanceCall, k: (nat, Key)) {
    || (k !in l.ballots && k !in l'.ballots && !VotesBy(c, k))
    || (k in l.ballots && k in l'.ballots && l'.ballots[k] == l.ballots[k] && !VotesBy(c, k))
    || (VotesBy(c, k) && k.0 in l.proposals && now < l.proposals[k.0].expiry
        && k in l'.ballots && l'.ballots[k] == Ballot(c.vote, c.amount, l.proposals[k.0].expiry, true))
    || (c == UnlockVote(k.1, k.0) && k in l.ballots && l.ballots[k].locked && now >= l.ballots[k].expiry
        && k in l'.ballots && l'.ballots[k] == l.ballots[k].(locked := false)
        && Balance(l'.world.xcav, k.1) == Balance(l.world.xcav, k.1) + l.ballots[k].power)
  }

  lemma VotingMovesBallot(l: Ledger, now: i64, c: GovernanceCall, k: (nat, Key))
    requires GovernanceStep(l, now, c).Ok? && (c.VoteOnProposal? || c.UnlockVote?)
    ensures BallotMove(l, GovernanceStep(l, now, c).value, now, c, k)
    ensures forall pid, v :: (c.VoteOnProposal? ==> c.pid != pid) ==>
            GovernanceStep(l, now, c).value.Tally(pid, v) == l.Tally(pid, v)
    ensures c.VoteOnProposal? ==> c.pid in l.proposals && now < l.proposals[c.pid].expiry
  {
    hide Sum;
    match c {
      case VoteOnProposal(voter, pid, vote, amount) =>
        PutBallot(l.ballots, (pid, voter), Ballot(vote, amount, l.proposals[pid].expiry, true));
      case UnlockVote(voter, pid) =>
        PutBallot(l.ballots, (pid, voter), l.ballots[(pid, voter)].(locked := false));
    }
  }

  /** What one step of a run does to one ballot. */
  lemma StepMovesBallot(l: Ledger, tx: Tx, k: (nat, Key))
    ensures tx.call.Govern? && Step(l, tx).Ok? ==> BallotMove(l, Step(l, tx).value, tx.now, tx.call.governance, k)
    ensures tx.call.Deliver? || Step(l, tx).Err? ==> Apply(l, tx).ballots == l.ballots
  {
    hide DeliveryStep, GovernanceStep, Sum;
    if Step(l, tx).Ok? {
      match tx.call {
        case Deliver(c) => DeliveryFrame(l, tx.now, c);
        case Govern(c) =>
          if c.VoteOnProposal? || c.UnlockVote? {
            VotingMovesBallot(l, tx.now, c, k);
          } else {
            GovernanceFrame(l, tx.now, c);
          }
      }
    }
  }

  // ----- a closed vote stays as it is -----

  /** Voting on the proposal is over at this time, whether or not the proposal is still there. */
  ghost predicate Closed(l: Ledger, pid: nat, now: int) {
    pid < l.world.nextProposal && (pid in l.proposals ==> l.proposals[pid].expiry <= now)
  }

  lemma ClosedStep(l: Ledger, tx: Tx, pid: nat)
    requires Inv(l) && Closed(l, pid, tx.now)
    ensures Closed(Apply(l, tx), pid, tx.now)
    ensures forall v :: Apply(l, tx).Tally(pid, v) == l.Tally(pid, v)
  {
    hide DeliveryStep, GovernanceStep, Sum, Inv, Work, BondMove;
    StepMovesProposal(l, tx, pid);
    if Step(l, tx).Ok? {
      match tx.call {
        case Deliver(c) => DeliveryFrame(l, tx.now, c);
        case Govern(c) =>
          if c.VoteOnProposal? || c.UnlockVote? {
            VotingMovesBallot(l, tx.now, c, (0, 0));
          } else {
            GovernanceFrame(l, tx.now, c);
          }
      }
    }
  }

  /** Once voting is over the tally is frozen for good, even as voters take their stakes back. */
  lemma {:induction false} TallyFrozen(l: Ledger, txs: seq<Tx>, pid: nat)
    requires Inv(l) && Chronological(l.clock, txs) && Closed(l, pid, l.clock)
    ensures forall v :: Run(l, txs).Tally(pid, v) == l.Tally(pid, v)
    ensures Closed(Run(l, txs), pid, if txs == [] then l.clock else txs[|txs| - 1].now)
    decreases |txs|
  {
    hide Step, Inv, Sum, Apply, Ledger.Tally;
    if txs != [] {
      var n := |txs| - 1;
      ChronologicalPrefix(l.clock, txs, n);
      TallyFrozen(l, txs[..n], pid);
      AlongRun(l, txs, n);
      assert txs[..n + 1] == txs;
      assert n > 0 ==> txs[..n][n - 1] == txs[n - 1];
      ClosedStep(Run(l, txs[..n]), txs[n], pid);
    }
  }

  /** While voting is open every vote that counts is a locked record: the tallies are sums over live records. */
  lemma OpenTally(l: Ledger, pid: nat)
    requires Inv(l) && pid in l.proposals && l.clock < l.proposals[pid].expiry
    ensures forall k :: k in l.ballots && k.0 == pid ==> l.ballots[k].locked
    ensures l.Tally(pid, Yes) + l.Tally(pid, No) + l.Tally(pid, Abstain) <= l.VaultOwed()
  {
    hide Sum, Inv, Ledger.Tally;
    TallyFits(l, pid);
    OpenStakes(l, pid);
    forall k | k in l.ballots && k.0 == pid
      ensures l.ballots[k].locked
    {
      OpenVote(l, k);
    }
  }

  lemma OpenStakes(l: Ledger, pid: nat)
    requires Inv(l) && pid in l.proposals && l.clock < l.proposals[pid].expiry
    ensures Sum(l.ballots, CastOn(pid)) <= Sum(l.ballots, LockedPower())
  {
    hide Sum, PricePerToken, ModulesInv, SponsorshipsInv, BookingsInv, CancellationsInv, ProposalsInv, BallotsInv,
         GiftsInv;
    OpenVotesAreLocked(l.world.nextProposal, l.clock, l.proposals, ExpiryOf, l.ballots, pid);
  }

  // ----- a voter gets back the last stake -----

  /** The j-th step is the voter voting on the proposal. */
  ghost predicate VotedAt(l: Ledger, txs: seq<Tx>, j: nat, k: (nat, Key))
    requires j < |txs|
  {
    Step(Run(l, txs[..j]), txs[j]).Ok? && txs[j].call.Govern? && VotesBy(txs[j].call.governance, k)
  }

  /** The j-th step is the voter's last vote in the run, and it cast this ballot. */
  ghost predicate LastVote(l: Ledger, txs: seq<Tx>, j: nat, k: (nat, Key), b: Ballot)
    requires j < |txs|
  {
    && VotedAt(l, txs, j, k)
    && txs[j].call.governance.vote == b.vote && txs[j].call.governance.amount == b.power
    && forall i: nat :: j < i < |txs| ==> !VotedAt(l, txs, i, k)
  }

  /** Last vote wins: the ballot on record is the one cast last. */
  lemma {:induction false} LastVoteStands(l: Ledger, txs: seq<Tx>, k: (nat, Key))
    requires Inv(l) && Chronological(l.clock, txs) && k !in l.ballots
    ensures k in Run(l, txs).ballots ==> exists j: nat :: j < |txs| && LastVote(l, txs, j, k, Run(l, txs).ballots[k])
    ensures k !in Run(l, txs).ballots ==> forall i: nat :: i < |txs| ==> !VotedAt(l, txs, i, k)
    decreases |txs|
  {
    hide Step, Inv, Sum;
    if txs != [] {
      var n := |txs| - 1;
      ChronologicalPrefix(l.clock, txs, n);
      LastVoteStands(l, txs[..n], k);
      AlongRun(l, txs, n);
      assert txs[..n + 1] == txs;
      StepMovesBallot(Run(l, txs[..n]), txs[n], k);
      forall i: nat | i < n
        ensures VotedAt(l, txs[..n], i, k) == VotedAt(l, txs, i, k)
      {
        assert txs[..n][..i] == txs[..i];
      }
      var before, after := Run(l, txs[..n]), Run(l, txs);
      if VotedAt(l, txs, n, k) {
        assert LastVote(l, txs, n, k, after.ballots[k]);
      } else if k in before.ballots {
        var j: nat :| j < n && LastVote(l, txs[..n], j, k, before.ballots[k]);
        assert after.ballots[k].vote == before.ballots[k].vote && after.ballots[k].power == before.ballots[k].power;
        assert txs[..n][j] == txs[j];
        assert LastVote(l, txs, j, k, after.ballots[k]);
      }
    }
  }

  /** Unlocking pays the voter exactly the stake of their last vote, whatever they staked before. */
  lemma VoterRecovers(l: Ledger, txs: seq<Tx>, i: nat, k: (nat, Key))
    requires Inv(l) && Chronological(l.clock, txs) && k !in l.ballots && i < |txs|
    requires Step(Run(l, txs[..i]), txs[i]).Ok? && txs[i].call == Govern(UnlockVote(k.1, k.0))
    ensures k in Run(l, txs[..i]).ballots
    ensures exists j: nat :: j < i && LastVote(l, txs[..i], j, k, Run(l, txs[..i]).ballots[k])
    ensures Balance(Run(l, txs[..i + 1]).world.xcav, k.1)
            == Balance(Run(l, txs[..i]).world.xcav, k.1) + Run(l, txs[..i]).ballots[k].power
  {
    hide Inv, Sum, Pay, Apply;
    ChronologicalPrefix(l.clock, txs, i);
    AlongRun(l, txs, i);
    UnlockPays(Run(l, txs[..i]), txs[i], k);
    LastVoteStands(l, txs[..i], k);
  }

  lemma UnlockPays(l: Ledger, tx: Tx, k: (nat, Key))
    requires Step(l, tx).Ok? && tx.call == Govern(UnlockVote(k.1, k.0))
    ensures k in l.ballots && Balance(Apply(l, tx).world.xcav, k.1) == Balance(l.world.xcav, k.1) + l.ballots[k].power
  {
    hide Sum;
  }
}
