/**
 * Votes of the regions program over whole runs: a tally is frozen once voting is over, each voter gets back exactly
 * what they staked last, and exactly when a vote can be counted.
 */
module RegionsVotes {
  import opened Machine
  import opened Sums
  import opened Wallets
  import opened Voting
  import opened RegionsState
  import opened RegionsLedger
  import opened RegionsRuns
  import Proofs = RegionsProofs

  // ----- one step -----

  /** The call is this voter voting on the proposal that its region is on its way with. */
  ghost predicate VotesBy(l: Ledger, c: Call, k: (nat, Key)) {
    c.CastVote? && c.voter == k.1 && c.code in l.states && l.states[c.code].proposalId == k.0
  }

  /** A ballot changes only by its voter voting while voting is open, or unlocking when it is over. */
  ghost predicate BallotMove(l: Ledger, l': Ledger, tx: Tx, k: (nat, Key)) {
    || (k !in l.ballots && k !in l'.ballots && !VotesBy(l, tx.call, k))
    || (k in l.ballots && k in l'.ballots && l'.ballots[k] == l.ballots[k] && !VotesBy(l, tx.call, k))
    || (VotesBy(l, tx.call, k) && k.0 in l.proposals && tx.now < l.proposals[k.0].expiry
        && k in l'.ballots && l'.ballots[k] == Ballot(tx.call.vote, tx.call.amount, l.proposals[k.0].expiry, true))
    || (tx.call == Unlock(k.1, k.0) && k in l.ballots && l.ballots[k].locked && tx.now >= l.ballots[k].expiry
        && k in l'.ballots && l'.ballots[k] == l.ballots[k].(locked := false)
        && Balance(l'.world.xcav, k.1) == Balance(l.world.xcav, k.1) + l.ballots[k].power)
  }

  /** What one step of a run does to one ballot. */
  lemma StepMovesBallot(l: Ledger, tx: Tx, k: (nat, Key))
    requires Step(l, tx).Ok?
    ensures BallotMove(l, Step(l, tx).value, tx, k)
  {
    hide Sum, VotePasses, Debit;
    match tx.call {
      case Propose(_, _, _) =>
      case CastVote(_, _, _, _) =>
      case Finalize(_) =>
      case Unlock(_, _) =>
      case Clear(_) =>
      case Create(_, _) =>
      case Claim(_, _, _) =>
      case GiveNotice(_, _) =>
      case Configure(_, _) =>
      case Rotate(_, _) =>
      case Grant(_, _) =>
      case Transfer(_, _, _) =>
      case Donate(_, _) =>
    }
  }

  // ----- a closed vote stays as it is -----

  ghost predicate Closed(l: Ledger, pid: nat, now: int) {
    pid < l.world.nextProposal && (pid in l.proposals ==> l.proposals[pid].expiry <= now)
  }

  lemma ClosedStep(l: Ledger, tx: Tx, pid: nat)
    requires Inv(l) && Closed(l, pid, tx.now) && Step(l, tx).Ok?
    ensures Closed(Step(l, tx).value, pid, tx.now)
    ensures forall v :: Step(l, tx).value.Tally(pid, v) == l.Tally(pid, v)
  {
    hide Sum, VotePasses, Debit, Credit, Pay, RegionsInv, BallotsInv;
    match tx.call {
      case Propose(_, _, _) =>
      case CastVote(voter, code, vote, amount) =>
        var k := (l.states[code].proposalId, voter);
        PutBallot(l.ballots, k, Ballot(vote, amount, l.proposals[k.0].expiry, true));
      case Finalize(_) =>
      case Unlock(voter, p) => PutBallot(l.ballots, (p, voter), l.ballots[(p, voter)].(locked := false));
      case Clear(_) =>
      case Create(_, _) =>
      case Claim(_, _, _) =>
      case GiveNotice(_, _) =>
      case Configure(_, _) =>
      case Rotate(_, _) =>
      case Grant(_, _) =>
      case Transfer(_, _, _) =>
      case Donate(_, _) =>
    }
  }

  /** Once voting is over the tally is frozen, although voters take their stakes back before it is counted. */
  lemma {:induction false} TallyFrozen(l: Ledger, txs: seq<Tx>, pid: nat)
    requires Inv(l) && Chronological(l.clock, txs) && Closed(l, pid, l.clock)
    ensures forall v :: Run(l, txs).Tally(pid, v) == l.Tally(pid, v)
    ensures Closed(Run(l, txs), pid, if txs == [] then l.clock else txs[|txs| - 1].now)
    decreases |txs|
  {
    hide Step, Inv, Sum, Ledger.Tally, Ledger.XcavTotal;
    if txs != [] {
      var n := |txs| - 1;
      ChronologicalPrefix(l.clock, txs, n);
      TallyFrozen(l, txs[..n], pid);
      AlongRun(l, txs, n);
      assert n > 0 ==> txs[..n][n - 1] == txs[n - 1];
      if Step(Run(l, txs[..n]), txs[n]).Ok? {
        ClosedStep(Run(l, txs[..n]), txs[n], pid);
      }
    }
  }

  /** While voting is open every vote that counts is a locked record: the tallies are sums over live records. */
  lemma OpenTally(l: Ledger, pid: nat)
    requires Inv(l) && pid in l.proposals && l.clock < l.proposals[pid].expiry
    ensures forall k :: k in l.ballots && k.0 == pid ==> l.ballots[k].locked
    ensures l.Tally(pid, Yes) + l.Tally(pid, No) + l.Tally(pid, Abstain) <= l.VaultOwed()
  {
    hide Sum, RegionsInv, ProposalsInv, BallotsInv, Ledger.Tally, Ledger.XcavTotal;
    Proofs.TallyFits(l, pid);
    OpenVotesAreLocked(l.world.nextProposal, l.clock, l.proposals, ExpiryOf, l.ballots, pid);
    forall k | k in l.ballots && k.0 == pid
      ensures l.ballots[k].locked
    {
      Proofs.OpenVote(l, k);
    }
  }

  // ----- a voter gets back the last stake -----

  /** The j-th step is the voter voting on the proposal. */
  ghost predicate VotedAt(l: Ledger, txs: seq<Tx>, j: nat, k: (nat, Key))
    requires j < |txs|
  {
    var before := Run(l, txs[..j]);
    Step(before, txs[j]).Ok? && VotesBy(before, txs[j].call, k)
  }

  /** The j-th step is the voter's last vote in the run, and it cast this ballot. */
  ghost predicate LastVote(l: Ledger, txs: seq<Tx>, j: nat, k: (nat, Key), b: Ballot)
    requires j < |txs|
  {
    && VotedAt(l, txs, j, k)
    && txs[j].call.vote == b.vote && txs[j].call.amount == b.power
    && forall i: nat :: j < i < |txs| ==> !VotedAt(l, txs, i, k)
  }

  /** Last vote wins: the ballot on record is the one cast last. */
  lemma {:induction false} LastVoteStands(l: Ledger, txs: seq<Tx>, k: (nat, Key))
    requires Inv(l) && Chronological(l.clock, txs) && k !in l.ballots
    ensures k in Run(l, txs).ballots ==> exists j: nat :: j < |txs| && LastVote(l, txs, j, k, Run(l, txs).ballots[k])
    ensures k !in Run(l, txs).ballots ==> forall i: nat :: i < |txs| ==> !VotedAt(l, txs, i, k)
    decreases |txs|
  {
    hide Step, Inv, Sum;
    if txs != [] {
      var n := |txs| - 1;
      ChronologicalPrefix(l.clock, txs, n);
      LastVoteStands(l, txs[..n], k);
      AlongRun(l, txs, n);
      assert txs[..n + 1] == txs;
      forall i: nat | i < n
        ensures VotedAt(l, txs[..n], i, k) == VotedAt(l, txs, i, k)
      {
        assert txs[..n][..i] == txs[..i];
      }
      var before, after := Run(l, txs[..n]), Run(l, txs);
      if Step(before, txs[n]).Ok? {
        StepMovesBallot(before, txs[n], k);
      }
      if VotedAt(l, txs, n, k) {
        assert LastVote(l, txs, n, k, after.ballots[k]);
      } else if k in before.ballots {
        var j: nat :| j < n && LastVote(l, txs[..n], j, k, before.ballots[k]);
        assert after.ballots[k].vote == before.ballots[k].vote && after.ballots[k].power == before.ballots[k].power;
        assert txs[..n][j] == txs[j];
        assert LastVote(l, txs, j, k, after.ballots[k]);
      }
    }
  }

  /** Unlocking pays the voter exactly the stake of their last vote, whatever they staked before. */
  lemma VoterRecovers(l: Ledger, txs: seq<Tx>, i: nat, k: (nat, Key))
    requires Inv(l) && Chronological(l.clock, txs) && k !in l.ballots && i < |txs|
    requires Step(Run(l, txs[..i]), txs[i]).Ok? && txs[i].call == Unlock(k.1, k.0)
    ensures k in Run(l, txs[..i]).ballots
    ensures exists j: nat :: j < i && LastVote(l, txs[..i], j, k, Run(l, txs[..i]).ballots[k])
    ensures Balance(Run(l, txs[..i + 1]).world.xcav, k.1)
            == Balance(Run(l, txs[..i]).world.xcav, k.1) + Run(l, txs[..i]).ballots[k].power
  {
    hide Inv, Sum, Pay, Apply, Step, LastVote, VotesBy;
    ChronologicalPrefix(l.clock, txs, i);
    AlongRun(l, txs, i);
    UnlockPays(Run(l, txs[..i]), txs[i], k);
    LastVoteStands(l, txs[..i], k);
  }

  lemma UnlockPays(l: Ledger, tx: Tx, k: (nat, Key))
    requires Step(l, tx).Ok? && tx.call == Unlock(k.1, k.0)
    ensures k in l.ballots && Balance(Apply(l, tx).world.xcav, k.1) == Balance(l.world.xcav, k.1) + l.ballots[k].power
  {
    hide Sum;
  }

  // ----- when a vote can be counted -----

  /** The last votes cast reach the quorum and their share of Yes and No. */
  ghost predicate Passes(l: Ledger, pid: nat) {
    var yes, no, c := l.Tally(pid, Yes), l.Tally(pid, No), l.world.config;
    yes >= c.quorum && yes * 10000 >= (yes + no) * c.thresholdBps
  }

  /**
   * An ended vote can be counted exactly when, if it passes, the deadline for creating the region still fits in a
   * time. It keeps the bond for the region if it passes and returns it otherwise, and nothing else can go wrong.
   */
  lemma VoteDecides(l: Ledger, now: i64, code: u16)
    requires Inv(l)
    ensures code in l.states && l.states[code].status.Proposing? ==> l.states[code].proposalId in l.proposals
    ensures FinalizeRegion(l, now, code).Ok? <==>
              && code in l.states && l.states[code].status.Proposing?
              && now >= l.proposals[l.states[code].proposalId].expiry
              && (Passes(l, l.states[code].proposalId) ==> now + l.world.config.ownerChangePeriod <= I64_MAX)
    ensures FinalizeRegion(l, now, code).Ok? ==>
              var l', s := FinalizeRegion(l, now, code).value, l.states[code];
              && code in l'.states && s.proposalId !in l'.proposals
              && if Passes(l, s.proposalId)
                 then l'.states[code] == s.(status := Passed, claimDeadline := now + l.world.config.ownerChangePeriod)
                      && l'.world.xcav == l.world.xcav
                 else l'.states[code] == s.(status := Rejected)
                      && l'.world.xcav == Credit(l.world.xcav, s.proposer, s.deposit)
  {
    hide Sum, Inv, Credit, Ledger.Tally;
    Proofs.ProposalOf(l, code);
    ConfigAt(l);
  }

  lemma ConfigAt(l: Ledger)
    requires Inv(l)
    ensures l.world.config.Valid()
  {
    hide Sum, RegionsInv, ProposalsInv, BallotsInv;
  }

  /** No configuration is set in the run. */
  predicate NeverConfigured(txs: seq<Tx>) {
    forall i :: 0 <= i < |txs| ==> !txs[i].call.Configure?
  }

  lemma StuckStep(l: Ledger, tx: Tx, code: u16)
    requires Inv(l) && code in l.states && l.states[code].status.Proposing? && !tx.call.Configure?
    requires Passes(l, l.states[code].proposalId) && tx.now + l.world.config.ownerChangePeriod > I64_MAX
    ensures code in Apply(l, tx).states && Apply(l, tx).states[code] == l.states[code]
    ensures Apply(l, tx).world.config == l.world.config
  {
    hide Sum, Inv, VotePasses, Passes, Debit, Credit, Pay;
    VoteDecides(l, tx.now, code);
    match tx.call {
      case Propose(_, _, _) =>
      case CastVote(_, _, _, _) =>
      case Finalize(_) =>
      case Unlock(_, _) =>
      case Clear(_) =>
      case Create(_, _) =>
      case Claim(_, _, _) =>
      case GiveNotice(_, _) =>
      case Configure(_, _) =>
      case Rotate(_, _) =>
      case Grant(_, _) =>
      case Transfer(_, _, _) =>
      case Donate(_, _) =>
    }
  }

  /**
   * A passing vote that is too late to be counted stays so, with the proposer's bond in it, for as long as the
   * configuration is not changed.
   */
  lemma {:induction false} PassingVoteStuck(l: Ledger, txs: seq<Tx>, code: u16)
    requires Inv(l) && Chronological(l.clock, txs) && NeverConfigured(txs)
    requires code in l.states && l.states[code].status.Proposing?
    requires Closed(l, l.states[code].proposalId, l.clock) && Passes(l, l.states[code].proposalId)
    requires l.clock + l.world.config.ownerChangePeriod > I64_MAX
    ensures code in Run(l, txs).states && Run(l, txs).states[code] == l.states[code]
    ensures Run(l, txs).world.config == l.world.config
    decreases |txs|
  {
    hide Step, Inv, Sum, Ledger.Tally, Ledger.XcavTotal, Apply;
    if txs != [] {
      var n := |txs| - 1;
      ChronologicalPrefix(l.clock, txs, n);
      PassingVoteStuck(l, txs[..n], code);
      AlongRun(l, txs, n);
      assert txs[..n + 1] == txs;
      TallyFrozen(l, txs[..n], l.states[code].proposalId);
      StuckStep(Run(l, txs[..n]), txs[n], code);
    }
  }

  /** And the authority can bring it about: some valid configuration keeps a passing vote from being counted. */
  lemma SomePeriodBlocks(l: Ledger, now: i64, code: u16)
    requires Inv(l) && code in l.states && l.states[code].status.Proposing?
    requires Passes(l, l.states[code].proposalId) && now > 0
    ensures exists c: RegionsConfig :: c.Valid() && UpdateConfig(l, l.world.authority, c).Ok?
                                      && FinalizeRegion(UpdateConfig(l, l.world.authority, c).value, now, code).Err?
  {
    hide Sum, Inv;
    ConfigAt(l);
    var c := l.world.config.(ownerChangePeriod := I64_MAX);
    var l' := UpdateConfig(l, l.world.authority, c).value;
    assert l'.Tally(l.states[code].proposalId, Yes) == l.Tally(l.states[code].proposalId, Yes)
        && l'.Tally(l.states[code].proposalId, No) == l.Tally(l.states[code].proposalId, No);
    Proofs.UpdateConfigKeeps(l, l.world.authority, c);
    KeepsInv(l, l');
    VoteDecides(l', now, code);
  }

  lemma KeepsInv(l: Ledger, l': Ledger)
    requires Keeps(l, l')
    ensures Inv(l')
  {
    hide Inv, Ledger.XcavTotal;
  }
}
