/**
 * The life of one proposal over whole runs: building it takes boundedly many steps between releases, its bond
 * has one of four fates, and its votes are counted as they were last cast.
 */
module ProposalHistory {
  import opened Machine
  import opened Pricing
  import opened Sums
  import opened Wallets
  import opened Voting
  import opened EducationState
  import opened EducationLedger
  import opened EducationRuns
  import opened GovernanceSteps
  import opened GovernanceProofs
  // ----- one step -----

  /**
   * How much can still happen to a proposal: free places on the ban list count most, then the attempts its
   * claimant has left, then how far the current attempt has come.
   */
  function Work(p: Proposal): nat
    requires |p.banned| <= MAX_BANNED
  {
    var free := MAX_BANNED - |p.banned|;
    match p.status
    case Voting => 6 * MAX_BANNED + 7
    case Claimable => 6 * free + 6
    case Claimed => 6 * free + (if p.failures == 0 then 5 else 3)
    case UnderReview => 6 * free + (if p.failures == 0 then 4 else 2)
    case Approved => 6 * free + 1
    case Rejected => 0
  }

  /** What was put to the vote never changes. */
  predicate SameOffer(p: Proposal, p': Proposal) {
    && p'.proposer == p.proposer && p'.role == p.role && p'.region == p.region && p'.expiry == p.expiry
    && p'.deposit == p.deposit && p'.amount == p.amount && p'.terms == p.terms
    && p'.asset == p.asset && p'.preAmount == p.preAmount && p'.prePrice == p.prePrice
  }

  /** Every change is progress, except that an abandoned reservation can be released. */
  ghost predicate Progress(now: i64, c: GovernanceCall, pid: nat, p: Proposal, p': Proposal) {
    && SameOffer(p, p')
    && p.banned <= p'.banned && |p'.banned| <= MAX_BANNED
    && (p' != p ==> Work(p') < Work(p) || (c == ReleaseClaim(pid) && Releasable(now, p) && p' == Released(p)))
    && (FailsTwice(c, pid, p) ==> |p'.banned| == |p.banned| + 1 || p'.status.Rejected?)
    && (p.status.Rejected? ==> p' == p)
    && (p.status.Approved? ==> p' == p || p'.status.Rejected?)
  }

  /** The call fails a review of the proposal. */
  predicate Fails(c: GovernanceCall, pid: nat) {
    c.ReviewProposal? && c.pid == pid && !c.passed
  }

  /**
   * Whoever has a proposal reserved afterwards had it before, and a failed review in between is counted; or they
   * reserved it just now, with today's module deposit as the bond and no failure counted.
   */
  ghost predicate ClaimantMove(l: Ledger, c: GovernanceCall, pid: nat, p': Proposal)
    requires p'.claimant.Some?
  {
    && pid in l.proposals
    && var p := l.proposals[pid];
      || (p.claimant == p'.claimant && p'.bond == p.bond
          && p'.failures == p.failures + (if Fails(c, pid) then 1 else 0))
      || (p.claimant.None? && c == ClaimProposal(p'.claimant.value, pid) && p'.failures == 0
          && p'.bond == l.world.config.moduleDeposit)
  }

  predicate Releasable(now: i64, p: Proposal) {
    p.status.Claimed? && now >= p.uploadDeadline
  }

  /** The call that fails the claimant's second attempt. */
  predicate FailsTwice(c: GovernanceCall, pid: nat, p: Proposal) {
    Fails(c, pid) && p.status.UnderReview? && p.failures > 0
  }

  /** A claimant's bond is slashed for one of three failings of theirs. */
  ghost predicate BondSlashed(l: Ledger, l': Ledger, now: i64, c: GovernanceCall, pid: nat, p: Proposal) {
    && l'.world.xcav == l.world.xcav && l'.world.treasury == l.world.treasury + p.bond
    && (|| (c == ReleaseClaim(pid) && Releasable(now, p))
        || FailsTwice(c, pid, p)
        || (c == ExpireProposal(pid) && p.status in {Claimed, Approved} && now >= p.buildDeadline
            && now >= p.uploadDeadline))
  }

  /** A bond is refunded when the build window ended while the claimant was waiting for a review. */
  ghost predicate BondRefunded(l: Ledger, l': Ledger, now: i64, c: GovernanceCall, pid: nat, p: Proposal) {
    && p.claimant.Some? && l'.world.treasury == l.world.treasury
    && l'.world.xcav == (if p.bond == 0 then l.world.xcav else Credit(l.world.xcav, p.claimant.value, p.bond))
    && c == ExpireProposal(pid) && p.status.UnderReview? && now >= p.buildDeadline
  }

  /** A bond becomes the deposit of the module its claimant mints. */
  ghost predicate BondBecomesDeposit(l: Ledger, l': Ledger, c: GovernanceCall, pid: nat, p: Proposal) {
    && l'.world.xcav == l.world.xcav && l'.world.treasury == l.world.treasury
    && p.status.Approved? && p.claimant.Some? && pid !in l'.proposals
    && l.world.nextModule in l'.modules
    && l'.modules[l.world.nextModule] == BuiltModule(p, p.claimant.value)
  }

  /** What happens to the bond of a claimed proposal in one step. */
  ghost predicate BondMove(l: Ledger, l': Ledger, now: i64, c: GovernanceCall, pid: nat, p: Proposal) {
    || (pid in l'.proposals && l'.proposals[pid].claimant == p.claimant && l'.proposals[pid].bond == p.bond)
    || BondSlashed(l, l', now, c, pid, p)
    || BondRefunded(l, l', now, c, pid, p)
    || BondBecomesDeposit(l, l', c, pid, p)
  }

  ghost predicate ProposalMove(l: Ledger, l': Ledger, now: i64, c: GovernanceCall, pid: nat) {
    && l'.world.nextProposal >= l.world.nextProposal
    && (pid in l.proposals && pid in l'.proposals ==> Progress(now, c, pid, l.proposals[pid], l'.proposals[pid]))
    && (pid in l.proposals && pid !in l'.proposals ==> l.proposals[pid].status in {Approved, Rejected})
    && (pid in l.proposals && l.proposals[pid].claimant.Some? ==> BondMove(l, l', now, c, pid, l.proposals[pid]))
    && (pid !in l.proposals && pid in l'.proposals ==> pid == l.world.nextProposal)
    && (pid in l'.proposals && l'.proposals[pid].claimant.Some? ==> ClaimantMove(l, c, pid, l'.proposals[pid]))
  }

  lemma ClaimingMovesProposal(l: Ledger, now: i64, c: GovernanceCall, pid: nat)
    requires GovernanceStep(l, now, c).Ok? && (c.FinalizeProposal? || c.ClaimProposal?)
    requires pid in l.proposals ==> ProposalShape(l.proposals[pid])
    ensures ProposalMove(l, GovernanceStep(l, now, c).value, now, c, pid)
  {
    hide Sum, Debit, Credit, VotePasses, Clamp;
    match c {
      case FinalizeProposal(_) =>
      case ClaimProposal(_, _) =>
    }
  }

  lemma BuildingMovesProposal(l: Ledger, now: i64, c: GovernanceCall, pid: nat)
    requires GovernanceStep(l, now, c).Ok? && (c.UploadProposal? || c.ReleaseClaim?)
    requires pid in l.proposals ==> ProposalShape(l.proposals[pid])
    ensures ProposalMove(l, GovernanceStep(l, now, c).value, now, c, pid)
  {
    hide Sum, Debit, Credit, Clamp;
    match c {
      case UploadProposal(_, _) =>
      case ReleaseClaim(_) =>
    }
  }

  lemma EndingMovesProposal(l: Ledger, now: i64, c: GovernanceCall, pid: nat)
    requires GovernanceStep(l, now, c).Ok? && (c.ReviewProposal? || c.ExpireProposal?)
    requires pid in l.proposals ==> ProposalShape(l.proposals[pid])
    ensures ProposalMove(l, GovernanceStep(l, now, c).value, now, c, pid)
  {
    hide Sum, Debit, Credit, Clamp, World.HasRole;
    match c {
      case ReviewProposal(_, _, _) =>
      case ExpireProposal(_) =>
    }
  }

  lemma OpeningMovesProposal(l: Ledger, now: i64, c: GovernanceCall, pid: nat)
    requires GovernanceStep(l, now, c).Ok? && (c.CreateProposal? || c.CreateSponsorProposal?)
    requires pid in l.proposals ==> ProposalShape(l.proposals[pid]) && pid < l.world.nextProposal
    ensures ProposalMove(l, GovernanceStep(l, now, c).value, now, c, pid)
  {
    hide Sum, Debit, Credit, PricePerToken;
    match c {
      case CreateProposal(_, _, _, _) =>
      case CreateSponsorProposal(_, _, _, _) =>
    }
  }

  lemma ClosingMovesProposal(l: Ledger, now: i64, c: GovernanceCall, pid: nat)
    requires GovernanceStep(l, now, c).Ok?
    requires c.MintProposed? || c.MintSponsored? || c.ReclaimPreSponsor? || c.ClearProposal?
    requires pid in l.proposals ==> ProposalShape(l.proposals[pid]) && pid < l.world.nextProposal
    ensures ProposalMove(l, GovernanceStep(l, now, c).value, now, c, pid)
  {
    hide Sum, Debit, Credit, BuiltModule, Work, World.HasRole;
    match c {
      case MintProposed(_, _) =>
      case MintSponsored(_, _) =>
      case ReclaimPreSponsor(_, _) =>
      case ClearProposal(_) =>
    }
  }

  /** What one step of a run does to one proposal, whatever the step. */
  lemma StepMovesProposal(l: Ledger, tx: Tx, pid: nat)
    requires Inv(l)
    ensures tx.call.Govern? && Step(l, tx).Ok? && !Quiet(tx.call.governance) ==>
              ProposalMove(l, Step(l, tx).value, tx.now, tx.call.governance, pid)
    ensures tx.call.Deliver? || Step(l, tx).Err? || Quiet(tx.call.governance) ==>
              Apply(l, tx).proposals == l.proposals && Apply(l, tx).world.nextProposal == l.world.nextProposal
  {
    hide DeliveryStep, GovernanceStep, Inv, Sum, PricePerToken, ProposalMove, ProposalShape;
    ProposalAt(l, pid);
    if Step(l, tx).Ok? {
      match tx.call {
        case Deliver(c) => DeliveryFrame(l, tx.now, c);
        case Govern(c) =>
          if Quiet(c) {
            GovernanceFrame(l, tx.now, c);
          } else if c.CreateProposal? || c.CreateSponsorProposal? {
            OpeningMovesProposal(l, tx.now, c, pid);
          } else if c.FinalizeProposal? || c.ClaimProposal? {
            ClaimingMovesProposal(l, tx.now, c, pid);
          } else if c.UploadProposal? || c.ReleaseClaim? {
            BuildingMovesProposal(l, tx.now, c, pid);
          } else if c.ReviewProposal? || c.ExpireProposal? {
            EndingMovesProposal(l, tx.now, c, pid);
          } else {
            ClosingMovesProposal(l, tx.now, c, pid);
          }
      }
    }
  }

  // ----- building ends -----

  /** How many steps of the run satisfied a condition when they were taken. */
  ghost function Count(l: Ledger, txs: seq<Tx>, p: (Ledger, Tx) -> bool): nat {
    if txs == [] then 0
    else
      var n := |txs| - 1;
      Count(l, txs[..n], p) + if p(Run(l, txs[..n]), txs[n]) then 1 else 0
  }

  ghost function Changing(pid: nat): (Ledger, Tx) -> bool {
    (l: Ledger, tx: Tx) =>
      pid in l.proposals && pid in Apply(l, tx).proposals && Apply(l, tx).proposals[pid] != l.proposals[pid]
  }

  ghost function Releasing(pid: nat): (Ledger, Tx) -> bool {
    (l: Ledger, tx: Tx) => tx.call == Govern(ReleaseClaim(pid)) && Step(l, tx).Ok?
  }

  ghost function FailingTwice(pid: nat): (Ledger, Tx) -> bool {
    (l: Ledger, tx: Tx) =>
      Step(l, tx).Ok? && tx.call.Govern? && pid in l.proposals && FailsTwice(tx.call.governance, pid, l.proposals[pid])
  }

  lemma BanListFits(l: Ledger, pid: nat)
    requires Inv(l)
    ensures pid in l.proposals ==> |l.proposals[pid].banned| <= MAX_BANNED
  {
    hide Inv, Sum, PricePerToken;
    ProposalAt(l, pid);
  }

  lemma ChangeIsProgress(l: Ledger, tx: Tx, pid: nat)
    requires Inv(l) && pid in l.proposals && pid in Apply(l, tx).proposals
    ensures var p, p' := l.proposals[pid], Apply(l, tx).proposals[pid];
            && |p.banned| <= |p'.banned| <= MAX_BANNED
            && (p' != p ==> if Releasing(pid)(l, tx) then Work(p') <= Work(p) + 3 else Work(p') < Work(p))
            && (FailingTwice(pid)(l, tx) ==> |p'.banned| == |p.banned| + 1 || p'.status.Rejected?)
            && (p.status.Rejected? ==> p' == p && !FailingTwice(pid)(l, tx))
  {
    hide Inv, Sum, DeliveryStep, GovernanceStep;
    BanListFits(l, pid);
    StepMovesProposal(l, tx, pid);
  }

  /** Ids are never used twice, so a proposal still there at the end was there all along. */
  lemma {:induction false} ProposalStays(l: Ledger, txs: seq<Tx>, pid: nat)
    requires Inv(l) && Chronological(l.clock, txs)
    ensures Run(l, txs).world.nextProposal >= l.world.nextProposal
    ensures pid < l.world.nextProposal && pid in Run(l, txs).proposals ==> pid in l.proposals
    ensures txs != [] && pid < l.world.nextProposal && pid in Run(l, txs).proposals ==>
            pid in Run(l, txs[..|txs| - 1]).proposals
    decreases |txs|
  {
    hide Step, Inv, Sum;
    if txs != [] {
      var n := |txs| - 1;
      ChronologicalPrefix(l.clock, txs, n);
      ProposalStays(l, txs[..n], pid);
      AlongRun(l, txs, n);
      assert txs[..n + 1] == txs;
      StepMovesProposal(Run(l, txs[..n]), txs[n], pid);
    }
  }

  /**
   * A proposal changes boundedly often: each change uses up work, a release of an abandoned claim gives back
   * at most three units, and no proposal ever has more than 55.
   */
  lemma {:induction false} BuildingEnds(l: Ledger, txs: seq<Tx>, pid: nat)
    requires Inv(l) && Chronological(l.clock, txs)
    requires pid in l.proposals && pid in Run(l, txs).proposals
    ensures |l.proposals[pid].banned| <= MAX_BANNED && |Run(l, txs).proposals[pid].banned| <= MAX_BANNED
    ensures Count(l, txs, Changing(pid)) + Work(Run(l, txs).proposals[pid])
            <= Work(l.proposals[pid]) + 4 * Count(l, txs, Releasing(pid))
    ensures Work(l.proposals[pid]) <= 55
    decreases |txs|
  {
    hide Step, Inv, Sum, Work;
    BanListFits(l, pid);
    WorkBound(l.proposals[pid]);
    if txs != [] {
      var n := |txs| - 1;
      ChronologicalPrefix(l.clock, txs, n);
      ProposalBelow(l, pid);
      ProposalStays(l, txs, pid);
      BuildingEnds(l, txs[..n], pid);
      AlongRun(l, txs, n);
      assert txs[..n + 1] == txs;
      ChangeIsProgress(Run(l, txs[..n]), txs[n], pid);
    }
  }

  lemma WorkBound(p: Proposal)
    requires |p.banned| <= MAX_BANNED
    ensures Work(p) <= 55
  {
  }

  lemma ProposalBelow(l: Ledger, pid: nat)
    requires Inv(l) && pid in l.proposals
    ensures pid < l.world.nextProposal
  {
    hide Inv, Sum, PricePerToken, ProposalShape;
    ProposalAt(l, pid);
  }

  /** Over any run at most nine claimants of a proposal fail twice, and the ninth one rejects it. */
  lemma {:induction false} NinthFailureRejects(l: Ledger, txs: seq<Tx>, pid: nat)
    requires Inv(l) && Chronological(l.clock, txs)
    requires pid in l.proposals && pid in Run(l, txs).proposals
    ensures |Run(l, txs).proposals[pid].banned| <= MAX_BANNED
    ensures Count(l, txs, FailingTwice(pid)) + |l.proposals[pid].banned|
            <= |Run(l, txs).proposals[pid].banned| + (if Run(l, txs).proposals[pid].status.Rejected? then 1 else 0)
    ensures Count(l, txs, FailingTwice(pid)) <= 9
    ensures Count(l, txs, FailingTwice(pid)) == 9 ==> Run(l, txs).proposals[pid].status.Rejected?
    decreases |txs|
  {
    hide Step, Inv, Sum, Work;
    BanListFits(l, pid);
    if txs != [] {
      var n := |txs| - 1;
      ChronologicalPrefix(l.clock, txs, n);
      ProposalBelow(l, pid);
      ProposalStays(l, txs, pid);
      NinthFailureRejects(l, txs[..n], pid);
      AlongRun(l, txs, n);
      assert txs[..n + 1] == txs;
      ChangeIsProgress(Run(l, txs[..n]), txs[n], pid);
    }
  }

  // ----- a banned creator -----

  /** The ban list only grows, and what was put to the vote stays. */
  lemma {:induction false} BansStay(l: Ledger, txs: seq<Tx>, pid: nat)
    requires Inv(l) && Chronological(l.clock, txs) && pid in l.proposals
    ensures pid in Run(l, txs).proposals ==>
              SameOffer(l.proposals[pid], Run(l, txs).proposals[pid])
              && l.proposals[pid].banned <= Run(l, txs).proposals[pid].banned
    decreases |txs|
  {
    hide Step, Inv, Sum, Work;
    if txs != [] && pid in Run(l, txs).proposals {
      var n := |txs| - 1;
      ChronologicalPrefix(l.clock, txs, n);
      ProposalBelow(l, pid);
      ProposalStays(l, txs, pid);
      BansStay(l, txs[..n], pid);
      AlongRun(l, txs, n);
      assert txs[..n + 1] == txs;
      StepMovesProposal(Run(l, txs[..n]), txs[n], pid);
    }
  }

  lemma BannedCannotClaim(l: Ledger, tx: Tx, pid: nat, k: Key)
    requires tx.call == Govern(ClaimProposal(k, pid))
    requires pid in l.proposals && ProposalShape(l.proposals[pid]) && l.proposals[pid].banned != []
    requires k in l.proposals[pid].banned || l.proposals[pid].role == ModuleCreator
    ensures Step(l, tx).Err?
  {
    hide Sum, Clamp, Debit;
    assert l.proposals[pid].banned[0] in l.proposals[pid].banned;
  }

  lemma MissingCannotBeClaimed(l: Ledger, tx: Tx, pid: nat, k: Key)
    requires tx.call == Govern(ClaimProposal(k, pid)) && pid !in l.proposals
    ensures Step(l, tx).Err?
  {
    hide Sum, Clamp, Debit;
  }

  /**
   * A creator who was banned from a proposal never reserves it again, however the run goes on; and once its own
   * proposer was banned from a proposal that a creator opened, nobody ever does: it can only expire.
   */
  lemma BannedForGood(l: Ledger, txs: seq<Tx>, i: nat, pid: nat, k: Key)
    requires Inv(l) && Chronological(l.clock, txs) && i < |txs|
    requires pid in l.proposals && l.proposals[pid].banned != []
    requires k in l.proposals[pid].banned || l.proposals[pid].role == ModuleCreator
    requires txs[i].call == Govern(ClaimProposal(k, pid))
    ensures Step(Run(l, txs[..i]), txs[i]).Err?
  {
    hide Inv, Sum, Step, Apply, ProposalShape;
    var before := Run(l, txs[..i]);
    ChronologicalPrefix(l.clock, txs, i);
    AlongRun(l, txs, i);
    BansStay(l, txs[..i], pid);
    ProposalAt(before, pid);
    if pid in before.proposals {
      BannedCannotClaim(before, txs[i], pid, k);
    } else {
      MissingCannotBeClaimed(before, txs[i], pid, k);
    }
  }

  /** In every state any run from the start reaches, each proposal has the shape of its stage and its frozen price. */
  lemma ProposalAlways(w: World, txs: seq<Tx>, pid: nat)
    requires w.config.Valid() && Sum(w.xcav, Held()) + w.treasury <= U64_MAX && Chronological(I64_MIN, txs)
    ensures var l := Run(Start(w), txs);
            pid in l.proposals ==>
              ProposalOk(l.world.nextProposal, l.world.regions, l.world.decimals, pid, l.proposals[pid])
  {
    hide Step, Inv, Sum, ProposalOk, Config.Valid, Apply, Ledger.XcavTotal, Ledger.CashTotal;
    ReachableHolds(w, txs);
    ProposalAt(Run(Start(w), txs), pid);
  }

  // ----- who fails, and twice -----

  /** The c-th step is this creator reserving the proposal. */
  ghost predicate ClaimedAt(l: Ledger, txs: seq<Tx>, c: nat, pid: nat, claimant: Key)
    requires c < |txs|
  {
    Step(Run(l, txs[..c]), txs[c]).Ok? && txs[c].call == Govern(ClaimProposal(claimant, pid))
  }

  /** After the first n steps the proposal is reserved by this claimant with this bond. */
  ghost predicate HeldAt(l: Ledger, txs: seq<Tx>, n: nat, pid: nat, claimant: Key, bond: u64)
    requires n <= |txs|
  {
    var l' := Run(l, txs[..n]);
    pid in l'.proposals && l'.proposals[pid].claimant == Some(claimant) && l'.proposals[pid].bond == bond
  }

  /** Reserved at step c and held in every state since, up to the n-th: nobody let go of it or claimed it in between. */
  ghost predicate Reservation(l: Ledger, txs: seq<Tx>, c: nat, n: nat, pid: nat, claimant: Key, bond: u64)
    requires c < n <= |txs|
  {
    ClaimedAt(l, txs, c, pid, claimant) && forall m: nat :: c < m <= n ==> HeldAt(l, txs, m, pid, claimant, bond)
  }

  /** The j-th step is a failed review of what this claimant built. */
  ghost predicate FailedAt(l: Ledger, txs: seq<Tx>, j: nat, pid: nat, claimant: Key)
    requires j < |txs|
  {
    var before := Run(l, txs[..j]);
    && Step(before, txs[j]).Ok? && txs[j].call.Govern? && Fails(txs[j].call.governance, pid)
    && pid in before.proposals && before.proposals[pid].claimant == Some(claimant)
  }

  /** The claimant failed a review at some step of this reservation before the n-th. */
  ghost predicate FailedSince(l: Ledger, txs: seq<Tx>, c: nat, n: nat, pid: nat, claimant: Key)
    requires n <= |txs|
  {
    exists j: nat :: c < j < n && FailedAt(l, txs, j, pid, claimant)
  }

  lemma StepMovesClaimant(l: Ledger, tx: Tx, pid: nat)
    requires Inv(l) && pid in Apply(l, tx).proposals && Apply(l, tx).proposals[pid].claimant.Some?
    ensures pid in l.proposals
    ensures Step(l, tx).Ok? && tx.call.Govern? && !Quiet(tx.call.governance) ==>
              ClaimantMove(l, tx.call.governance, pid, Apply(l, tx).proposals[pid])
    ensures Step(l, tx).Err? || tx.call.Deliver? || Quiet(tx.call.governance) ==>
              Apply(l, tx).proposals[pid] == l.proposals[pid]
  {
    hide Inv, Sum, DeliveryStep, GovernanceStep, Progress, BondMove;
    StepMovesProposal(l, tx, pid);
  }

  /** The counter of failures is what it says: positive exactly if the claimant failed a review in this reservation. */
  lemma {:induction false} FailuresCounted(l: Ledger, txs: seq<Tx>, c: nat, n: nat, pid: nat, claimant: Key, bond: u64)
    requires Inv(l) && Chronological(l.clock, txs) && c < n <= |txs|
    requires Reservation(l, txs, c, n, pid, claimant, bond)
    ensures HeldAt(l, txs, n, pid, claimant, bond)
    ensures Run(l, txs[..n]).proposals[pid].failures > 0 <==> FailedSince(l, txs, c, n, pid, claimant)
    decreases n
  {
    hide Step, Inv, Sum, Apply, ClaimantMove;
    assert HeldAt(l, txs, n, pid, claimant, bond);
    AlongRun(l, txs, n - 1);
    var before, tx := Run(l, txs[..n - 1]), txs[n - 1];
    StepMovesClaimant(before, tx, pid);
    if n == c + 1 {
      JustClaimed(before, tx, pid, claimant);
    } else {
      assert Reservation(l, txs, c, n - 1, pid, claimant, bond);
      FailuresCounted(l, txs, c, n - 1, pid, claimant, bond);
      CountedByStep(before, tx, pid, claimant);
      if FailedSince(l, txs, c, n, pid, claimant) {
        var j: nat :| c < j < n && FailedAt(l, txs, j, pid, claimant);
        assert j < n - 1 ==> FailedSince(l, txs, c, n - 1, pid, claimant);
      }
      if FailedSince(l, txs, c, n - 1, pid, claimant) {
        var j: nat :| c < j < n - 1 && FailedAt(l, txs, j, pid, claimant);
        assert FailedSince(l, txs, c, n, pid, claimant);
      }
      if FailsNow(before, tx, pid) {
        assert FailedAt(l, txs, n - 1, pid, claimant);
      }
    }
  }

  ghost predicate FailsNow(l: Ledger, tx: Tx, pid: nat) {
    Step(l, tx).Ok? && tx.call.Govern? && Fails(tx.call.governance, pid)
  }

  lemma JustClaimed(l: Ledger, tx: Tx, pid: nat, claimant: Key)
    requires Step(l, tx).Ok? && tx.call == Govern(ClaimProposal(claimant, pid))
    ensures pid in Apply(l, tx).proposals
    ensures var p := Apply(l, tx).proposals[pid];
            p.claimant == Some(claimant) && p.failures == 0 && p.bond == l.world.config.moduleDeposit
  {
    hide Sum, Debit, Clamp;
  }

  lemma CountedByStep(l: Ledger, tx: Tx, pid: nat, claimant: Key)
    requires Inv(l) && pid in l.proposals && l.proposals[pid].claimant == Some(claimant)
    requires pid in Apply(l, tx).proposals && Apply(l, tx).proposals[pid].claimant == Some(claimant)
    ensures Apply(l, tx).proposals[pid].failures == l.proposals[pid].failures + (if FailsNow(l, tx, pid) then 1 else 0)
  {
    hide Step, Inv, Sum;
    StepMovesClaimant(l, tx, pid);
  }

  /**
   * Over any run from before a proposal was reserved, whoever has it reserved at the end reserved it at some step,
   * has held it ever since, and counts as having failed exactly if a review since then failed them.
   */
  lemma {:induction false} ClaimantIsOnRecord(l: Ledger, txs: seq<Tx>, pid: nat)
    requires Inv(l) && Chronological(l.clock, txs) && (pid in l.proposals ==> l.proposals[pid].claimant.None?)
    ensures var l' := Run(l, txs);
            pid in l'.proposals && l'.proposals[pid].claimant.Some? ==>
              var p := l'.proposals[pid];
              exists c: nat :: c < |txs| && Reservation(l, txs, c, |txs|, pid, p.claimant.value, p.bond)
                               && (p.failures > 0 <==> FailedSince(l, txs, c, |txs|, pid, p.claimant.value))
    decreases |txs|
  {
    hide Step, Inv, Sum, Apply, ClaimantMove, FailedSince;
    var l' := Run(l, txs);
    if txs != [] && pid in l'.proposals && l'.proposals[pid].claimant.Some? {
      var n, k, bond := |txs| - 1, l'.proposals[pid].claimant.value, l'.proposals[pid].bond;
      ChronologicalPrefix(l.clock, txs, n);
      ClaimantIsOnRecord(l, txs[..n], pid);
      AlongRun(l, txs, n);
      assert txs[..n + 1] == txs;
      var before := Run(l, txs[..n]);
      ReservedBy(before, txs[n], pid);
      var c: nat;
      if before.proposals[pid].claimant == Some(k) {
        c :| c < n && Reservation(l, txs[..n], c, n, pid, k, bond);
        ReservationPrefix(l, txs, c, n, pid, k, bond);
      } else {
        c := n;
        assert ClaimedAt(l, txs, c, pid, k);
      }
      assert HeldAt(l, txs, n + 1, pid, k, bond);
      assert Reservation(l, txs, c, n + 1, pid, k, bond);
      FailuresCounted(l, txs, c, n + 1, pid, k, bond);
    }
  }

  /** Who holds a proposal after a step held it before at the same bond, or the step is their reserving it. */
  lemma ReservedBy(l: Ledger, tx: Tx, pid: nat)
    requires Inv(l) && pid in Apply(l, tx).proposals && Apply(l, tx).proposals[pid].claimant.Some?
    ensures pid in l.proposals
    ensures var p' := Apply(l, tx).proposals[pid];
            || (l.proposals[pid].claimant == p'.claimant && l.proposals[pid].bond == p'.bond)
            || (l.proposals[pid].claimant.None? && Step(l, tx).Ok?
                && tx.call == Govern(ClaimProposal(p'.claimant.value, pid)))
  {
    hide Step, Inv, Sum;
    StepMovesClaimant(l, tx, pid);
  }

  lemma ReservationPrefix(l: Ledger, txs: seq<Tx>, c: nat, n: nat, pid: nat, claimant: Key, bond: u64)
    requires c < n <= |txs| && Reservation(l, txs[..n], c, n, pid, claimant, bond)
    ensures Reservation(l, txs, c, n, pid, claimant, bond)
  {
    hide Step, Run;
    assert txs[..n][..c] == txs[..c] && txs[..n][c] == txs[c];
    forall m: nat | c < m <= n
      ensures HeldAt(l, txs, m, pid, claimant, bond)
    {
      assert HeldAt(l, txs[..n], m, pid, claimant, bond);
      assert txs[..n][..m] == txs[..m];
    }
  }

  // ----- the fate of a bond -----

  /** Why the i-th step may slash the bond of a reservation made at step c. */
  ghost predicate SlashReason(l: Ledger, txs: seq<Tx>, c: nat, i: nat, pid: nat, claimant: Key)
    requires i < |txs|
  {
    var before, tx := Run(l, txs[..i]), txs[i];
    && pid in before.proposals
    && var p := before.proposals[pid];
      || (tx.call == Govern(ReleaseClaim(pid)) && Releasable(tx.now, p))
      || (FailedAt(l, txs, i, pid, claimant) && FailedSince(l, txs, c, i, pid, claimant))
      || (tx.call == Govern(ExpireProposal(pid)) && p.status in {Claimed, Approved} && tx.now >= p.buildDeadline
          && tx.now >= p.uploadDeadline)
  }

  /** The i-th step is what becomes of the bond of a reservation made at step c and held until then. */
  ghost predicate BondEnds(l: Ledger, txs: seq<Tx>, c: nat, i: nat, pid: nat, claimant: Key, bond: u64)
    requires c < i < |txs|
  {
    var before, after, tx := Run(l, txs[..i]), Run(l, txs[..i + 1]), txs[i];
    && Reservation(l, txs, c, i, pid, claimant, bond)
    && tx.call.Govern? && Step(before, tx).Ok? && pid in before.proposals
    && (|| (SlashReason(l, txs, c, i, pid, claimant)
            && after.world.xcav == before.world.xcav && after.world.treasury == before.world.treasury + bond)
        || BondRefunded(before, after, tx.now, tx.call.governance, pid, before.proposals[pid])
        || BondBecomesDeposit(before, after, tx.call.governance, pid, before.proposals[pid]))
  }

  /**
   * Over any run, the bond a creator locked when they reserved a proposal either still rides on it, held ever since;
   * or some later step slashed it, for running out of time or for the second review that failed them in this very
   * reservation, refunded it in full, or turned it into the deposit of the module they minted.
   */
  lemma {:induction false} BondFate(l: Ledger, txs: seq<Tx>, c: nat, n: nat, pid: nat, claimant: Key)
    requires Inv(l) && Chronological(l.clock, txs) && c < n <= |txs| && ClaimedAt(l, txs, c, pid, claimant)
    ensures var bond := Run(l, txs[..c]).world.config.moduleDeposit;
            || Reservation(l, txs, c, n, pid, claimant, bond)
            || exists i: nat :: c < i < n && BondEnds(l, txs, c, i, pid, claimant, bond)
    decreases n
  {
    hide Step, Inv, Sum, Apply, ClaimedAt, FailedAt, SlashReason, BondRefunded, BondBecomesDeposit;
    var bond := Run(l, txs[..c]).world.config.moduleDeposit;
    AlongRun(l, txs, n - 1);
    if n == c + 1 {
      ClaimLocks(l, txs, c, pid, claimant);
      assert HeldAt(l, txs, n, pid, claimant, bond);
    } else {
      BondFate(l, txs, c, n - 1, pid, claimant);
      if Reservation(l, txs, c, n - 1, pid, claimant, bond) && !HeldAt(l, txs, n, pid, claimant, bond) {
        BondEndsNow(l, txs, c, n - 1, pid, claimant, bond);
        assert BondEnds(l, txs, c, n - 1, pid, claimant, bond);
      }
    }
  }

  lemma ClaimLocks(l: Ledger, txs: seq<Tx>, c: nat, pid: nat, claimant: Key)
    requires c < |txs| && ClaimedAt(l, txs, c, pid, claimant)
    ensures HeldAt(l, txs, c + 1, pid, claimant, Run(l, txs[..c]).world.config.moduleDeposit)
  {
    hide Step, Sum, Apply;
    assert txs[..c + 1][..c] == txs[..c];
    JustClaimed(Run(l, txs[..c]), txs[c], pid, claimant);
  }

  lemma BondEndsNow(l: Ledger, txs: seq<Tx>, c: nat, i: nat, pid: nat, claimant: Key, bond: u64)
    requires Inv(l) && Chronological(l.clock, txs) && c < i < |txs|
    requires Reservation(l, txs, c, i, pid, claimant, bond) && !HeldAt(l, txs, i + 1, pid, claimant, bond)
    ensures BondEnds(l, txs, c, i, pid, claimant, bond)
  {
    hide Step, Inv, Sum, ClaimedAt, BondRefunded, BondBecomesDeposit, ClaimantMove, Progress, FailedSince;
    AlongRun(l, txs, i);
    assert HeldAt(l, txs, i, pid, claimant, bond);
    var before, tx := Run(l, txs[..i]), txs[i];
    StepMovesProposal(before, tx, pid);
    FailuresCounted(l, txs, c, i, pid, claimant, bond);
  }
}
