/**
 * Whole runs of the regions program: no XCAV is made or lost, a region never disappears, a seat turns over no
 * faster than the periods allow, and a proposer's deposit has one of three fates.
 */
module RegionsRuns {
  import opened Machine
  import opened Sums
  import opened Wallets
  import opened Voting
  import opened RegionsState
  import opened RegionsLedger
  import Proofs = RegionsProofs

  datatype Call =
    | Propose(proposer: Key, code: u16, supply: u64)
    | CastVote(voter: Key, code: u16, vote: Vote, amount: u64)
    | Finalize(code: u16)
    | Unlock(voter: Key, pid: nat)
    | Clear(code: u16)
    | Create(creator: Key, code: u16)
    | Claim(operator: Key, code: u16, supply: u64)
    | GiveNotice(operator: Key, code: u16)
    | Configure(authority: Key, config: RegionsConfig)
    | Rotate(authority: Key, successor: Key)
    | Grant(k: Key, held: bool)
    | Transfer(from: Key, to: Key, amount: u64)
    | Donate(from: Key, amount: u64)

  datatype Tx = Tx(now: i64, call: Call)

  ghost function Step(l: Ledger, tx: Tx): Result<Ledger> {
    match tx.call
    case Propose(proposer, code, supply) => ProposeRegion(l, tx.now, proposer, code, supply)
    case CastVote(voter, code, vote, amount) => VoteOnRegion(l, tx.now, voter, code, vote, amount)
    case Finalize(code) => FinalizeRegion(l, tx.now, code)
    case Unlock(voter, pid) => UnlockVote(l, tx.now, voter, pid)
    case Clear(code) => ClearRegion(l, tx.now, code)
    case Create(creator, code) => CreateRegion(l, tx.now, creator, code)
    case Claim(operator, code, supply) => ClaimSeat(l, tx.now, operator, code, supply)
    case GiveNotice(operator, code) => Resign(l, tx.now, operator, code)
    case Configure(authority, config) => UpdateConfig(l, authority, config)
    case Rotate(authority, successor) => UpdateAuthority(l, authority, successor)
    case Grant(k, held) => SetOperator(l, k, held)
    case Transfer(from, to, amount) => TransferXcav(l, from, to, amount)
    case Donate(from, amount) => DonateXcav(l, from, amount)
  }

  ghost function Apply(l: Ledger, tx: Tx): Ledger {
    if Step(l, tx).Ok? then Step(l, tx).value else l
  }

  ghost function Run(l: Ledger, txs: seq<Tx>): Ledger {
    if txs == [] then l else Apply(Run(l, txs[..|txs| - 1]), txs[|txs| - 1])
  }

  predicate Chronological(start: int, txs: seq<Tx>) {
    && (forall i :: 0 <= i < |txs| ==> start <= txs[i].now)
    && (forall i, j :: 0 <= i < j < |txs| ==> txs[i].now <= txs[j].now)
  }

  // ----- one step -----

  lemma ApplyKeeps(l: Ledger, tx: Tx)
    requires Inv(l) && l.clock <= tx.now
    ensures Keeps(l, Apply(l, tx))
  {
    hide ProposeRegion, VoteOnRegion, FinalizeRegion, UnlockVote, ClearRegion, CreateRegion, ClaimSeat, Resign,
         UpdateConfig, TransferXcav, Inv, Ledger.XcavTotal;
    if Step(l, tx).Ok? {
      match tx.call {
        case Propose(proposer, code, supply) => Proofs.ProposeRegionKeeps(l, tx.now, proposer, code, supply);
        case CastVote(voter, code, vote, amount) => Proofs.VoteOnRegionKeeps(l, tx.now, voter, code, vote, amount);
        case Finalize(code) => Proofs.FinalizeRegionKeeps(l, tx.now, code);
        case Unlock(voter, pid) => Proofs.UnlockVoteKeeps(l, tx.now, voter, pid);
        case Clear(code) => Proofs.ClearRegionKeeps(l, tx.now, code);
        case Create(creator, code) => Proofs.CreateRegionKeeps(l, tx.now, creator, code);
        case Claim(operator, code, supply) => Proofs.ClaimSeatKeeps(l, tx.now, operator, code, supply);
        case GiveNotice(operator, code) => Proofs.ResignKeeps(l, tx.now, operator, code);
        case Configure(authority, config) => Proofs.UpdateConfigKeeps(l, authority, config);
        case Rotate(authority, successor) => Proofs.UpdateAuthorityKeeps(l, authority, successor);
        case Grant(k, held) => Proofs.SetOperatorKeeps(l, k, held);
        case Transfer(from, to, amount) => Proofs.TransferXcavKeeps(l, from, to, amount);
        case Donate(from, amount) => Proofs.DonateXcavKeeps(l, from, amount);
      }
    }
  }

  lemma StepClock(l: Ledger, tx: Tx)
    requires l.clock <= tx.now
    ensures Apply(l, tx).clock <= tx.now
  {
    hide Sum, VotePasses, Debit, Credit, Pay;
    match tx.call {
      case Propose(_, _, _) =>
      case CastVote(_, _, _, _) =>
      case Finalize(_) =>
      case Unlock(_, _) =>
      case Clear(_) =>
      case Create(_, _) =>
      case Claim(_, _, _) =>
      case GiveNotice(_, _) =>
      case Configure(_, _) =>
      case Rotate(_, _) =>
      case Grant(_, _) =>
      case Transfer(_, _, _) =>
      case Donate(_, _) =>
    }
  }

  // ----- whole runs -----

  lemma ChronologicalPrefix(start: int, txs: seq<Tx>, n: nat)
    requires Chronological(start, txs) && n <= |txs|
    ensures Chronological(start, txs[..n])
  {
  }

  /** Over every run the invariant holds and no XCAV is made or lost. */
  lemma {:induction false} RunKeeps(l: Ledger, txs: seq<Tx>)
    requires Inv(l) && Chronological(l.clock, txs)
    ensures Keeps(l, Run(l, txs))
    ensures Run(l, txs).clock <= if txs == [] then l.clock else txs[|txs| - 1].now
    decreases |txs|
  {
    hide Step, Inv, Apply, Ledger.XcavTotal;
    if txs != [] {
      var n := |txs| - 1;
      ChronologicalPrefix(l.clock, txs, n);
      RunKeeps(l, txs[..n]);
      assert n > 0 ==> txs[..n][n - 1] == txs[n - 1];
      ApplyKeeps(Run(l, txs[..n]), txs[n]);
      StepClock(Run(l, txs[..n]), txs[n]);
    }
  }

  /** Where every run of the program starts: no regions yet. */
  function Start(w: RegionsWorld): Ledger {
    Ledger(w, I64_MIN, map[], map[], map[], map[], 0)
  }

  /** What every run from the start reaches satisfies the invariant and holds all the XCAV there was to begin with. */
  lemma ReachableHolds(w: RegionsWorld, txs: seq<Tx>)
    requires w.config.Valid() && Sum(w.xcav, Held()) <= U64_MAX && Chronological(I64_MIN, txs)
    ensures Inv(Run(Start(w), txs))
    ensures Run(Start(w), txs).XcavTotal() == Sum(w.xcav, Held())
  {
    hide Step, Apply, Run, RegionsConfig.Valid;
    var l := Start(w);
    assert l.VaultOwed() == 0;
    assert BallotsInv(w.nextProposal, l.clock, l.proposals, ExpiryOf, l.ballots);
    RunKeeps(l, txs);
  }

  /**
   * In every state any run from the start reaches, a region is created or on its way but not both, only recognised
   * codes are either, and a proposal exists exactly while its region is being voted on.
   */
  lemma RegionAlways(w: RegionsWorld, txs: seq<Tx>, code: u16)
    requires w.config.Valid() && Sum(w.xcav, Held()) <= U64_MAX && Chronological(I64_MIN, txs)
    ensures var l := Run(Start(w), txs);
            && (code in l.regions || code in l.states ==> IsRegionCode(code))
            && !(code in l.regions && code in l.states)
            && (code in l.states ==>
                  (l.states[code].status.Proposing? <==> l.states[code].proposalId in l.proposals))
  {
    hide Step, Apply, Run, Inv, RegionsConfig.Valid, Ledger.XcavTotal;
    ReachableHolds(w, txs);
    CodeRecognised(Run(Start(w), txs), code);
    Proofs.ProposalOf(Run(Start(w), txs), code);
  }

  lemma CodeRecognised(l: Ledger, code: u16)
    requires Inv(l)
    ensures code in l.regions || code in l.states ==> IsRegionCode(code)
    ensures !(code in l.regions && code in l.states)
  {
    hide Sum, ProposalsInv, BallotsInv;
  }

  lemma AlongRun(l: Ledger, txs: seq<Tx>, i: nat)
    requires Inv(l) && Chronological(l.clock, txs) && i < |txs|
    ensures Inv(Run(l, txs[..i])) && Run(l, txs[..i]).clock <= txs[i].now
    ensures Run(l, txs[..i + 1]) == Apply(Run(l, txs[..i]), txs[i])
  {
    hide Step, Inv, Apply, Ledger.XcavTotal;
    ChronologicalPrefix(l.clock, txs, i);
    RunKeeps(l, txs[..i]);
    assert i > 0 ==> txs[..i][i - 1] == txs[i - 1];
    assert txs[..i + 1][..i] == txs[..i];
  }

  // ----- the seat -----

  /** A created region stays; its operator changes only once the seat is open, and only a resignation hastens that. */
  ghost predicate RegionMove(l: Ledger, l': Ledger, tx: Tx, code: u16)
    requires code in l.regions
  {
    var r, c := l.regions[code], l.world.config;
    && code in l'.regions
    && var r' := l'.regions[code];
      || (r' == r && !(tx.call.Claim? && tx.call.code == code) && !(tx.call.GiveNotice? && tx.call.code == code))
      || (tx.call.Claim? && tx.call.code == code && r.nextOwnerChange < tx.now
          && r'.owner == tx.call.operator && r'.nextOwnerChange == tx.now + c.ownerChangePeriod)
      || (tx.call.GiveNotice? && tx.call.code == code && r.owner == tx.call.operator
          && r'.owner == r.owner && r'.collateral == r.collateral
          && r'.nextOwnerChange == tx.now + c.noticePeriod < r.nextOwnerChange)
  }

  lemma StepMovesRegion(l: Ledger, tx: Tx, code: u16)
    requires Step(l, tx).Ok?
    requires code in l.regions ==> code !in l.states
    ensures code in l.regions ==> RegionMove(l, Step(l, tx).value, tx, code)
    ensures code !in l.regions && code in Step(l, tx).value.regions ==>
              tx.call.Create? && tx.call.code == code
              && Step(l, tx).value.regions[code].nextOwnerChange == tx.now + l.world.config.ownerChangePeriod
    ensures tx.call.Configure? || Step(l, tx).value.world.config == l.world.config
  {
    hide Sum, VotePasses, Debit, Credit, Pay;
    match tx.call {
      case Propose(_, _, _) =>
      case CastVote(_, _, _, _) =>
      case Finalize(_) =>
      case Unlock(_, _) =>
      case Clear(_) =>
      case Create(_, _) =>
      case Claim(_, _, _) =>
      case GiveNotice(_, _) =>
      case Configure(_, _) =>
      case Rotate(_, _) =>
      case Grant(_, _) =>
      case Transfer(_, _, _) =>
      case Donate(_, _) =>
    }
  }

  lemma CreatedNotProposed(l: Ledger, code: u16)
    requires Inv(l)
    ensures code in l.regions ==> code !in l.states
  {
    hide Sum, ProposalsInv, BallotsInv;
  }

  /** A region never disappears. */
  lemma {:induction false} RegionStays(l: Ledger, txs: seq<Tx>, code: u16)
    requires Inv(l) && Chronological(l.clock, txs) && code in l.regions
    ensures code in Run(l, txs).regions
    decreases |txs|
  {
    hide Step, Inv, Ledger.XcavTotal;
    if txs != [] {
      var n := |txs| - 1;
      ChronologicalPrefix(l.clock, txs, n);
      RegionStays(l, txs[..n], code);
      AlongRun(l, txs, n);
      CreatedNotProposed(Run(l, txs[..n]), code);
      if Step(Run(l, txs[..n]), txs[n]).Ok? {
        StepMovesRegion(Run(l, txs[..n]), txs[n], code);
      }
    }
  }

  /** The i-th step seats an operator: it creates the region, or claims or renews its seat. */
  ghost predicate Seats(l: Ledger, txs: seq<Tx>, i: nat, code: u16)
    requires i < |txs|
  {
    && Step(Run(l, txs[..i]), txs[i]).Ok?
    && ((txs[i].call.Create? && txs[i].call.code == code) || (txs[i].call.Claim? && txs[i].call.code == code))
  }

  ghost predicate Resigns(l: Ledger, txs: seq<Tx>, i: nat, code: u16)
    requires i < |txs|
  {
    Step(Run(l, txs[..i]), txs[i]).Ok? && txs[i].call.GiveNotice? && txs[i].call.code == code
  }

  /** The term and the notice are the same throughout the run. */
  predicate PeriodsFixed(c: RegionsConfig, txs: seq<Tx>) {
    forall i :: 0 <= i < |txs| && txs[i].call.Configure? ==>
      txs[i].call.config.ownerChangePeriod == c.ownerChangePeriod && txs[i].call.config.noticePeriod == c.noticePeriod
  }

  lemma {:induction false} PeriodsStay(l: Ledger, txs: seq<Tx>)
    requires Inv(l) && Chronological(l.clock, txs) && PeriodsFixed(l.world.config, txs)
    ensures Run(l, txs).world.config.ownerChangePeriod == l.world.config.ownerChangePeriod
    ensures Run(l, txs).world.config.noticePeriod == l.world.config.noticePeriod
    decreases |txs|
  {
    hide Inv, Ledger.XcavTotal, Sum, ProposeRegion, VoteOnRegion, FinalizeRegion, UnlockVote, ClearRegion,
         CreateRegion, ClaimSeat, Resign, TransferXcav, DonateXcav;
    if txs != [] {
      var n := |txs| - 1;
      ChronologicalPrefix(l.clock, txs, n);
      PeriodsStay(l, txs[..n]);
      AlongRun(l, txs, n);
      CreatedNotProposed(Run(l, txs[..n]), 0);
      if Step(Run(l, txs[..n]), txs[n]).Ok? {
        StepMovesRegion(Run(l, txs[..n]), txs[n], 0);
      }
    }
  }

  ghost predicate NoResignation(l: Ledger, txs: seq<Tx>, i: nat, code: u16) {
    forall m: nat :: i < m < |txs| ==> !Resigns(l, txs, m, code)
  }

  /** However many steps follow, a seat taken at step i opens no sooner than the shorter of term and notice allow. */
  lemma {:induction false} SeatHeld(l: Ledger, txs: seq<Tx>, i: nat, code: u16)
    requires Inv(l) && Chronological(l.clock, txs) && PeriodsFixed(l.world.config, txs)
    requires i < |txs| && Seats(l, txs, i, code)
    ensures code in Run(l, txs).regions
    ensures var c, next := l.world.config, Run(l, txs).regions[code].nextOwnerChange;
            && (next >= txs[i].now + c.ownerChangePeriod || next >= txs[i].now + c.noticePeriod)
            && (NoResignation(l, txs, i, code) ==> next >= txs[i].now + c.ownerChangePeriod)
    decreases |txs|
  {
    hide Step, Inv, Ledger.XcavTotal, Sum;
    var n := |txs| - 1;
    var before := Run(l, txs[..n]);
    ChronologicalPrefix(l.clock, txs, n);
    AlongRun(l, txs, n);
    PeriodsStay(l, txs[..n]);
    CreatedNotProposed(before, code);
    assert txs[..n + 1] == txs;
    if i == n {
      StepMovesRegion(before, txs[n], code);
      SeatedNow(before, txs[n], code);
    } else {
      assert txs[..n][..i] == txs[..i];
      assert Seats(l, txs[..n], i, code);
      SeatHeld(l, txs[..n], i, code);
      SamePast(l, txs, n, i, code);
      if Step(before, txs[n]).Ok? {
        StepMovesRegion(before, txs[n], code);
        assert Resigns(l, txs, n, code) <==> txs[n].call.GiveNotice? && txs[n].call.code == code;
      }
    }
  }

  lemma SeatedNow(l: Ledger, tx: Tx, code: u16)
    requires Step(l, tx).Ok? && (tx.call.Create? || tx.call.Claim?) && tx.call.code == code
    ensures code in Step(l, tx).value.regions
    ensures Step(l, tx).value.regions[code].nextOwnerChange == tx.now + l.world.config.ownerChangePeriod
  {
    hide Sum, Debit, Credit, Pay;
  }

  lemma SamePast(l: Ledger, txs: seq<Tx>, n: nat, i: nat, code: u16)
    requires i < n <= |txs|
    ensures NoResignation(l, txs, i, code) ==> NoResignation(l, txs[..n], i, code)
  {
    hide Step;
    forall m: nat | m < n
      ensures txs[..n][..m] == txs[..m]
    {
    }
    if !NoResignation(l, txs[..n], i, code) {
      var m: nat :| i < m < n && Resigns(l, txs[..n], m, code);
      assert Resigns(l, txs, m, code);
    }
  }

  /**
   * Two seatings of one region are more than the shorter of term and notice apart, and more than a whole term
   * apart unless the operator resigned in between.
   */
  lemma TurnoverTiming(l: Ledger, txs: seq<Tx>, i: nat, j: nat, code: u16)
    requires Inv(l) && Chronological(l.clock, txs) && PeriodsFixed(l.world.config, txs)
    requires i < j < |txs| && Seats(l, txs, i, code) && Seats(l, txs, j, code)
    ensures var c, gap := l.world.config, txs[j].now - txs[i].now;
            && (gap > c.ownerChangePeriod || gap > c.noticePeriod)
            && (NoResignation(l, txs[..j], i, code) ==> gap > c.ownerChangePeriod)
  {
    hide Step, Inv, Ledger.XcavTotal, Sum;
    ChronologicalPrefix(l.clock, txs, j);
    AlongRun(l, txs, j);
    assert txs[..j][..i] == txs[..i];
    assert Seats(l, txs[..j], i, code);
    SeatHeld(l, txs[..j], i, code);
    CreatedNotProposed(Run(l, txs[..j]), code);
    OpenWhenClaimed(Run(l, txs[..j]), txs[j], code);
  }

  lemma OpenWhenClaimed(l: Ledger, tx: Tx, code: u16)
    requires Step(l, tx).Ok? && (tx.call.Create? || tx.call.Claim?) && tx.call.code == code && code in l.regions
    ensures l.regions[code].nextOwnerChange < tx.now
  {
    hide Sum, Debit, Credit, Pay;
  }

  /** Until its seat opens a region keeps its operator, whoever else holds the role, unless they resign. */
  lemma SeatIsSafe(l: Ledger, tx: Tx, code: u16)
    requires Inv(l) && code in l.regions && Step(l, tx).Ok? && tx.now <= l.regions[code].nextOwnerChange
    ensures code in Step(l, tx).value.regions && Step(l, tx).value.regions[code].owner == l.regions[code].owner
    ensures Step(l, tx).value.regions[code].collateral == l.regions[code].collateral
  {
    hide Step, Inv, Sum;
    CreatedNotProposed(l, code);
    StepMovesRegion(l, tx, code);
  }

  /** Taking a seat, one's own or not, pays in the new bond and returns the old collateral, and nothing else moves. */
  lemma SeatSwap(l: Ledger, now: i64, operator: Key, code: u16, supply: u64)
    requires ClaimSeat(l, now, operator, code, supply).Ok?
    ensures code in l.regions && OperatorBond(supply).Ok?
    ensures var l', r, bond := ClaimSeat(l, now, operator, code, supply).value, l.regions[code],
        OperatorBond(supply).value;
            && (forall k: Key :: Balance(l'.world.xcav, k) + (if k == operator then bond else 0)
                                 == Balance(l.world.xcav, k) + (if k == r.owner then r.collateral else 0))
            && l'.regions == l.regions[code := Region(operator, bond, now + l.world.config.ownerChangePeriod)]
  {
  }

  /** At any time exactly one of creating and clearing a passed region is open. */
  lemma CreateOrClear(l: Ledger, now: i64, code: u16)
    requires Inv(l) && code in l.states && l.states[code].status.Passed?
    ensures var s := l.states[code];
            && (ClearRegion(l, now, code).Ok? <==> now >= s.claimDeadline)
            && (CreateRegion(l, now, s.proposer, code).Ok? <==>
                  now < s.claimDeadline && s.proposer in l.world.operators
                     && AddTime(now, l.world.config.ownerChangePeriod).Ok?)
            && forall k: Key :: CreateRegion(l, now, k, code).Ok? ==> k == s.proposer && ClearRegion(l, now, code).Err?
  {
    hide Sum, ProposalsInv, BallotsInv;
  }

  // ----- the fate of a deposit -----

  /** A proposer's deposit becomes the collateral of the region they create. */
  ghost predicate DepositBecomesCollateral(l: Ledger, l': Ledger, tx: Tx, code: u16, s: RegionState) {
    && tx.call == Create(s.proposer, code) && s.status.Passed? && tx.now < s.claimDeadline
    && code !in l'.states && code in l'.regions
    && l'.regions[code].owner == s.proposer && l'.regions[code].collateral == s.deposit && l'.world.xcav == l.world.xcav
  }

  /** It is refunded in full when the vote fails, or when the region was not created in time. */
  ghost predicate DepositRefunded(l: Ledger, l': Ledger, tx: Tx, code: u16, s: RegionState) {
    && l'.world.xcav == Credit(l.world.xcav, s.proposer, s.deposit)
    && (|| (tx.call == Finalize(code) && s.status.Proposing? && code in l'.states && l'.states[code].status.Rejected?)
        || (tx.call == Clear(code) && s.status.Passed? && tx.now >= s.claimDeadline && code !in l'.states))
  }

  ghost predicate DepositRides(l: Ledger, code: u16, s: RegionState) {
    && code in l.states && !l.states[code].status.Rejected?
    && l.states[code].proposalId == s.proposalId && l.states[code].proposer == s.proposer
       && l.states[code].deposit == s.deposit
  }

  lemma StepMovesDeposit(l: Ledger, tx: Tx, code: u16)
    requires Inv(l) && Step(l, tx).Ok? && code in l.states && !l.states[code].status.Rejected?
    ensures var l', s := Step(l, tx).value, l.states[code];
            DepositRides(l', code, s) || DepositBecomesCollateral(l, l', tx, code, s)
               || DepositRefunded(l, l', tx, code, s)
  {
    hide Sum, Inv, VotePasses, Debit, Credit, Pay;
    Proofs.ProposalOf(l, code);
    match tx.call {
      case Propose(_, _, _) =>
      case CastVote(_, _, _, _) =>
      case Finalize(_) =>
      case Unlock(_, _) =>
      case Clear(_) =>
      case Create(_, _) =>
      case Claim(_, _, _) =>
      case GiveNotice(_, _) =>
      case Configure(_, _) =>
      case Rotate(_, _) =>
      case Grant(_, _) =>
      case Transfer(_, _, _) =>
      case Donate(_, _) =>
    }
  }

  /** The i-th step of the run is what becomes of the deposit. */
  ghost predicate DepositEnds(l: Ledger, txs: seq<Tx>, i: nat, code: u16, s: RegionState)
    requires i < |txs|
  {
    var before, after := Run(l, txs[..i]), Run(l, txs[..i + 1]);
    && DepositRides(before, code, s)
    && (DepositBecomesCollateral(before, after, txs[i], code, before.states[code])
        || DepositRefunded(before, after, txs[i], code, before.states[code]))
  }

  /** Over any run a deposit is still held for its proposal, or it became collateral, or it was refunded in full. */
  lemma {:induction false} DepositFate(l: Ledger, txs: seq<Tx>, code: u16)
    requires Inv(l) && Chronological(l.clock, txs) && code in l.states && !l.states[code].status.Rejected?
    ensures DepositRides(Run(l, txs), code, l.states[code])
            || exists i: nat :: i < |txs| && DepositEnds(l, txs, i, code, l.states[code])
    decreases |txs|
  {
    hide Step, Inv, Ledger.XcavTotal, Sum;
    if txs != [] {
      var n, s := |txs| - 1, l.states[code];
      ChronologicalPrefix(l.clock, txs, n);
      DepositFate(l, txs[..n], code);
      AlongRun(l, txs, n);
      assert txs[..n + 1] == txs;
      if i: nat :| i < n && DepositEnds(l, txs[..n], i, code, s) {
        assert txs[..n][..i] == txs[..i] && txs[..n][..i + 1] == txs[..i + 1];
        assert DepositEnds(l, txs, i, code, s);
      } else if Step(Run(l, txs[..n]), txs[n]).Ok? {
        StepMovesDeposit(Run(l, txs[..n]), txs[n], code);
        assert DepositRides(Run(l, txs), code, s) || DepositEnds(l, txs, n, code, s);
      }
    }
  }
}
