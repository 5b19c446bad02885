/** Token-weighted votes with replacement, as both programs keep them: records, running tallies, and how they agree. */
module Voting {
  import opened Machine
  import opened Sums

  datatype Vote = Yes | No | Abstain

  /** A vote as stored while its stake is locked. */
  datatype VoteRecord = VoteRecord(vote: Vote, power: nat, expiry: i64)

  datatype Tallies = Tallies(yes: nat, no: nat, abstain: nat) {
    function Power(v: Vote): nat {
      match v
      case Yes => yes
      case No => no
      case Abstain => abstain
    }

    function WithPower(v: Vote, n: nat): Tallies {
      match v
      case Yes => this.(yes := n)
      case No => this.(no := n)
      case Abstain => this.(abstain := n)
    }

    function Add(v: Vote, amount: nat): Result<Tallies> {
      var n :- CheckedAdd(Power(v), amount, U64_MAX);
      Ok(WithPower(v, n))
    }

    function Sub(v: Vote, amount: nat): Tallies {
      WithPower(v, SaturatingSub(Power(v), amount))
    }
  }

  /** Only Yes counts towards the quorum, and Yes must hold its share of Yes and No. */
  predicate VotePasses(yes: nat, no: nat, thresholdBps: u16, quorum: u64) {
    yes > 0 && yes * 10000 >= (yes + no) * thresholdBps && yes >= quorum
  }

  lemma Scale(a: nat, b: nat, c: nat, t: nat)
    ensures (a + b) * t == a * t + b * t
    ensures a <= c ==> a * t <= c * t
  {
  }

  /** More Yes or less No never turns a passing vote into a failing one. */
  lemma VoteMonotone(yes: nat, no: nat, yes': nat, no': nat, thresholdBps: u16, quorum: u64)
    requires VotePasses(yes, no, thresholdBps, quorum) && yes <= yes' && no' <= no && thresholdBps <= 10000
    ensures VotePasses(yes', no', thresholdBps, quorum)
  {
    var t := thresholdBps;
    Scale(yes, no, 0, t);
    Scale(yes', no', 0, t);
    Scale(no', 0, no, t);
    Scale(t, 10000 - t, 0, yes);
    Scale(t, 10000 - t, 0, yes');
    Scale(yes, 0, yes', 10000 - t);
  }

  /** The last vote a voter cast on a proposal; it stays on record after its stake is unlocked. */
  datatype Ballot = Ballot(vote: Vote, power: nat, expiry: i64, locked: bool)

  /** Ballots and vote records are kept by proposal and voter. */
  type Ballots = map<(nat, Key), Ballot>
  type Votes = map<(nat, Key), VoteRecord>

  ghost function LockedPower(): ((nat, Key), Ballot) -> nat {
    (k: (nat, Key), b: Ballot) => When(b.locked, b.power)
  }

  ghost function CastFor(pid: nat, vote: Vote): ((nat, Key), Ballot) -> nat {
    (k: (nat, Key), b: Ballot) => When(k.0 == pid && b.vote == vote, b.power)
  }

  ghost function CastOn(pid: nat): ((nat, Key), Ballot) -> nat {
    (k: (nat, Key), b: Ballot) => When(k.0 == pid, b.power)
  }

  // ----- tallies and records agree -----

  ghost predicate TalliesMatch(t: Tallies, pid: nat, ballots: Ballots) {
    && t.yes == Sum(ballots, CastFor(pid, Yes))
    && t.no == Sum(ballots, CastFor(pid, No))
    && t.abstain == Sum(ballots, CastFor(pid, Abstain))
  }

  /** The vote records that exist are the ballots whose stake is still locked. */
  ghost predicate VotesMatch(votes: Votes, ballots: Ballots) {
    && (forall k :: k in votes <==> k in ballots && ballots[k].locked)
    && (forall k :: k in votes ==> votes[k] == VoteRecord(ballots[k].vote, ballots[k].power, ballots[k].expiry))
  }

  lemma VoteStored(votes: Votes, ballots: Ballots, k: (nat, Key))
    requires VotesMatch(votes, ballots)
    ensures k in votes <==> k in ballots && ballots[k].locked
    ensures k in votes ==> votes[k] == VoteRecord(ballots[k].vote, ballots[k].power, ballots[k].expiry)
  {
  }

  /** Casting replaces the voter's last ballot: its power leaves the tally it was in and the new one joins its own. */
  lemma PutBallot(bs: Ballots, k: (nat, Key), b: Ballot)
    ensures Sum(bs[k := b], LockedPower()) + (if k in bs then When(bs[k].locked, bs[k].power) else 0)
            == Sum(bs, LockedPower()) + When(b.locked, b.power)
    ensures forall pid, v :: Sum(bs[k := b], CastFor(pid, v))
                             + (if k in bs then When(k.0 == pid && bs[k].vote == v, bs[k].power) else 0)
                             == Sum(bs, CastFor(pid, v)) + When(k.0 == pid && b.vote == v, b.power)
    ensures forall pid :: Sum(bs[k := b], CastOn(pid)) + (if k in bs then When(k.0 == pid, bs[k].power) else 0)
                          == Sum(bs, CastOn(pid)) + When(k.0 == pid, b.power)
  {
    hide Sum;
    SumPut(bs, k, b);
  }

  /** The three tallies of a proposal are all the power cast on it. */
  lemma TallyParts(ballots: Ballots, pid: nat)
    ensures Sum(ballots, CastOn(pid))
            == Sum(ballots, CastFor(pid, Yes)) + Sum(ballots, CastFor(pid, No)) + Sum(ballots, CastFor(pid, Abstain))
    decreases ballots.Keys
  {
    hide Sum;
    if k :| k in ballots {
      SumDrop(ballots, k);
      TallyParts(ballots - {k}, pid);
      var v := ballots[k].vote;
      assert v.Yes? || v.No? || v.Abstain?;
      assert CastOn(pid)(k, ballots[k]) == When(k.0 == pid, ballots[k].power);
      assert CastFor(pid, Yes)(k, ballots[k]) == When(k.0 == pid && v == Yes, ballots[k].power);
      assert CastFor(pid, No)(k, ballots[k]) == When(k.0 == pid && v == No, ballots[k].power);
      assert CastFor(pid, Abstain)(k, ballots[k]) == When(k.0 == pid && v == Abstain, ballots[k].power);
    } else {
      SumZero(ballots, CastOn(pid));
      SumZero(ballots, CastFor(pid, Yes));
      SumZero(ballots, CastFor(pid, No));
      SumZero(ballots, CastFor(pid, Abstain));
    }
  }

  /** Casting again takes exactly the old power out of its slot, and no slot overflows. */
  lemma VoteRecounted(t: Tallies, ballots: Ballots, k: (nat, Key), b: Ballot)
    requires TalliesMatch(t, k.0, ballots)
    requires Sum(ballots[k := b], CastOn(k.0)) <= U64_MAX
    ensures k in ballots ==> t.Power(ballots[k].vote) >= ballots[k].power
    ensures var t' := if k in ballots then t.Sub(ballots[k].vote, ballots[k].power) else t;
            t'.Add(b.vote, b.power).Ok? && TalliesMatch(t'.Add(b.vote, b.power).value, k.0, ballots[k := b])
  {
    hide Sum;
    TallyParts(ballots[k := b], k.0);
    PutBallot(ballots, k, b);
    forall v
      ensures Sum(ballots, CastFor(k.0, v)) == t.Power(v)
    {
      match v {
        case Yes =>
        case No =>
        case Abstain =>
      }
    }
    if k in ballots {
      SumSplit(ballots, CastFor(k.0, ballots[k].vote), k);
    }
  }

  lemma CastVotesMatch(votes: Votes, ballots: Ballots, k: (nat, Key), b: Ballot)
    requires VotesMatch(votes, ballots) && b.locked
    ensures VotesMatch(votes[k := VoteRecord(b.vote, b.power, b.expiry)], ballots[k := b])
  {
  }

  lemma UnlockVotesMatch(votes: Votes, ballots: Ballots, k: (nat, Key))
    requires VotesMatch(votes, ballots) && k in ballots
    ensures VotesMatch(votes - {k}, ballots[k := ballots[k].(locked := false)])
  {
  }

  // ----- what the ballots of a reachable state satisfy, whatever a proposal is apart from its expiry -----

  /** Only a stake whose voting is over has been unlocked, and no tally can exceed a u64. */
  ghost predicate BallotsInv<P(!new)>(next: nat, clock: int, ps: map<nat, P>, expiry: P -> i64, ballots: Ballots) {
    && (forall k :: k in ballots ==>
          && k.0 < next
          && (k.0 in ps ==> ballots[k].expiry == expiry(ps[k.0]))
          && (!ballots[k].locked ==> ballots[k].expiry <= clock))
    && (forall pid :: Sum(ballots, CastOn(pid)) <= U64_MAX)
  }

  lemma LaterBallots<P(!new)>(next: nat, clock: int, now: int, ps: map<nat, P>, expiry: P -> i64, bs: Ballots)
    requires BallotsInv(next, clock, ps, expiry, bs) && clock <= now
    ensures BallotsInv(next, now, ps, expiry, bs)
  {
    hide Sum;
  }

  /** Ballots do not mind a new proposal, nor an old one that changes but keeps its expiry. */
  lemma PutProposalBallots<P(!new)>(next: nat, next': nat, clock: int, ps: map<nat, P>, expiry: P -> i64, bs: Ballots,
                                    pid: nat, p: P)
    requires BallotsInv(next, clock, ps, expiry, bs) && next <= next'
    requires pid >= next || (pid in ps && expiry(p) == expiry(ps[pid]))
    ensures BallotsInv(next', clock, ps[pid := p], expiry, bs)
  {
    hide Sum;
  }

  lemma DropProposalBallots<P(!new)>(next: nat, clock: int, ps: map<nat, P>, expiry: P -> i64, bs: Ballots, pid: nat)
    requires BallotsInv(next, clock, ps, expiry, bs)
    ensures BallotsInv(next, clock, ps - {pid}, expiry, bs)
  {
    hide Sum;
  }

  lemma CastBallots<P(!new)>(next: nat, clock: int, now: int, ps: map<nat, P>, expiry: P -> i64, bs: Ballots,
                             k: (nat, Key), b: Ballot)
    requires BallotsInv(next, clock, ps, expiry, bs) && clock <= now
    requires k.0 in ps && k.0 < next && now < expiry(ps[k.0]) == b.expiry && b.locked
    requires Sum(bs[k := b], LockedPower()) <= U64_MAX
    ensures BallotsInv(next, now, ps, expiry, bs[k := b])
  {
    hide Sum;
    PutBallot(bs, k, b);
    var bs' := bs[k := b];
    SumMonotone(bs', CastOn(k.0), LockedPower());
  }

  lemma UnlockBallots<P(!new)>(next: nat, clock: int, now: int, ps: map<nat, P>, expiry: P -> i64, bs: Ballots,
                               k: (nat, Key))
    requires BallotsInv(next, clock, ps, expiry, bs) && clock <= now
    requires k in bs && bs[k].expiry <= now
    ensures BallotsInv(next, now, ps, expiry, bs[k := bs[k].(locked := false)])
  {
    hide Sum;
    PutBallot(bs, k, bs[k].(locked := false));
  }

  /** While voting is open no vote on it has been unlocked. */
  lemma OpenBallotIsLocked<P(!new)>(next: nat, clock: int, ps: map<nat, P>, expiry: P -> i64, bs: Ballots,
                                    k: (nat, Key))
    requires BallotsInv(next, clock, ps, expiry, bs)
    ensures k in bs && k.0 in ps ==>
              bs[k].expiry == expiry(ps[k.0]) && (clock < expiry(ps[k.0]) ==> bs[k].locked)
  {
    hide Sum;
  }

  /** While voting is open every stake cast on a proposal is still locked, so its votes are part of the stakes. */
  lemma OpenVotesAreLocked<P(!new)>(next: nat, clock: int, ps: map<nat, P>, expiry: P -> i64, bs: Ballots, pid: nat)
    requires BallotsInv(next, clock, ps, expiry, bs)
    requires pid in ps && clock < expiry(ps[pid])
    ensures Sum(bs, CastOn(pid)) <= Sum(bs, LockedPower())
  {
    hide Sum;
    SumMonotone(bs, CastOn(pid), LockedPower());
  }

  /** All the power cast on one proposal fits in a u64, whatever was unlocked since. */
  lemma BallotsFit<P(!new)>(next: nat, clock: int, ps: map<nat, P>, expiry: P -> i64, bs: Ballots, pid: nat)
    requires BallotsInv(next, clock, ps, expiry, bs)
    ensures Sum(bs, CastFor(pid, Yes)) + Sum(bs, CastFor(pid, No)) + Sum(bs, CastFor(pid, Abstain))
            == Sum(bs, CastOn(pid)) <= U64_MAX
  {
    hide Sum;
    TallyParts(bs, pid);
  }

  /** Nothing has been cast on a proposal before it is opened. */
  lemma NothingCastYet<P(!new)>(next: nat, clock: int, ps: map<nat, P>, expiry: P -> i64, bs: Ballots)
    requires BallotsInv(next, clock, ps, expiry, bs)
    ensures TalliesMatch(Tallies(0, 0, 0), next, bs)
  {
    hide Sum;
    SumZero(bs, CastFor(next, Yes));
    SumZero(bs, CastFor(next, No));
    SumZero(bs, CastFor(next, Abstain));
  }
}
