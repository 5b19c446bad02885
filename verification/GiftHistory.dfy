/**
 * What it comes to that anyone may send tokens into an escrow. Gifts to sponsorships and bookings change nothing at
 * all, because those escrows are closed only if they are empty. A gift to a proposal's escrow, which is closed
 * without a look, keeps its pre-sponsorship from ever coming back and the approved module from ever being minted.
 */
module GiftHistory {
  import opened Machine
  import opened Pricing
  import opened Sums
  import opened Wallets
  import opened EducationState
  import opened EducationLedger
  import opened EducationRuns
  import opened GiftSteps
  import Governance = GovernanceSteps
  import opened DeliveryProofs
  import opened GovernanceProofs
  import opened GovernanceGuarantees
  import opened ProposalHistory

  // ----- gifts to sponsorships and bookings change nothing -----

  /** The same in everything but gifts, and the same proposals were given something. */
  ghost predicate SameButGifts(l: Ledger, l': Ledger) {
    && l' == l.(gifts := l'.gifts)
    && forall pid :: OfProposal(pid) in l.gifts <==> OfProposal(pid) in l'.gifts
  }

  // The two instructions that close an escrow without a look, and a gift itself.

  lemma MintIgnoresGifts(l: Ledger, l': Ledger, now: i64, c: GovernanceCall)
    requires SameButGifts(l, l') && (c.MintSponsored?)
    ensures GovernanceStep(l, now, c).Ok? <==> GovernanceStep(l', now, c).Ok?
    ensures GovernanceStep(l, now, c).Ok? ==>
              SameButGifts(GovernanceStep(l, now, c).value, GovernanceStep(l', now, c).value)
  {
    hide Sum, PricePerToken, Debit, Credit, Clamp, CheckedMul, World.HasRole, Governance.BuiltModule;
    match c {
      case MintSponsored(_, _) =>
    }
  }

  lemma ReclaimIgnoresGifts(l: Ledger, l': Ledger, now: i64, c: GovernanceCall)
    requires SameButGifts(l, l') && (c.ReclaimPreSponsor?)
    ensures GovernanceStep(l, now, c).Ok? <==> GovernanceStep(l', now, c).Ok?
    ensures GovernanceStep(l, now, c).Ok? ==>
              SameButGifts(GovernanceStep(l, now, c).value, GovernanceStep(l', now, c).value)
  {
    hide Sum, PricePerToken, Debit, Credit, Clamp, CheckedMul, World.HasRole;
    match c {
      case ReclaimPreSponsor(_, _) =>
    }
  }

  lemma SameAsset(l: Ledger, gs: Gifts, e: Escrow)
    ensures l.(gifts := gs).EscrowAsset(e) == l.EscrowAsset(e)
  {
  }

  lemma GivingIgnoresGifts(l: Ledger, l': Ledger, now: i64, c: GovernanceCall)
    requires SameButGifts(l, l') && (c.Donate?)
    ensures GovernanceStep(l, now, c).Ok? <==> GovernanceStep(l', now, c).Ok?
    ensures GovernanceStep(l, now, c).Ok? ==>
              SameButGifts(GovernanceStep(l, now, c).value, GovernanceStep(l', now, c).value)
  {
    hide Sum, PricePerToken, Debit, Credit, Clamp, CheckedMul, World.HasRole, GiftIn, Ledger.EscrowAsset;
    match c {
      case Donate(_, e, _) => SameAsset(l, l'.gifts, e);
    }
  }

  lemma GovernanceIgnoresGifts(l: Ledger, l': Ledger, now: i64, c: GovernanceCall)
    requires SameButGifts(l, l')
    ensures GovernanceStep(l, now, c).Ok? <==> GovernanceStep(l', now, c).Ok?
    ensures GovernanceStep(l, now, c).Ok? ==>
              SameButGifts(GovernanceStep(l, now, c).value, GovernanceStep(l', now, c).value)
  {
    hide GovernanceStep;
    if c.MintSponsored? {
      MintIgnoresGifts(l, l', now, c);
    } else if c.ReclaimPreSponsor? {
      ReclaimIgnoresGifts(l, l', now, c);
    } else if c.Donate? {
      GivingIgnoresGifts(l, l', now, c);
    } else {
      GovernanceIgnores(l, l'.gifts, now, c);
      GiftsStay(l, now, c);
    }
  }

  lemma GiftsStay(l: Ledger, now: i64, c: GovernanceCall)
    ensures GovernanceStep(l, now, c).Ok? && !c.Donate? ==> GovernanceStep(l, now, c).value.gifts == l.gifts
  {
    hide GovernanceStep;
    if GovernanceStep(l, now, c).Ok? {
      GovernanceFrame(l, now, c);
    }
  }

  /** Every step succeeds or fails alike whatever sponsorships and bookings were given, and does the same. */
  lemma StepIgnoresGifts(l: Ledger, l': Ledger, tx: Tx)
    requires SameButGifts(l, l')
    ensures Step(l, tx).Ok? <==> Step(l', tx).Ok?
    ensures SameButGifts(Apply(l, tx), Apply(l', tx))
  {
    hide DeliveryStep, GovernanceStep;
    match tx.call {
      case Deliver(c) =>
        DeliveryIgnores(l, l'.gifts, tx.now, c);
        if DeliveryStep(l, tx.now, c).Ok? {
          DeliveryFrame(l, tx.now, c);
        }
      case Govern(c) => GovernanceIgnoresGifts(l, l', tx.now, c);
    }
  }

  /**
   * So does a whole run: what sponsorships and bookings were given before it never decides whether any of its steps
   * succeeds, nor what becomes of any record, wallet or stake.
   */
  lemma {:induction false} RunIgnoresGifts(l: Ledger, l': Ledger, txs: seq<Tx>)
    requires SameButGifts(l, l')
    ensures SameButGifts(Run(l, txs), Run(l', txs))
    ensures forall i: nat :: i < |txs| ==> (Step(Run(l, txs[..i]), txs[i]).Ok? <==> Step(Run(l', txs[..i]), txs[i]).Ok?)
    decreases |txs|
  {
    hide Step, Apply, SameButGifts;
    if txs != [] {
      var n := |txs| - 1;
      RunIgnoresGifts(l, l', txs[..n]);
      StepIgnoresGifts(Run(l, txs[..n]), Run(l', txs[..n]), txs[n]);
      forall i: nat | i < n
        ensures Step(Run(l, txs[..i]), txs[i]).Ok? <==> Step(Run(l', txs[..i]), txs[i]).Ok?
      {
        assert txs[..n][..i] == txs[..i] && txs[..n][i] == txs[i];
      }
    }
  }

  // ----- a gift to a proposal's escrow stays, and keeps everything in it -----

  /** What one step adds to an escrow unasked. */
  ghost function Given(l: Ledger, tx: Tx, e: Escrow): nat {
    if Step(l, tx).Ok? && tx.call.Govern? && tx.call.governance.Donate? && tx.call.governance.escrow == e
    then tx.call.governance.amount else 0
  }

  lemma StepMovesGifts(l: Ledger, tx: Tx, e: Escrow)
    ensures GiftIn(Apply(l, tx).gifts, e) == GiftIn(l.gifts, e) + Given(l, tx, e)
    ensures e in l.gifts ==> e in Apply(l, tx).gifts
  {
    hide DeliveryStep, GovernanceStep;
    if Step(l, tx).Ok? {
      match tx.call {
        case Deliver(c) => DeliveryFrame(l, tx.now, c);
        case Govern(c) =>
          GiftsStay(l, tx.now, c);
          if c.Donate? {
            GiftAdded(l, tx.now, c, e);
          }
      }
    }
  }

  lemma GiftAdded(l: Ledger, now: i64, c: GovernanceCall, e: Escrow)
    requires c.Donate? && GovernanceStep(l, now, c).Ok?
    ensures var gs := GovernanceStep(l, now, c).value.gifts;
            GiftIn(gs, e) == GiftIn(l.gifts, e) + (if c.escrow == e then c.amount else 0) && l.gifts.Keys <= gs.Keys
  {
    hide Sum, Debit;
  }

  /** What a run adds to an escrow unasked: the amounts of its successful gifts to it. */
  ghost function GivenOver(l: Ledger, txs: seq<Tx>, e: Escrow): nat {
    if txs == [] then 0
    else
      var n := |txs| - 1;
      GivenOver(l, txs[..n], e) + Given(Run(l, txs[..n]), txs[n], e)
  }

  /** Nothing is ever taken out of what an escrow was given: it is what was there, and what the run gave. */
  lemma {:induction false} GiftsAddUp(l: Ledger, txs: seq<Tx>, e: Escrow)
    ensures GiftIn(Run(l, txs).gifts, e) == GiftIn(l.gifts, e) + GivenOver(l, txs, e)
    ensures e in l.gifts ==> e in Run(l, txs).gifts
    decreases |txs|
  {
    hide Step, Apply, Given;
    if txs != [] {
      var n := |txs| - 1;
      GiftsAddUp(l, txs[..n], e);
      StepMovesGifts(Run(l, txs[..n]), txs[n], e);
    }
  }

  /**
   * In any run from the start a rejected pre-sponsorship can be taken back exactly when no gift to its escrow ever
   * succeeded in that run.
   */
  lemma ReclaimDecided(w: World, txs: seq<Tx>, sponsor: Key, pid: nat)
    requires Inv(Start(w)) && Chronological(I64_MIN, txs)
    ensures var l := Run(Start(w), txs);
            Governance.ReclaimPreSponsor(l, sponsor, pid).Ok? <==>
              && pid in l.proposals && l.proposals[pid].preAmount > 0 && l.proposals[pid].status.Rejected?
              && sponsor == l.proposals[pid].proposer
              && GivenOver(Start(w), txs, OfProposal(pid)) == 0
  {
    hide Inv, Step, Apply, Given, GivenOver, Governance.ReclaimPreSponsor, Ledger.XcavTotal, Ledger.CashTotal;
    RunKeeps(Start(w), txs);
    GiftsAddUp(Start(w), txs, OfProposal(pid));
    PreSponsorComesBack(Run(Start(w), txs), sponsor, pid);
  }

  /** And an approved one can be minted by its builder, role and ids permitting, exactly under the same condition. */
  lemma MintDecided(w: World, txs: seq<Tx>, now: i64, creator: Key, pid: nat)
    requires Inv(Start(w)) && Chronological(I64_MIN, txs)
    ensures var l := Run(Start(w), txs);
            Governance.MintSponsored(l, now, creator, pid).Ok? <==>
              && pid in l.proposals && l.proposals[pid].status.Approved? && l.proposals[pid].preAmount > 0
              && l.proposals[pid].claimant == Some(creator) && l.world.HasRole(creator, ModuleCreator)
              && l.world.nextModule < U64_MAX && l.world.nextSponsor < U64_MAX
              && GivenOver(Start(w), txs, OfProposal(pid)) == 0
  {
    hide Inv, Step, Apply, Given, GivenOver, Governance.MintSponsored, Ledger.XcavTotal, Ledger.CashTotal;
    RunKeeps(Start(w), txs);
    GiftsAddUp(Start(w), txs, OfProposal(pid));
    SponsoredMintIff(Run(Start(w), txs), now, creator, pid);
  }

  /** The calls that would take a pre-sponsorship out of its escrow. */
  predicate Empties(c: Call, pid: nat) {
    && c.Govern?
    && (c.governance.MintSponsored? || c.governance.ReclaimPreSponsor?)
    && c.governance.pid == pid
  }

  /**
   * However a run goes on, a proposal whose escrow was given something stays, with its pre-sponsorship and at least
   * that gift in the escrow, and no step ever mints it or gives the pre-sponsorship back.
   */
  lemma {:induction false} GiftedStays(l: Ledger, txs: seq<Tx>, pid: nat)
    requires Inv(l) && Chronological(l.clock, txs) && GiftIn(l.gifts, OfProposal(pid)) > 0
    ensures pid in l.proposals && pid in Run(l, txs).proposals
    ensures SameOffer(l.proposals[pid], Run(l, txs).proposals[pid])
    ensures GiftIn(Run(l, txs).gifts, OfProposal(pid)) >= GiftIn(l.gifts, OfProposal(pid))
    ensures forall i: nat :: i < |txs| && Empties(txs[i].call, pid) ==> Step(Run(l, txs[..i]), txs[i]).Err?
    decreases |txs|
  {
    hide Inv, Step, Apply, Ledger.XcavTotal, Ledger.CashTotal;
    GiftAt(l, OfProposal(pid));
    if txs != [] {
      var n := |txs| - 1;
      ChronologicalPrefix(l.clock, txs, n);
      GiftedStays(l, txs[..n], pid);
      AlongRun(l, txs, n);
      assert txs[..n + 1] == txs;
      var before := Run(l, txs[..n]);
      StepMovesGifts(before, txs[n], OfProposal(pid));
      GiftedStep(before, txs[n], pid);
      forall i: nat | i < n && Empties(txs[i].call, pid)
        ensures Step(Run(l, txs[..i]), txs[i]).Err?
      {
        assert txs[..n][..i] == txs[..i] && txs[..n][i] == txs[i];
      }
    }
  }

  lemma GiftedStep(l: Ledger, tx: Tx, pid: nat)
    requires Inv(l) && l.clock <= tx.now && GiftIn(l.gifts, OfProposal(pid)) > 0
    ensures pid in l.proposals && pid in Apply(l, tx).proposals
    ensures SameOffer(l.proposals[pid], Apply(l, tx).proposals[pid])
    ensures Empties(tx.call, pid) ==> Step(l, tx).Err?
  {
    hide Inv, DeliveryStep, GovernanceStep, Ledger.XcavTotal, Ledger.CashTotal, Work;
    GiftAt(l, OfProposal(pid));
    ApplyKeeps(l, tx);
    KeepsInv(l, Apply(l, tx));
    StepMovesGifts(l, tx, OfProposal(pid));
    GiftAt(Apply(l, tx), OfProposal(pid));
    StepMovesProposal(l, tx, pid);
    if Empties(tx.call, pid) {
      match tx.call.governance {
        case MintSponsored(creator, _) => SponsoredMintIff(l, tx.now, creator, pid);
        case ReclaimPreSponsor(sponsor, _) => PreSponsorComesBack(l, sponsor, pid);
      }
      GovernanceUnfolds(l, tx.now, tx.call.governance);
    }
  }

  lemma GovernanceUnfolds(l: Ledger, now: i64, c: GovernanceCall)
    ensures c.MintSponsored? ==> GovernanceStep(l, now, c) == Governance.MintSponsored(l, now, c.creator, c.pid)
    ensures c.ReclaimPreSponsor? ==> GovernanceStep(l, now, c) == Governance.ReclaimPreSponsor(l, c.sponsor, c.pid)
  {
    hide Governance.MintSponsored, Governance.ReclaimPreSponsor;
  }

  lemma GiftedApprovalStep(l: Ledger, tx: Tx, pid: nat)
    requires Inv(l) && l.clock <= tx.now && GiftIn(l.gifts, OfProposal(pid)) > 0
    requires pid in l.proposals && l.proposals[pid].status.Approved?
    ensures pid in Apply(l, tx).proposals
    ensures Apply(l, tx).proposals[pid] == l.proposals[pid]
            || (Step(l, tx).Ok? && tx.call == Govern(ExpireProposal(pid))
                && Apply(l, tx).world.treasury == l.world.treasury + l.proposals[pid].bond)
  {
    hide Inv, DeliveryStep, GovernanceStep, Ledger.XcavTotal, Ledger.CashTotal, Work;
    GiftedStep(l, tx, pid);
    ClaimantAt(l, pid);
    StepMovesProposal(l, tx, pid);
    ApplyKeeps(l, tx);
    KeepsInv(l, Apply(l, tx));
    ProposalAt(Apply(l, tx), pid);
  }

  /** The i-th step is the proposal expiring, with its bond slashed. */
  ghost predicate ExpiresAt(l: Ledger, txs: seq<Tx>, i: nat, pid: nat, bond: u64)
    requires i < |txs|
  {
    && Step(Run(l, txs[..i]), txs[i]).Ok? && txs[i].call == Govern(ExpireProposal(pid))
    && Run(l, txs[..i + 1]).world.treasury == Run(l, txs[..i]).world.treasury + bond
  }

  lemma ExpiryPrefix(l: Ledger, txs: seq<Tx>, n: nat, i: nat, pid: nat, bond: u64)
    requires i < n <= |txs| && ExpiresAt(l, txs[..n], i, pid, bond)
    ensures ExpiresAt(l, txs, i, pid, bond)
  {
    hide Step, Run;
    assert txs[..n][..i] == txs[..i] && txs[..n][..i + 1] == txs[..i + 1] && txs[..n][i] == txs[i];
  }

  lemma ExpiryHere(l: Ledger, txs: seq<Tx>, i: nat, pid: nat, bond: u64)
    requires i < |txs| && Step(Run(l, txs[..i]), txs[i]).Ok? && txs[i].call == Govern(ExpireProposal(pid))
    requires Apply(Run(l, txs[..i]), txs[i]).world.treasury == Run(l, txs[..i]).world.treasury + bond
    ensures ExpiresAt(l, txs, i, pid, bond)
  {
    hide Step, Apply;
    assert txs[..i + 1][..i] == txs[..i];
  }

  /**
   * So the builder of an approved proposal whose escrow was given something can only lose their bond: however the
   * run goes on, the proposal waits as it is until it expires, and then the bond goes to the treasury.
   */
  lemma {:induction false} GiftCostsBuilder(l: Ledger, txs: seq<Tx>, pid: nat)
    requires Inv(l) && Chronological(l.clock, txs) && GiftIn(l.gifts, OfProposal(pid)) > 0
    requires pid in l.proposals && l.proposals[pid].status.Approved?
    ensures pid in Run(l, txs).proposals
    ensures Run(l, txs).proposals[pid] == l.proposals[pid]
            || exists i: nat :: i < |txs| && ExpiresAt(l, txs, i, pid, l.proposals[pid].bond)
    decreases |txs|
  {
    hide Inv, Step, Apply, Ledger.XcavTotal, Ledger.CashTotal, ExpiresAt;
    if txs != [] {
      var n, bond := |txs| - 1, l.proposals[pid].bond;
      ChronologicalPrefix(l.clock, txs, n);
      GiftCostsBuilder(l, txs[..n], pid);
      AlongRun(l, txs, n);
      assert txs[..n + 1] == txs;
      GiftedStays(l, txs[..n], pid);
      GiftedStays(l, txs, pid);
      if i: nat :| i < n && ExpiresAt(l, txs[..n], i, pid, bond) {
        ExpiryPrefix(l, txs, n, i, pid, bond);
      } else {
        GiftedApprovalStep(Run(l, txs[..n]), txs[n], pid);
        if Run(l, txs).proposals[pid] != l.proposals[pid] {
          ExpiryHere(l, txs, n, pid, bond);
        }
      }
    }
  }

  /**
   * The input that makes both fail: any holder of a unit of its asset can send it to the escrow of a pre-sponsored
   * proposal, at any stage, and from then on no run mints the proposal or returns its pre-sponsorship.
   */
  lemma OneUnitStrands(l: Ledger, now: i64, from: Key, pid: nat, txs: seq<Tx>)
    requires Inv(l) && l.clock <= now && pid in l.proposals && l.proposals[pid].preAmount > 0
    requires Balance(l.world.cash, (l.proposals[pid].asset, from)) > 0
    ensures var gift := Tx(now, Govern(Donate(from, OfProposal(pid), 1)));
            && Step(l, gift).Ok?
            && (Chronological(now, txs) ==>
                  var l' := Apply(l, gift);
                  forall i: nat :: i < |txs| && Empties(txs[i].call, pid) ==> Step(Run(l', txs[..i]), txs[i]).Err?)
  {
    hide Inv, Step, Ledger.XcavTotal, Ledger.CashTotal;
    var gift := Tx(now, Govern(Donate(from, OfProposal(pid), 1)));
    UnitAccepted(l, now, from, pid);
    ApplyKeeps(l, gift);
    KeepsInv(l, Apply(l, gift));
    StepMovesGifts(l, gift, OfProposal(pid));
    if Chronological(now, txs) {
      StepClock(l, gift);
      GiftedStays(Apply(l, gift), txs, pid);
    }
  }

  lemma UnitAccepted(l: Ledger, now: i64, from: Key, pid: nat)
    requires pid in l.proposals && l.proposals[pid].preAmount > 0
    requires Balance(l.world.cash, (l.proposals[pid].asset, from)) > 0
    ensures Step(l, Tx(now, Govern(Donate(from, OfProposal(pid), 1)))).Ok?
  {
    hide Sum;
  }
}
