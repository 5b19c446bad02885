/** Every instruction of the proposal side keeps the ledger's invariant and every token total. */
module GovernanceProofs {
  import opened Machine
  import opened Pricing
  import opened Sums
  import opened Wallets
  import opened Voting
  import opened EducationState
  import opened EducationLedger
  import opened LedgerSums
  import opened RecordProofs
  import opened GovernanceSteps
  import opened DeliveryProofs

  type Proposals = map<nat, Proposal>

  // ----- parts of the invariant -----

  lemma ProposalAt(l: Ledger, pid: nat)
    requires Inv(l)
    ensures pid in l.proposals ==>
              ProposalOk(l.world.nextProposal, l.world.regions, l.world.decimals, pid, l.proposals[pid])
  {
    hide Sum, PricePerToken, ModulesInv, SponsorshipsInv, BookingsInv, CancellationsInv, BallotsInv, GiftsInv,
         ProposalOk;
  }

  /** A reserved, reviewed or approved proposal has a claimant. */
  lemma ClaimantAt(l: Ledger, pid: nat)
    requires Inv(l)
    ensures pid in l.proposals && l.proposals[pid].status in {Claimed, UnderReview, Approved} ==>
            l.proposals[pid].claimant.Some?
  {
    hide Sum, PricePerToken, ModulesInv, SponsorshipsInv, BookingsInv, CancellationsInv, BallotsInv, GiftsInv;
  }

  lemma PutProposals(next: nat, next': nat, regions: map<u16, Key>, dec: Decimals, ps: Proposals, pid: nat, p: Proposal)
    requires ProposalsInv(next, regions, dec, ps) && next <= next' && ProposalOk(next', regions, dec, pid, p)
    ensures ProposalsInv(next', regions, dec, ps[pid := p])
  {
    hide PricePerToken, ProposalShape;
  }

  lemma DropProposals(next: nat, regions: map<u16, Key>, dec: Decimals, ps: Proposals, pid: nat)
    requires ProposalsInv(next, regions, dec, ps)
    ensures ProposalsInv(next, regions, dec, ps - {pid})
  {
    hide PricePerToken, ProposalShape;
  }

  lemma DecidedShape(p: Proposal, passed: bool, deadline: i64)
    requires ProposalShape(p) && p.status.Voting?
    ensures ProposalShape(Decided(p, passed, deadline))
  {
  }

  lemma ReviewedShape(p: Proposal, passed: bool, deadline: i64)
    requires ProposalShape(p) && p.status.UnderReview?
    ensures ProposalShape(Reviewed(p, passed, deadline))
    ensures StakeOf(p) == StakeOf(Reviewed(p, passed, deadline)) + (if passed || p.failures == 0 then 0 else p.bond)
  {
  }

  /** A review never touches what the proposal was opened with. */
  lemma ReviewedSame(p: Proposal, passed: bool, deadline: i64)
    requires p.claimant.Some?
    ensures var p' := Reviewed(p, passed, deadline);
            p' == Proposal(p.proposer, p.role, p.region, p'.status, p.expiry, p.deposit, p.amount, p.terms,
                           p'.claimant, p'.bond, p'.uploadDeadline, p'.failures, p'.banned, p.buildDeadline,
                           p.asset, p.preAmount, p.prePrice)
  {
  }

  /** Rewriting a proposal moves only its stake; the payment locked with it stays put. */
  lemma PutProposalTotals(ps: Proposals, pid: nat, p: Proposal)
    requires pid in ps && p.asset == ps[pid].asset && p.preAmount == ps[pid].preAmount && p.prePrice == ps[pid].prePrice
    ensures Sum(ps[pid := p], ProposalStake()) + StakeOf(ps[pid]) == Sum(ps, ProposalStake()) + StakeOf(p)
    ensures forall a :: Sum(ps[pid := p], PreSponsored(a)) == Sum(ps, PreSponsored(a))
  {
    hide Sum;
    PutProposal(ps, pid, p);
  }

  lemma MoreRegions(l: Ledger, region: u16, owner: Key)
    requires Inv(l)
    ensures var regions := l.world.regions[region := owner];
            && ModulesInv(l.world.nextModule, regions, l.modules, l.sponsorships, l.bookings)
            && ProposalsInv(l.world.nextProposal, regions, l.world.decimals, l.proposals)
  {
    hide Sum, PricePerToken, SponsorshipsInv, BookingsInv, CancellationsInv, BallotsInv, GiftsInv, ProposalShape,
         Unsponsored;
  }

  // ----- the instructions -----

  /** While voting is open no vote on it has been unlocked. */
  lemma OpenVote(l: Ledger, k: (nat, Key))
    requires Inv(l)
    ensures k in l.ballots && k.0 in l.proposals ==>
              l.ballots[k].expiry == l.proposals[k.0].expiry
                 && (l.clock < l.proposals[k.0].expiry ==> l.ballots[k].locked)
  {
    hide Sum, PricePerToken, ModulesInv, SponsorshipsInv, BookingsInv, CancellationsInv, ProposalsInv, BallotsInv,
         GiftsInv;
    OpenBallotIsLocked(l.world.nextProposal, l.clock, l.proposals, ExpiryOf, l.ballots, k);
  }

  /** All the power cast on one proposal fits in a u64, whatever was unlocked since. */
  lemma TallyFits(l: Ledger, pid: nat)
    requires Inv(l)
    ensures Sum(l.ballots, CastOn(pid)) <= U64_MAX
    ensures l.Tally(pid, Yes) + l.Tally(pid, No) + l.Tally(pid, Abstain) == Sum(l.ballots, CastOn(pid))
  {
    hide Sum, PricePerToken, ModulesInv, SponsorshipsInv, BookingsInv, CancellationsInv, ProposalsInv, BallotsInv,
         GiftsInv;
    BallotsFit(l.world.nextProposal, l.clock, l.proposals, ExpiryOf, l.ballots, pid);
  }

  lemma FreshProposal(l: Ledger)
    requires Inv(l)
    ensures l.world.nextProposal !in l.proposals
  {
    hide Sum, PricePerToken, ModulesInv, SponsorshipsInv, BookingsInv, CancellationsInv, BallotsInv, GiftsInv,
         ProposalShape;
  }

  lemma CreateProposalKeeps(l: Ledger, now: i64, proposer: Key, role: Role, region: u16, amount: u64)
    requires Inv(l) && l.clock <= now && CreateProposal(l, now, proposer, role, region, amount).Ok?
    ensures Keeps(l, CreateProposal(l, now, proposer, role, region, amount).value)
  {
    hide Sum, PricePerToken, ModulesInv, SponsorshipsInv, BookingsInv, CancellationsInv, ProposalsInv, BallotsInv,
         GiftsInv;
    var w, l' := l.world, CreateProposal(l, now, proposer, role, region, amount).value;
    var pid, p := w.nextProposal, l'.proposals[w.nextProposal];
    FreshProposal(l);
    DebitHeld(w.xcav, proposer, w.config.proposalDeposit);
    PutProposals(pid, pid + 1, w.regions, w.decimals, l.proposals, pid, p);
    LaterBallots(w.nextProposal, l.clock, now, l.proposals, ExpiryOf, l.ballots);
    PutProposalBallots(pid, pid + 1, now, l.proposals, ExpiryOf, l.ballots, pid, p);
    AddProposal(l.proposals, pid, p);
    GiftsKept(l, l');
  }

  lemma CreateSponsorProposalKeeps(l: Ledger, now: i64, proposer: Key, region: u16, amount: u64, asset: Key)
    requires Inv(l) && l.clock <= now && CreateSponsorProposal(l, now, proposer, region, amount, asset).Ok?
    ensures Keeps(l, CreateSponsorProposal(l, now, proposer, region, amount, asset).value)
  {
    hide Sum, PricePerToken, ModulesInv, SponsorshipsInv, BookingsInv, CancellationsInv, ProposalsInv, BallotsInv,
         GiftsInv;
    var w, l' := l.world, CreateSponsorProposal(l, now, proposer, region, amount, asset).value;
    var pid, p := w.nextProposal, l'.proposals[w.nextProposal];
    FreshProposal(l);
    DebitHeld(w.xcav, proposer, w.config.proposalDeposit);
    PutProposals(pid, pid + 1, w.regions, w.decimals, l.proposals, pid, p);
    LaterBallots(w.nextProposal, l.clock, now, l.proposals, ExpiryOf, l.ballots);
    PutProposalBallots(pid, pid + 1, now, l.proposals, ExpiryOf, l.ballots, pid, p);
    AddProposal(l.proposals, pid, p);
    var total := p.preAmount * p.prePrice;
    assert total == p.prePrice * p.preAmount;
    DebitHeldIn(w.cash, (asset, proposer), total);
    GiftsKept(l, l');
  }

  lemma VoteOnProposalKeeps(l: Ledger, now: i64, voter: Key, pid: nat, vote: Vote, amount: u64)
    requires Inv(l) && l.clock <= now && VoteOnProposal(l, now, voter, pid, vote, amount).Ok?
    ensures Keeps(l, VoteOnProposal(l, now, voter, pid, vote, amount).value)
  {
    hide Sum, PricePerToken, ModulesInv, SponsorshipsInv, BookingsInv, CancellationsInv, ProposalsInv, BallotsInv,
         GiftsInv;
    var w, l' := l.world, VoteOnProposal(l, now, voter, pid, vote, amount).value;
    ProposalAt(l, pid);
    var k := (pid, voter);
    var b := l'.ballots[k];
    var refunded := if k in l.ballots then Pay(w.xcav, voter, l.ballots[k].power) else w.xcav;
    if k in l.ballots {
      OpenBallotIsLocked(w.nextProposal, l.clock, l.proposals, ExpiryOf, l.ballots, k);
      CreditHeld(w.xcav, voter, l.ballots[k].power);
    }
    DebitHeld(refunded, voter, amount);
    PutBallot(l.ballots, k, b);
    assert l'.XcavTotal() == l.XcavTotal();
    CastBallots(w.nextProposal, l.clock, now, l.proposals, ExpiryOf, l.ballots, k, b);
  }

  /** Taking a voter's old power out of its tally and adding the new one keeps the tallies what the ballots say. */
  lemma VoteCounted(l: Ledger, now: i64, voter: Key, pid: nat, vote: Vote, amount: u64, t: Tallies)
    requires Inv(l) && l.clock <= now && VoteOnProposal(l, now, voter, pid, vote, amount).Ok?
    requires TalliesMatch(t, pid, l.ballots)
    ensures var k := (pid, voter);
            var b := Ballot(vote, amount, l.proposals[pid].expiry, true);
            var t' := if k in l.ballots then t.Sub(l.ballots[k].vote, l.ballots[k].power) else t;
            t'.Add(vote, amount).Ok? && TalliesMatch(t'.Add(vote, amount).value, pid, l.ballots[k := b])
  {
    hide Sum, Inv, Keeps, Debit, Pay, Tallies.Sub, Tallies.Add, TalliesMatch, Ledger.XcavTotal, Ledger.CashTotal;
    VoteOnProposalKeeps(l, now, voter, pid, vote, amount);
    KeepsInv(l, VoteOnProposal(l, now, voter, pid, vote, amount).value);
    TallyFits(VoteOnProposal(l, now, voter, pid, vote, amount).value, pid);
    VoteRecounted(t, l.ballots, (pid, voter), Ballot(vote, amount, l.proposals[pid].expiry, true));
  }

  lemma KeepsInv(l: Ledger, l': Ledger)
    requires Keeps(l, l')
    ensures Inv(l')
  {
    hide Inv, Ledger.XcavTotal, Ledger.CashTotal;
  }

  lemma FinalizeProposalKeeps(l: Ledger, now: i64, pid: nat)
    requires Inv(l) && l.clock <= now && FinalizeProposal(l, now, pid).Ok?
    ensures Keeps(l, FinalizeProposal(l, now, pid).value)
  {
    hide Sum, PricePerToken, ModulesInv, SponsorshipsInv, BookingsInv, CancellationsInv, ProposalsInv, BallotsInv,
         GiftsInv;
    var w, l' := l.world, FinalizeProposal(l, now, pid).value;
    ProposalAt(l, pid);
    var p, p' := l.proposals[pid], l'.proposals[pid];
    hide VotePasses, ProposalShape;
    CreditHeld(w.xcav, p.proposer, p.deposit);
    DecidedShape(p, p'.status.Claimable?, Clamp(now + w.config.claimPeriod));
    PutProposals(w.nextProposal, w.nextProposal, w.regions, w.decimals, l.proposals, pid, p');
    LaterBallots(w.nextProposal, l.clock, now, l.proposals, ExpiryOf, l.ballots);
    PutProposalBallots(w.nextProposal, w.nextProposal, l'.clock, l.proposals, ExpiryOf, l.ballots, pid, p');
    PutProposalTotals(l.proposals, pid, p');
    GiftsKept(l, l');
  }

  lemma UnlockVoteKeeps(l: Ledger, now: i64, voter: Key, pid: nat)
    requires Inv(l) && l.clock <= now && UnlockVote(l, now, voter, pid).Ok?
    ensures Keeps(l, UnlockVote(l, now, voter, pid).value)
  {
    hide Sum, PricePerToken, ModulesInv, SponsorshipsInv, BookingsInv, CancellationsInv, ProposalsInv, BallotsInv,
         GiftsInv;
    var w, l' := l.world, UnlockVote(l, now, voter, pid).value;
    var k := (pid, voter);
    CreditHeld(w.xcav, voter, l.ballots[k].power);
    UnlockBallots(w.nextProposal, l.clock, now, l.proposals, ExpiryOf, l.ballots, k);
    PutBallot(l.ballots, k, l'.ballots[k]);
  }

  lemma ClaimProposalKeeps(l: Ledger, now: i64, creator: Key, pid: nat)
    requires Inv(l) && l.clock <= now && ClaimProposal(l, now, creator, pid).Ok?
    ensures Keeps(l, ClaimProposal(l, now, creator, pid).value)
  {
    hide Sum, PricePerToken, ModulesInv, SponsorshipsInv, BookingsInv, CancellationsInv, ProposalsInv, BallotsInv,
         GiftsInv;
    var w, l' := l.world, ClaimProposal(l, now, creator, pid).value;
    ProposalAt(l, pid);
    var p, p' := l.proposals[pid], l'.proposals[pid];
    DebitHeld(w.xcav, creator, w.config.moduleDeposit);
    PutProposals(w.nextProposal, w.nextProposal, w.regions, w.decimals, l.proposals, pid, p');
    LaterBallots(w.nextProposal, l.clock, now, l.proposals, ExpiryOf, l.ballots);
    PutProposalBallots(w.nextProposal, w.nextProposal, l'.clock, l.proposals, ExpiryOf, l.ballots, pid, p');
    PutProposalTotals(l.proposals, pid, p');
    GiftsKept(l, l');
  }

  lemma UploadProposalKeeps(l: Ledger, claimant: Key, pid: nat)
    requires Inv(l) && UploadProposal(l, claimant, pid).Ok?
    ensures Keeps(l, UploadProposal(l, claimant, pid).value)
  {
    hide Sum, PricePerToken, ModulesInv, SponsorshipsInv, BookingsInv, CancellationsInv, ProposalsInv, BallotsInv,
         GiftsInv;
    var w, l' := l.world, UploadProposal(l, claimant, pid).value;
    ProposalAt(l, pid);
    var p, p' := l.proposals[pid], l'.proposals[pid];
    PutProposals(w.nextProposal, w.nextProposal, w.regions, w.decimals, l.proposals, pid, p');
    PutProposalBallots(w.nextProposal, w.nextProposal, l'.clock, l.proposals, ExpiryOf, l.ballots, pid, p');
    PutProposalTotals(l.proposals, pid, p');
    GiftsKept(l, l');
  }

  lemma ReleaseClaimKeeps(l: Ledger, now: i64, pid: nat)
    requires Inv(l) && l.clock <= now && ReleaseClaim(l, now, pid).Ok?
    ensures Keeps(l, ReleaseClaim(l, now, pid).value)
  {
    hide Sum, PricePerToken, ModulesInv, SponsorshipsInv, BookingsInv, CancellationsInv, ProposalsInv, BallotsInv,
         GiftsInv;
    var w, l' := l.world, ReleaseClaim(l, now, pid).value;
    ProposalAt(l, pid);
    var p, p' := l.proposals[pid], l'.proposals[pid];
    PutProposals(w.nextProposal, w.nextProposal, w.regions, w.decimals, l.proposals, pid, p');
    LaterBallots(w.nextProposal, l.clock, now, l.proposals, ExpiryOf, l.ballots);
    PutProposalBallots(w.nextProposal, w.nextProposal, l'.clock, l.proposals, ExpiryOf, l.ballots, pid, p');
    PutProposalTotals(l.proposals, pid, p');
    GiftsKept(l, l');
  }

  lemma ReviewProposalKeeps(l: Ledger, now: i64, agent: Key, pid: nat, passed: bool)
    requires Inv(l) && l.clock <= now && ReviewProposal(l, now, agent, pid, passed).Ok?
    ensures Keeps(l, ReviewProposal(l, now, agent, pid, passed).value)
  {
    hide Sum, PricePerToken, ModulesInv, SponsorshipsInv, BookingsInv, CancellationsInv, ProposalsInv, BallotsInv,
         GiftsInv;
    var w, l' := l.world, ReviewProposal(l, now, agent, pid, passed).value;
    ProposalAt(l, pid);
    var p, p' := l.proposals[pid], l'.proposals[pid];
    hide ProposalShape, StakeOf, Reviewed;
    ReviewedShape(p, passed, Clamp(now + w.config.uploadPeriod));
    ReviewedSame(p, passed, Clamp(now + w.config.uploadPeriod));
    PutProposals(w.nextProposal, w.nextProposal, w.regions, w.decimals, l.proposals, pid, p');
    LaterBallots(w.nextProposal, l.clock, now, l.proposals, ExpiryOf, l.ballots);
    PutProposalBallots(w.nextProposal, w.nextProposal, l'.clock, l.proposals, ExpiryOf, l.ballots, pid, p');
    PutProposalTotals(l.proposals, pid, p');
    GiftsKept(l, l');
  }

  lemma MintProposedKeeps(l: Ledger, creator: Key, pid: nat)
    requires Inv(l) && MintProposed(l, creator, pid).Ok?
    ensures Keeps(l, MintProposed(l, creator, pid).value)
  {
    hide Sum, PricePerToken, ModulesInv, SponsorshipsInv, BookingsInv, CancellationsInv, ProposalsInv, BallotsInv,
         GiftsInv;
    var w, l' := l.world, MintProposed(l, creator, pid).value;
    ProposalAt(l, pid);
    var p, mid := l.proposals[pid], w.nextModule;
    var m := BuiltModule(p, creator);
    CreateModules(w.nextModule, w.regions, w.nextBooking, w.nextSponsor, w.decimals, l.modules, l.sponsorships,
                  l.bookings, l.deliverers, m.base);
    CreateSponsorships(w.nextModule, w.nextSponsor, w.decimals, l.modules, l.sponsorships, l.bookings, m);
    CreateBookings(w.nextBooking, l.modules, l.sponsorships, l.bookings, l.deliverers, mid, m);
    PutModule(l.modules, mid, m);
    DropProposals(w.nextProposal, w.regions, w.decimals, l.proposals, pid);
    DropProposal(l.proposals, pid);
    DropProposalBallots(w.nextProposal, l.clock, l.proposals, ExpiryOf, l.ballots, pid);
    GiftAt(l, OfProposal(pid));
    GiftsKept(l, l');
  }

  lemma MintSponsoredKeeps(l: Ledger, now: i64, creator: Key, pid: nat)
    requires Inv(l) && l.clock <= now && MintSponsored(l, now, creator, pid).Ok?
    ensures Keeps(l, MintSponsored(l, now, creator, pid).value)
  {
    hide Sum, PricePerToken, ModulesInv, SponsorshipsInv, BookingsInv, CancellationsInv, ProposalsInv, BallotsInv,
         GiftsInv;
    hide Balance, Clamp, World.HasRole;
    var w, l' := l.world, MintSponsored(l, now, creator, pid).value;
    ProposalAt(l, pid);
    var p, mid := l.proposals[pid], w.nextModule;
    var m := BuiltModule(p, creator);
    CreateModules(w.nextModule, w.regions, w.nextBooking, w.nextSponsor, w.decimals, l.modules, l.sponsorships,
                  l.bookings, l.deliverers, m.base);
    CreateSponsorships(w.nextModule, w.nextSponsor, w.decimals, l.modules, l.sponsorships, l.bookings, m);
    CreateBookings(w.nextBooking, l.modules, l.sponsorships, l.bookings, l.deliverers, mid, m);
    PutModule(l.modules, mid, m);
    DropProposals(w.nextProposal, w.regions, w.decimals, l.proposals, pid);
    DropProposal(l.proposals, pid);
    var id := (mid, w.nextSponsor);
    var s := l'.sponsorships[id];
    FundSponsorships(mid + 1, w.nextSponsor, w.decimals, w.nextBooking, l'.modules, l.sponsorships, l.bookings,
                     l.deliverers, id, s);
    FundModules(mid + 1, w.regions, l'.modules, l.sponsorships, l.bookings, id, s);
    FundBookings(w.nextBooking, l'.modules, l.sponsorships, l.bookings, l.deliverers, id, s);
    AddFunding(l.sponsorships, id, s);
    LaterBallots(w.nextProposal, l.clock, now, l.proposals, ExpiryOf, l.ballots);
    DropProposalBallots(w.nextProposal, now, l.proposals, ExpiryOf, l.ballots, pid);
    GiftsKept(l, l');
  }

  lemma BondSettledTotal(w: World, p: Proposal)
    requires p.bond > 0 && p.status.UnderReview? ==> p.claimant.Some?
    ensures var w' := BondSettled(w, p);
            && w' == w.(xcav := w'.xcav, treasury := w'.treasury)
            && Sum(w'.xcav, Held()) + w'.treasury == Sum(w.xcav, Held()) + w.treasury + p.bond
  {
    hide Sum, Credit;
    if p.status.UnderReview? && p.bond > 0 {
      CreditHeld(w.xcav, p.claimant.value, p.bond);
    }
  }

  lemma ExpireProposalKeeps(l: Ledger, now: i64, pid: nat)
    requires Inv(l) && l.clock <= now && ExpireProposal(l, now, pid).Ok?
    ensures Keeps(l, ExpireProposal(l, now, pid).value)
  {
    hide Sum, PricePerToken, ModulesInv, SponsorshipsInv, BookingsInv, CancellationsInv, ProposalsInv, BallotsInv,
         GiftsInv;
    hide Balance, Clamp, World.HasRole;
    var w, l' := l.world, ExpireProposal(l, now, pid).value;
    ProposalAt(l, pid);
    var p, p' := l.proposals[pid], l'.proposals[pid];
    BondSettledTotal(w, p);
    PutProposals(w.nextProposal, w.nextProposal, w.regions, w.decimals, l.proposals, pid, p');
    LaterBallots(w.nextProposal, l.clock, now, l.proposals, ExpiryOf, l.ballots);
    PutProposalBallots(w.nextProposal, w.nextProposal, l'.clock, l.proposals, ExpiryOf, l.ballots, pid, p');
    PutProposalTotals(l.proposals, pid, p');
    GiftsKept(l, l');
  }

  lemma ReclaimPreSponsorKeeps(l: Ledger, sponsor: Key, pid: nat)
    requires Inv(l) && ReclaimPreSponsor(l, sponsor, pid).Ok?
    ensures Keeps(l, ReclaimPreSponsor(l, sponsor, pid).value)
  {
    hide Sum, PricePerToken, ModulesInv, SponsorshipsInv, BookingsInv, CancellationsInv, ProposalsInv, BallotsInv,
         GiftsInv;
    var w, l' := l.world, ReclaimPreSponsor(l, sponsor, pid).value;
    ProposalAt(l, pid);
    var p := l.proposals[pid];
    DropProposals(w.nextProposal, w.regions, w.decimals, l.proposals, pid);
    DropProposal(l.proposals, pid);
    DropProposalBallots(w.nextProposal, l.clock, l.proposals, ExpiryOf, l.ballots, pid);
    CreditHeldIn(w.cash, (p.asset, sponsor), p.preAmount * p.prePrice);
    GiftsKept(l, l');
  }

  lemma ClearProposalKeeps(l: Ledger, pid: nat)
    requires Inv(l) && ClearProposal(l, pid).Ok?
    ensures Keeps(l, ClearProposal(l, pid).value)
  {
    hide Sum, PricePerToken, ModulesInv, SponsorshipsInv, BookingsInv, CancellationsInv, ProposalsInv, BallotsInv,
         GiftsInv;
    var w, l' := l.world, ClearProposal(l, pid).value;
    ProposalAt(l, pid);
    var p := l.proposals[pid];
    DropProposals(w.nextProposal, w.regions, w.decimals, l.proposals, pid);
    DropProposal(l.proposals, pid);
    DropProposalBallots(w.nextProposal, l.clock, l.proposals, ExpiryOf, l.ballots, pid);
    GiftAt(l, OfProposal(pid));
    GiftsKept(l, l');
  }

  // ----- the authority and the outside world -----

  lemma UpdateConfigKeeps(l: Ledger, authority: Key, c: Config)
    requires Inv(l) && UpdateConfig(l, authority, c).Ok?
    ensures Keeps(l, UpdateConfig(l, authority, c).value)
  {
    hide Sum, PricePerToken, ModulesInv, SponsorshipsInv, BookingsInv, CancellationsInv, ProposalsInv, BallotsInv,
         GiftsInv;
    var w, l' := l.world, UpdateConfig(l, authority, c).value;
  }

  lemma UpdateAuthorityKeeps(l: Ledger, authority: Key, successor: Key)
    requires Inv(l) && UpdateAuthority(l, authority, successor).Ok?
    ensures Keeps(l, UpdateAuthority(l, authority, successor).value)
  {
    hide Sum, PricePerToken, ModulesInv, SponsorshipsInv, BookingsInv, CancellationsInv, ProposalsInv, BallotsInv,
         GiftsInv;
    var w, l' := l.world, UpdateAuthority(l, authority, successor).value;
  }

  lemma SetRoleKeeps(l: Ledger, k: Key, r: Role, held: bool)
    requires Inv(l) && SetRole(l, k, r, held).Ok?
    ensures Keeps(l, SetRole(l, k, r, held).value)
  {
    hide Sum, PricePerToken, ModulesInv, SponsorshipsInv, BookingsInv, CancellationsInv, ProposalsInv, BallotsInv,
         GiftsInv;
    var w, l' := l.world, SetRole(l, k, r, held).value;
  }

  lemma SetRegionOwnerKeeps(l: Ledger, region: u16, owner: Key)
    requires Inv(l) && SetRegionOwner(l, region, owner).Ok?
    ensures Keeps(l, SetRegionOwner(l, region, owner).value)
  {
    hide Sum, PricePerToken, ModulesInv, SponsorshipsInv, BookingsInv, CancellationsInv, ProposalsInv, BallotsInv,
         GiftsInv;
    var w, l' := l.world, SetRegionOwner(l, region, owner).value;
    MoreRegions(l, region, owner);
  }

  lemma TransferXcavKeeps(l: Ledger, from: Key, to: Key, amount: u64)
    requires Inv(l) && TransferXcav(l, from, to, amount).Ok?
    ensures Keeps(l, TransferXcav(l, from, to, amount).value)
  {
    hide Sum, PricePerToken, ModulesInv, SponsorshipsInv, BookingsInv, CancellationsInv, ProposalsInv, BallotsInv,
         GiftsInv;
    var w, l' := l.world, TransferXcav(l, from, to, amount).value;
    DebitHeld(w.xcav, from, amount);
    CreditHeld(Debit(w.xcav, from, amount).value, to, amount);
  }

  lemma TransferCashKeeps(l: Ledger, asset: Key, from: Key, to: Key, amount: u64)
    requires Inv(l) && TransferCash(l, asset, from, to, amount).Ok?
    ensures Keeps(l, TransferCash(l, asset, from, to, amount).value)
  {
    hide Sum, PricePerToken, ModulesInv, SponsorshipsInv, BookingsInv, CancellationsInv, ProposalsInv, BallotsInv,
         GiftsInv;
    var w, l' := l.world, TransferCash(l, asset, from, to, amount).value;
    DebitHeldIn(w.cash, (asset, from), amount);
    CreditHeldIn(Debit(w.cash, (asset, from), amount).value, (asset, to), amount);
  }
  /** A gift is counted where it went, and in the asset its escrow holds. */
  lemma GiftReceived(l: Ledger, e: Escrow, n: nat)
    requires Inv(l) && l.EscrowAsset(e).Ok? && n > 0
    ensures var asset := l.EscrowAsset(e).value;
            var gifts := l.gifts[e := Gift(asset, GiftIn(l.gifts, e) + n)];
            && GiftsInv(l.world.nextSponsor, l.world.nextBooking, l.sponsorships, l.bookings, l.proposals, gifts)
            && forall a :: Sum(gifts, GiftedIn(a)) == Sum(l.gifts, GiftedIn(a)) + When(asset == a, n)
  {
    hide Sum, PricePerToken, ModulesInv, SponsorshipsInv, BookingsInv, CancellationsInv, ProposalsInv, BallotsInv;
    match e {
      case OfSponsorship(id) => SponsorshipAt(l, id);
      case OfBooking(key) => BookingAt(l, key);
      case OfProposal(_) =>
    }
    PutGift(l.gifts, e, l.EscrowAsset(e).value, n);
  }

  lemma DonateKeeps(l: Ledger, from: Key, e: Escrow, amount: u64)
    requires Inv(l) && Donate(l, from, e, amount).Ok?
    ensures Keeps(l, Donate(l, from, e, amount).value)
  {
    hide Sum, PricePerToken, ModulesInv, SponsorshipsInv, BookingsInv, CancellationsInv, ProposalsInv, BallotsInv,
         GiftsInv, Ledger.EscrowAsset;
    var w, l' := l.world, Donate(l, from, e, amount).value;
    DebitHeldIn(w.cash, (l.EscrowAsset(e).value, from), amount);
    GiftReceived(l, e, amount);
  }

  lemma DonateXcavKeeps(l: Ledger, from: Key, amount: u64)
    requires Inv(l) && DonateXcav(l, from, amount).Ok?
    ensures Keeps(l, DonateXcav(l, from, amount).value)
  {
    hide Sum, PricePerToken, ModulesInv, SponsorshipsInv, BookingsInv, CancellationsInv, ProposalsInv, BallotsInv,
         GiftsInv;
    DebitHeld(l.world.xcav, from, amount);
  }
}
