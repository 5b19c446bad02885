/** What proposers, builders and voters can count on in every reachable state. */
module GovernanceGuarantees {
  import opened Machine
  import opened Pricing
  import opened Sums
  import opened Wallets
  import opened Voting
  import opened EducationState
  import opened EducationLedger
  import opened LedgerSums
  import opened GovernanceSteps
  import opened DeliveryProofs
  import opened GovernanceProofs
  import opened DeliveryGuarantees

  /**
   * A vote is decided by the last votes cast: the proposer's stake comes back if Yes reaches the quorum and its
   * share of Yes and No, and goes to the treasury otherwise. Nothing else about it can make finalizing fail.
   */
  lemma VoteDecides(l: Ledger, now: i64, pid: nat)
    requires Inv(l)
    ensures FinalizeProposal(l, now, pid).Ok? <==>
              pid in l.proposals && l.proposals[pid].status.Voting? && now >= l.proposals[pid].expiry
    ensures FinalizeProposal(l, now, pid).Ok? ==>
              var l', p, c := FinalizeProposal(l, now, pid).value, l.proposals[pid], l.world.config;
              var yes, no := l.Tally(pid, Yes), l.Tally(pid, No);
              && pid in l'.proposals && yes + no <= U64_MAX
              && if yes >= c.quorum && yes * 10000 >= (yes + no) * c.thresholdBps
                 then l'.proposals[pid].status.Claimable? && Gains(l, l', p.proposer, p.deposit)
                    && l'.world.treasury == l.world.treasury
                 else l'.proposals[pid].status.Rejected? && l'.world.xcav == l.world.xcav
                      && l'.world.treasury == l.world.treasury + p.deposit
  {
    hide Sum, PricePerToken, Inv, Ledger.Tally;
    TallyFits(l, pid);
    ConfigAt(l);
  }

  /**
   * An approved proposal with a pre-sponsorship can be minted by its builder exactly when nothing was ever sent into
   * its escrow: moving the pre-sponsorship out must leave the escrow empty. The rest is the role and the id counters.
   */
  lemma SponsoredMintIff(l: Ledger, now: i64, creator: Key, pid: nat)
    requires Inv(l)
    ensures MintSponsored(l, now, creator, pid).Ok? <==>
              && pid in l.proposals && l.proposals[pid].status.Approved? && l.proposals[pid].preAmount > 0
              && l.proposals[pid].claimant == Some(creator) && l.world.HasRole(creator, ModuleCreator)
              && l.world.nextModule < U64_MAX && l.world.nextSponsor < U64_MAX
              && GiftIn(l.gifts, OfProposal(pid)) == 0
  {
    hide Sum, PricePerToken, Inv, ProposalShape;
    ProposalAt(l, pid);
    GiftAt(l, OfProposal(pid));
  }

  /**
   * Minting a pre-sponsored module honours what was voted on: the proposer's tokens are bookable at the price
   * they paid, on the terms that were voted on, and everything else is open to sponsors.
   */
  lemma MintHonoursPreSponsor(l: Ledger, now: i64, creator: Key, pid: nat)
    requires Inv(l) && l.clock <= now && MintSponsored(l, now, creator, pid).Ok?
    ensures pid in l.proposals
    ensures var l', p, mid, id := MintSponsored(l, now, creator, pid).value, l.proposals[pid], l.world.nextModule,
                                  (l.world.nextModule, l.world.nextSponsor);
            && mid in l'.modules && id in l'.sponsorships
            && l'.modules[mid].base == ModuleBase(creator, p.region, p.bond, p.amount, p.terms)
            && l'.sponsorships[id].deal == Deal(p.proposer, p.asset, p.preAmount, p.prePrice, now)
            && p.asset in l.world.decimals && PricePerToken(p.terms, l.world.decimals[p.asset]) == Ok(p.prePrice)
            && l'.SchoolAllocation(mid) == p.preAmount
            && l'.SponsorAllocation(mid) == p.amount - p.preAmount
            && l'.StudentAllocation(mid) == 0
  {
    hide Sum, PricePerToken, Inv, ProposalShape;
    ProposalAt(l, pid);
    var mid, id := l.world.nextModule, (l.world.nextModule, l.world.nextSponsor);
    NothingOnNewModule(l, mid);
    FreshSponsorship(l, mid);
    AddFunding(l.sponsorships, id, MintSponsored(l, now, creator, pid).value.sponsorships[id]);
  }

  lemma NothingOnNewModule(l: Ledger, mid: nat)
    requires Inv(l) && mid == l.world.nextModule
    ensures Sum(l.sponsorships, Pledged(mid)) == 0
    ensures Sum(l.bookings, Unclaimed(mid)) == 0 && Sum(l.bookings, InFlight(mid)) == 0
  {
    hide Sum, PricePerToken, ModulesInv, CancellationsInv, ProposalsInv, BallotsInv, GiftsInv;
    SumZero(l.sponsorships, Pledged(mid));
    SumZero(l.bookings, Unclaimed(mid));
    SumZero(l.bookings, InFlight(mid));
  }

  /** What a proposal's escrow holds. */
  function PreSponsorLocked(p: Proposal): nat {
    p.preAmount * p.prePrice
  }

  /**
   * A sponsor whose proposal was rejected, in whatever way, can take the whole pre-sponsorship back exactly when
   * nothing was ever sent into its escrow: paying it out must leave the escrow empty.
   */
  lemma PreSponsorComesBack(l: Ledger, sponsor: Key, pid: nat)
    requires Inv(l)
    ensures ReclaimPreSponsor(l, sponsor, pid).Ok? <==>
              && pid in l.proposals && l.proposals[pid].preAmount > 0 && l.proposals[pid].status.Rejected?
              && sponsor == l.proposals[pid].proposer
              && GiftIn(l.gifts, OfProposal(pid)) == 0
    ensures ReclaimPreSponsor(l, sponsor, pid).Ok? ==>
              var l', p := ReclaimPreSponsor(l, sponsor, pid).value, l.proposals[pid];
              forall k: (Key, Key) :: Balance(l'.world.cash, k)
                                      == Balance(l.world.cash, k) + When(k == (p.asset, sponsor), PreSponsorLocked(p))
  {
    hide Sum, PricePerToken, Inv, ProposalShape;
    ProposalAt(l, pid);
    GiftAt(l, OfProposal(pid));
  }
}
