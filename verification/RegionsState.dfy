/** The accounts of the regions program. */
module RegionsState {
  import opened Machine
  import opened Voting

  datatype RegionsConfig = RegionsConfig(
    minimumVotingAmount: u64, votingPeriod: i64, ownerChangePeriod: i64, thresholdBps: u16, quorum: u64,
    noticePeriod: i64)
  {
    /** The bounds every configuration is checked against before it is applied. */
    predicate Valid() {
      && 0 < thresholdBps <= 10000 && quorum > 0 && votingPeriod > 0 && ownerChangePeriod > 0
      && minimumVotingAmount > 0 && noticePeriod > 0
    }
  }

  /** The codes of the recognised regions: England, France, Japan and India. */
  predicate IsRegionCode(code: u16) {
    1 <= code <= 4
  }

  /** A tenth of a percent of the XCAV supply, or nothing when that rounds down to zero. */
  function OperatorBond(supply: u64): Result<u64> {
    if supply / 1000 > 0 then Ok(supply / 1000) else Err
  }

  /** A created region: its operator, what the operator has bonded, and when the seat opens. */
  datatype Region = Region(owner: Key, collateral: u64, nextOwnerChange: i64)

  datatype RegionStatus = Proposing | Passed | Rejected

  /** A region on its way to being created. */
  datatype RegionState = RegionState(status: RegionStatus, proposalId: nat, proposer: Key, deposit: u64,
                                     claimDeadline: i64)

  datatype RegionProposal = RegionProposal(proposer: Key, region: u16, expiry: i64)

  function ExpiryOf(p: RegionProposal): i64 {
    p.expiry
  }

  datatype RegionProposalAccount = RegionProposalAccount(core: RegionProposal, tallies: Tallies)

  /** The program's configuration, authority and counter, and what others hold: operator roles and XCAV wallets. */
  datatype RegionsWorld = RegionsWorld(
    config: RegionsConfig, authority: Key, nextProposal: nat, operators: set<Key>, xcav: map<Key, nat>)
}
