/** The regions program's entry point: each call goes to its instruction; runs of the object are runs of the ledger. */
module RegionsDispatch {
  import opened Machine
  import opened Voting
  import opened RegionsProgram
  import L = RegionsLedger
  import opened RegionsRuns

  /** One transaction: it succeeds exactly when the ledger's step does, and leaves the object at the step's ledger. */
  method Execute(p: Regions, tx: Tx) returns (r: Result<()>)
    requires p.Valid() && p.ledger.clock <= tx.now
    modifies p
    ensures p.Valid()
    ensures Follows(r, old(p.ledger), p.ledger, Step(old(p.ledger), tx)) && p.ledger == Apply(old(p.ledger), tx)
  {
    hide L.ProposeRegion, L.VoteOnRegion, L.FinalizeRegion, L.UnlockVote, L.ClearRegion, L.CreateRegion, L.ClaimSeat,
         L.Resign, L.UpdateConfig, L.UpdateAuthority, L.SetOperator, L.TransferXcav, L.DonateXcav, Stored;
    match tx.call {
      case Propose(proposer, code, supply) => r := p.ProposeRegion(tx.now, proposer, code, supply);
      case CastVote(voter, code, vote, amount) => r := p.VoteOnRegion(tx.now, voter, code, vote, amount);
      case Finalize(code) => r := p.FinalizeRegion(tx.now, code);
      case Unlock(voter, pid) => r := p.UnlockVote(tx.now, voter, pid);
      case Clear(code) => r := p.ClearRegion(tx.now, code);
      case Create(creator, code) => r := p.CreateRegion(tx.now, creator, code);
      case Claim(operator, code, supply) => r := p.ClaimSeat(tx.now, operator, code, supply);
      case GiveNotice(operator, code) => r := p.Resign(tx.now, operator, code);
      case Configure(authority, config) => r := p.UpdateConfig(authority, config);
      case Rotate(authority, successor) => r := p.UpdateAuthority(authority, successor);
      case Grant(k, held) => r := p.SetOperator(k, held);
      case Transfer(from, to, amount) => r := p.TransferXcav(from, to, amount);
      case Donate(from, amount) => r := p.DonateXcav(from, amount);
    }
  }

  /**
   * Any sequence of transactions, some of which may fail, leaves the object at the ledger of that run. Its vault then
   * holds exactly the bonds, collateral and votes on record, besides what was sent there unasked.
   */
  method ExecuteAll(p: Regions, txs: seq<Tx>) returns (done: seq<bool>)
    requires p.Valid() && Chronological(p.ledger.clock, txs)
    modifies p
    ensures p.Valid() && p.ledger == Run(old(p.ledger), txs)
    ensures |done| == |txs|
    ensures forall i :: 0 <= i < |txs| ==> done[i] == Step(Run(old(p.ledger), txs[..i]), txs[i]).Ok?
    ensures p.accounts.vault == p.ledger.VaultOwed() + p.ledger.surplus
    ensures p.ledger.XcavTotal() == old(p.ledger.XcavTotal())
  {
    hide Step, Apply, L.Inv, L.Ledger.VaultOwed, L.Ledger.XcavTotal, ProposalsMatch, VotesMatch;
    ghost var start := p.ledger;
    done := [];
    var n := 0;
    while n < |txs|
      invariant 0 <= n <= |txs| && |done| == n
      invariant p.Valid() && p.ledger == Run(start, txs[..n])
      invariant forall i :: 0 <= i < n ==> done[i] == Step(Run(start, txs[..i]), txs[i]).Ok?
    {
      AlongRun(start, txs, n);
      var r := Execute(p, txs[n]);
      done := done + [r.Ok?];
      n := n + 1;
    }
    assert txs[..n] == txs;
    RunKeeps(start, txs);
  }
}
