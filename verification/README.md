# Verified models of the education and regions programs

Two on-chain programs move XCAV deposits and stablecoin payments around learning modules. The education
program sells module tokens to sponsors, lets schools book them and lecturers deliver them, settles by score,
and lets XCAV holders vote on modules to be built. The regions program votes regions into being and turns their
operators' seats over. Neither program ever recomputes a sum. Allocations, claim and cancellation counters, tallies, the
shared XCAV vault and every payment escrow are kept up to date by separate additions and subtractions spread
over some three dozen instructions.

This project states what those numbers are supposed to mean, and proves that every instruction keeps them so and
what follows from it over whole runs.

## How it is built

Each program is written down twice.

- **The ledger** (`EducationLedger`, `DeliverySteps`, `GovernanceSteps`; `RegionsLedger`) holds records only: no
  allocation counter, no tally, no escrow and no vault balance. Each of those is a sum over the records
  (`Sums`). It also remembers what the accounts forget: tokens burned and delivered, where a sponsorship's money
  went, votes already unlocked, and what outsiders sent into the vault and the escrows unasked. Every instruction
  is a function from a ledger to a ledger or an error.
- **The object** (`EducationProgram.Education`, `RegionsProgram.Regions`) holds the accounts as they are stored,
  with every counter and balance, and has one method per instruction that updates them step by step as the
  handlers do. `Valid()` says that every stored number is the corresponding sum. Each method is proved to
  succeed exactly when the ledger's step does, to leave the object valid at that step's ledger, and otherwise to
  change nothing. Where a handler makes a check that can never fail (an underflow, a missing account, a
  counter that would saturate), the method asserts the bound instead, so that the check is proved redundant.

`EducationDispatch` and `RegionsDispatch` run any call, and any sequence of calls, on the object. `EducationRuns` and
`RegionsRuns` define whole runs of the ledger: any sequence of calls, configuration changes, role changes, outside
transfers and gifts, at times that never go back. The invariant and the conservation laws are proved per record kind (`LedgerSums`,
`RecordProofs`), per instruction (`DeliveryProofs`, `GovernanceProofs`, `RegionsProofs`) and then for every run.

The results are in `Pricing` and `Settlement` (arithmetic), `DeliveryGuarantees` and `GovernanceGuarantees` (what
can always be done, exactly when, and who is paid), `RoundTrips` (what undoes what), `BookingHistory`,
`ProposalHistory`, `VoteHistory`, `LecturerBacking`, `RecordHistory`, `GiftHistory`, `RegionsRuns` and `RegionsVotes`
(whole runs), and `Witnesses` (states in which an expectation fails).

`dafny verify dfyconfig.toml` checks everything.

## Reading the model

- A step is a transaction: one that fails leaves everything as it was. Error codes are not told apart, so checks
  that only choose between errors appear in any order.
- A method works on local copies of the accounts and commits them in one assignment at the end, as the runtime does.
- Integers are unbounded in Dafny; every width that matters is written out. Checked operations fail where
  the program's do, `Clamp` is the saturating arithmetic on times.
- Token balances are naturals that a transfer out must cover. The whole XCAV supply fits in a u64 to begin with, and
  conservation keeps it so.
- An account's address is derived from its ids, so accounts are map entries; ids come from counters that only grow.
- Where comments and code of the programs differ, the model follows the code. The regions program describes its
  quorum as total voting power, but only Yes counts (`programs/education-regions/src/instructions/finalize.rs:92`). A
  comment on cancelling a claim says a score has already released the claim
  (`programs/real-x-education/src/instructions/cancel.rs:382`), but finalizing does. The locked pre-sponsorship
  is described as XCAV (`programs/real-x-education/src/state.rs:363`), but is held in the payment asset.
- Anyone may send tokens into an escrow or the vault (`Donate`, `DonateXcav`); every balance is stated as what the
  records account for plus those gifts. Closing a sponsorship or a booking closes its escrow only if it is empty.
  Minting or reclaiming a pre-sponsorship closes the escrow without a look, which fails on a non-zero balance.
- Four expectations one could have of the programs hold only under a condition. Each condition is proved exact, and
  each failing input is exhibited.
  - A rejected pre-sponsorship comes back, and an approved sponsored module can be minted, exactly while nothing was
    ever sent into the proposal's escrow (`PreSponsorComesBack`, `SponsoredMintIff`, `ReclaimDecided`, `MintDecided`;
    `OneUnitStrands`).
  - Claims stay fully backed exactly until the authority makes a strike larger than deposits cover
    (`BackedThroughout`; `SomeConfigUnbacks`).
  - A settlement that pays succeeds exactly while the lecturer's u32 count of deliveries is below its maximum
    (`FinalizeIff`; `FullCountBlocksSettlement`).
  - A region's passing vote can be counted exactly while the deadline for creating it fits in an i64
    (`RegionsVotes.VoteDecides`; `LongTermBlocksCounting`).

## Model

| member | source | states |
|---|---|---|
| `Pricing.FeeCeilExact` | programs/real-x-education/src/pricing.rs:22-32 | Up to u64 amounts a fee never overflows, and it is the least whole number of units covering its share in ten-thousandths (and at most the amount, up to 100%) |
| `Pricing.BpsFloorExact` | programs/real-x-education/src/pricing.rs:36-41 | Up to u64 amounts a scored share never overflows, and it is the greatest whole number of units within the share |
| `Pricing.PriceParts` | programs/real-x-education/src/pricing.rs:62-98 | Whenever a price is quoted, it is the exact scaled base plus four exactly rounded-up fees, and each of these fits in a u64 |
| `Pricing.PriceQuotedIffItFits` | programs/real-x-education/src/pricing.rs:78-98 | For a positive base price a quote succeeds if and only if the exact total fits in a u64, and then it is that total: no intermediate check ever refuses a price that fits |
| `Pricing.PriceBound` | programs/real-x-education/src/pricing.rs:12-98 | 10000 x price lies between base x (10000 + fees) and that plus 39996, so a validated fee split never charges more than twice the base plus 3 |
| `Pricing.PriceMonotoneInFees` | programs/real-x-education/src/pricing.rs:62-98 | Lower fee shares never make a quotable price unquotable, nor dearer |
| `Settlement.SplitConserves` | programs/real-x-education/src/instructions/score.rs:361-434 | However a settlement comes out, the four payouts and the refund add up to exactly what was escrowed |
| `Settlement.SharesExact` | programs/real-x-education/src/instructions/score.rs:373-414 | With the whole price in escrow every party gets exactly the floor of its part at the score; the clamp on the lecturer's pay never bites |
| `Settlement.SplitExact` | programs/real-x-education/src/instructions/score.rs:361-434 | With the quoted price in escrow no step of the payout arithmetic can fail, at any score; below the minimum everything is refunded, from it on everyone gets the floored share |
| `Settlement.RoundingBound` | programs/real-x-education/src/instructions/score.rs:373-434 | At or above the minimum score s, 10000 x paid lies between price x s - 49995 and price x s |
| `Settlement.SplitMonotone` | programs/real-x-education/src/instructions/score.rs:373-434 | A better score never pays any recipient less and never refunds the sponsor more, also across the minimum |
| `EducationProgram.Education.constructor` | programs/real-x-education/src/instructions/initialize.rs:188-242 | A program set up under validated parameters holds nothing, and its ledger is the empty one |
| `EducationProgram.Education.CreateModule` | programs/real-x-education/src/instructions/create_module.rs:106-179 | Does to the accounts what creating a module does to the records: deposit locked, whole supply minted and unsponsored, next id used; fails exactly when the ledger step does |
| `EducationProgram.Education.BurnUnsponsored` | programs/real-x-education/src/instructions/burn.rs:55-94 | Only the creator, and only unsponsored tokens; the vault and the allocation shrink together, neither subtraction can underflow |
| `EducationProgram.Education.RemoveModule` | programs/real-x-education/src/instructions/burn.rs:168-201 | Only with an empty vault; the deposit it returns is always covered by the shared vault |
| `EducationProgram.Education.SponsorModule` | programs/real-x-education/src/instructions/sponsor.rs:79-156 | Only for an accepted asset without unsupported extensions; moves exactly price x amount into a new escrow and exactly those tokens from unsponsored to pledged; the additions to the counters cannot overflow |
| `EducationProgram.Education.ReclaimSponsorship` | programs/real-x-education/src/instructions/sponsor.rs:212-277 | After the window, returns price x amount from the escrow, which always covers it, and the tokens to the creator's allocation |
| `EducationProgram.Education.CloseSponsorship` | programs/real-x-education/src/instructions/sponsor.rs:330-352 | Closes only a spent sponsorship with no bookings; its escrow then holds nothing but gifts, which leave it behind without stopping the close |
| `EducationProgram.Education.BookModule` | programs/real-x-education/src/instructions/booking.rs:107-229 | Locks the deposit, moves one token's price between escrows and one token between allocations; the allocation check and every counter subtraction are proved never to fail |
| `EducationProgram.Education.ClaimBooking` | programs/real-x-education/src/instructions/claim.rs:54-115 | Succeeds exactly for a registered other party whose deposit covers one more strike per open claim; the token check is proved never to fail |
| `EducationProgram.Education.Unwind` | programs/real-x-education/src/instructions/cancel.rs:180-222 | The part cancelling and expiring share succeeds exactly for an unscored booking, gifts or not, and puts token, payment and claim back where the records say |
| `EducationProgram.Education.CancelBooking` | programs/real-x-education/src/instructions/cancel.rs:128-257 | Unwinds an unscored booking of the caller's, records the cancellation, and returns or slashes the deposit by the live count |
| `EducationProgram.Education.ClearOldCancellation` | programs/real-x-education/src/instructions/cancel.rs:289-310 | Drops one aged-out record and one from the counter; the saturating subtraction never saturates |
| `EducationProgram.Education.CancelClaim` | programs/real-x-education/src/instructions/cancel.rs:373-449 | Adds a strike, slashes at the ceiling, frees claim and token; the claim and token counters cannot underflow or overflow |
| `EducationProgram.Education.ExpireBooking` | programs/real-x-education/src/instructions/cancel.rs:541-652 | Past the grace, unwinds an unscored booking of anyone's and returns the deposit to the school |
| `EducationProgram.Education.SubmitScore` | programs/real-x-education/src/instructions/score.rs:46-79 | Records an agent's first score of a claimed booking from its delivery time on |
| `EducationProgram.Education.DisputeScore` | programs/real-x-education/src/instructions/score.rs:100-140 | Records one amendment by one party inside the window |
| `EducationProgram.Education.ResolveDispute` | programs/real-x-education/src/instructions/score.rs:158-207 | Lets only the other party decide it: accepting adopts the amendment, rejecting keeps the score |
| `EducationProgram.Education.Disburse` | programs/real-x-education/src/instructions/score.rs:436-490 | Each of the five payments is covered, together they are the settlement's payout, and only what was sent to the escrow unasked is left |
| `EducationProgram.Education.FinalizeScore` | programs/real-x-education/src/instructions/score.rs:311-518 | Settles a scored booking when allowed, pays the five shares out of its escrow, burns one token and frees the claim; the claim and the burn are proved covered |
| `EducationProgram.Education.FinishBooking` | programs/real-x-education/src/instructions/booking.rs:297-344 | Closes a settled booking: its escrow holds nothing but gifts, its sponsorship's counter is provably positive, and the deposit goes back to the school |
| `EducationProgram.Education.RegisterDeliverer` | programs/real-x-education/src/instructions/deliverer.rs:65-105 | Registers, or tops the deposit up to today's requirement, locking exactly the difference |
| `EducationProgram.Education.UnregisterDeliverer` | programs/real-x-education/src/instructions/deliverer.rs:176-216 | Only with no open claim; returns the whole deposit, which the vault always covers, and gives the role up |
| `EducationProgram.Education.CreateProposal` | programs/real-x-education/src/instructions/proposal.rs:140-197 | Opens a vote with empty tallies on the terms configured now, and locks the stake |
| `EducationProgram.Education.CreateSponsorProposal` | programs/real-x-education/src/instructions/proposal.rs:285-380 | Also locks price x pre-sponsored tokens in the proposal's escrow, in an accepted asset without unsupported extensions |
| `EducationProgram.Education.VoteOnProposal` | programs/real-x-education/src/instructions/proposal.rs:441-529 | Replaces an earlier vote: undoes its tally exactly, refunds it, locks the new stake; adding to a tally cannot overflow and subtracting never saturates |
| `EducationProgram.Education.FinalizeProposal` | programs/real-x-education/src/instructions/proposal.rs:585-646 | Counts the vote, whose sum cannot overflow, and returns or slashes the stake, which the vault always covers |
| `EducationProgram.Education.UnlockVote` | programs/real-x-education/src/instructions/proposal.rs:1428-1458 | After expiry returns the locked stake, which the vault always covers, without touching the tally |
| `EducationProgram.Education.ClaimProposal` | programs/real-x-education/src/instructions/proposal.rs:704-757 | Reserves a passed proposal for an allowed creator and locks today's module deposit as the bond |
| `EducationProgram.Education.UploadProposal` | programs/real-x-education/src/instructions/proposal.rs:778-807 | Hands a claimed build in for review |
| `EducationProgram.Education.ReleaseClaim` | programs/real-x-education/src/instructions/proposal.rs:846-883 | Past the upload deadline, slashes the bond and reopens the proposal |
| `EducationProgram.Education.ReviewProposal` | programs/real-x-education/src/instructions/proposal.rs:939-1007 | Approves, returns for one more attempt, or drops and bans the claimant and slashes the bond; rejects when the ban list is full. A claimant is always there |
| `EducationProgram.Education.MintProposed` | programs/real-x-education/src/instructions/proposal.rs:1083-1139 | Mints the approved module on the voted terms; the bond becomes its deposit without moving |
| `EducationProgram.Education.MintSponsored` | programs/real-x-education/src/instructions/proposal.rs:1248-1353 | Also turns the pre-sponsorship into a sponsorship; its amount cannot overflow and is always covered, but the escrow is closed without a look, so the step fails if a gift is left in it |
| `EducationProgram.Education.ExpireProposal` | programs/real-x-education/src/instructions/proposal.rs:1509-1584 | Past both deadlines, rejects an unbuilt proposal and refunds or slashes the bond; the claimant to refund is always there |
| `EducationProgram.Education.ReclaimPreSponsor` | programs/real-x-education/src/instructions/proposal.rs:1628-1672 | Returns a rejected pre-sponsorship, which the escrow always covers, and closes the escrow without a look, so the step fails if a gift is left in it |
| `EducationProgram.Education.ClearProposal` | programs/real-x-education/src/instructions/proposal.rs:1697-1710 | Closes a rejected proposal with nothing left to settle |
| `EducationProgram.Education.UpdateConfig` | programs/real-x-education/src/instructions/initialize.rs:216-256 | Lets only the authority set parameters, only ones that pass validation, and nothing else |
| `EducationProgram.Education.UpdateAuthority` | programs/real-x-education/src/instructions/initialize.rs:259-287 | Lets only the authority hand over, and not to the default key |
| `EducationDispatch.Execute` | programs/real-x-education/src/lib.rs:22-330 | Any call on the object succeeds exactly when the ledger's step does and leaves the object, still valid, at that step's ledger |
| `EducationDispatch.ExecuteAll` | programs/real-x-education/src/vault.rs:1-84 | Any sequence of transactions leaves the object at the ledger of that run, each having succeeded exactly when its step does; the vault then holds exactly the deposits, bonds and live votes on record, every sponsorship's escrow amount x price, every unsettled booking's its price and a settled one's nothing, every pre-sponsored proposal's price x amount, each besides what was sent there unasked; no XCAV and no unit of any asset was made or lost |
| `EducationRuns.StartHolds` | programs/real-x-education/src/instructions/initialize.rs:188-242 | The state every run starts from, with validated parameters and no accounts, satisfies the invariant |
| `EducationRuns.DeliveryStepKeeps` | programs/real-x-education/src/instructions/cancel.rs:128-652 | Every delivery instruction keeps the whole invariant and every token total |
| `EducationRuns.GovernanceStepKeeps` | programs/real-x-education/src/instructions/proposal.rs:140-1710 | Every proposal instruction, configuration change and outside transfer keeps the whole invariant and every token total, including the shape of a proposal at each stage |
| `EducationRuns.RunKeeps` | programs/real-x-education/src/instructions/proposal.rs:585-1458 | Over every run of the ledger the invariant holds and neither XCAV nor any payment asset is made or lost |
| `BookingHistory.BookingAlways` | programs/real-x-education/src/instructions/score.rs:46-359 | In every state a run from the start reaches, a booking's scoring stages presuppose one another, its school is not its lecturer, it draws on a live sponsorship at that sponsorship's price, while unsettled its module and lecturer are still there, no other booking has its id, and it was never cancelled |
| `ProposalHistory.ProposalAlways` | programs/real-x-education/src/instructions/proposal.rs:704-1584 | In every state a run from the start reaches: no claimant, bond or upload deadline while voting, claimable or rejected; an unbanned claimant while claimed, under review or approved; at most one failure counted; at most eight distinct keys banned; a creator's proposal only ever claimed by its proposer; a pre-sponsorship at the price the voted terms quote |
| `EducationAccounts.VoteProposalsMatch` | programs/real-x-education/src/instructions/proposal.rs:441-529 | Recounting one vote leaves every other proposal's tallies equal to the sums over its ballots |
| `Voting.VoteRecounted` | programs/real-x-education/src/instructions/proposal.rs:512-529 | Taking a vote's old power out never saturates, adding the new one never overflows while all stakes fit in a u64, and the tallies again equal the sums over ballots |
| `Voting.TallyParts` | programs/real-x-education/src/instructions/proposal.rs:512-529 | The three tallies of a proposal are together all the power cast on it |
| `Voting.VoteMonotone` | programs/real-x-education/src/instructions/proposal.rs:595-611 | More Yes or less No never turns a passing vote into a failing one |
| `DeliveryGuarantees.TokensAccountedFor` | programs/real-x-education/src/state.rs:107-140 | A module's total is its vault supply plus burned plus delivered; the supply is the three allocations plus the number of claimed unsettled bookings; pledged and booked counters are what the records say |
| `DeliveryGuarantees.FundsAccountedFor` | programs/real-x-education/src/instructions/sponsor.rs:79-277 | A sponsorship's funding is what its escrow holds beyond gifts plus its unsettled bookings' prices plus what was reclaimed, paid out and refunded; its escrow is amount x price plus gifts |
| `DeliveryGuarantees.SettlementExact` | programs/real-x-education/src/instructions/score.rs:361-434 | In every reachable state an unsettled booking's price is the one its module's frozen terms quote, so at any score its settlement succeeds, is exact and uses no clamp |
| `DeliveryGuarantees.SettlementPaysEveryone` | programs/real-x-education/src/instructions/score.rs:436-490 | Every wallet gains exactly its parties' shares of the settlement, in the booking's asset, and no other wallet changes |
| `DeliveryGuarantees.ExpireIff` | programs/real-x-education/src/instructions/cancel.rs:541-652 | An unscored booking past its grace can always be expired, by anyone, and then the school has its deposit back: no missing account, balance or checked operation can prevent it |
| `DeliveryGuarantees.ExpirableSomeday` | programs/real-x-education/src/instructions/cancel.rs:552-558 | There is a time at which an unscored booking can be expired exactly when its grace deadline does not saturate |
| `DeliveryGuarantees.FinalizeIff` | programs/real-x-education/src/instructions/score.rs:311-518 | A scored booking can be settled exactly when window, party or dispute allow it, except that a paid settlement fails when the lecturer's delivery count is at its u32 maximum |
| `DeliveryGuarantees.FinishIff` | programs/real-x-education/src/instructions/booking.rs:297-344 | A settled booking can always be finished, and exactly the school gets exactly its deposit back |
| `DeliveryGuarantees.NeverStuck` | programs/real-x-education/src/instructions/cancel.rs:541-652 | From every reachable state, past its deadline any booking can be wound up by anyone in at most two steps, short of that u32 maximum |
| `DeliveryGuarantees.CloseIff` | programs/real-x-education/src/instructions/sponsor.rs:330-338 | A sponsorship can be closed exactly by its sponsor, with nothing left on it and no booking drawing on it |
| `DeliveryGuarantees.RemoveIff` | programs/real-x-education/src/instructions/burn.rs:168-201 | A module can be removed exactly when nothing of it is unsponsored, bookable or undelivered, and its creator gets the deposit back |
| `DeliveryGuarantees.LeaveIff` | programs/real-x-education/src/instructions/deliverer.rs:176-216 | A lecturer can leave exactly when every booking they hold is settled, and takes the whole deposit along |
| `DeliveryGuarantees.StudentAllocationCounts` | programs/real-x-education/src/state.rs:107-140 | The student allocation is the number of unclaimed bookings |
| `DeliveryGuarantees.ActiveBookingsCount` | programs/real-x-education/src/state.rs:153-178 | A sponsorship's active_bookings is the number of live bookings on it |
| `DeliveryGuarantees.ActiveClaimsCount` | programs/real-x-education/src/state.rs:227-236 | A lecturer's active_claims is the number of unsettled bookings they hold |
| `DeliveryGuarantees.CancellationsCount` | programs/real-x-education/src/state.rs:240-255 | A school's cancellation counter is the number of its live cancellation records |
| `DeliveryGuarantees.CancelSlashes` | programs/real-x-education/src/instructions/cancel.rs:143-178 | A cancellation takes the deposit exactly when it brings the live records to the configured count, and returns it otherwise |
| `GovernanceGuarantees.VoteDecides` | programs/real-x-education/src/instructions/proposal.rs:585-646 | An ended vote can always be counted; the stake comes back exactly when Yes reaches the quorum and its share of Yes and No, and is slashed otherwise |
| `GovernanceGuarantees.MintHonoursPreSponsor` | programs/real-x-education/src/instructions/proposal.rs:1248-1353 | The proposer's tokens become bookable at the price they paid, which the voted terms quote, and all other tokens are open to sponsors |
| `GovernanceGuarantees.SponsoredMintIff` | programs/real-x-education/src/instructions/proposal.rs:1248-1353 | An approved pre-sponsored proposal can be minted by its builder exactly while they hold the role, ids are left, and nothing was sent into its escrow unasked |
| `GovernanceGuarantees.PreSponsorComesBack` | programs/real-x-education/src/instructions/proposal.rs:1628-1672 | The sponsor of a rejected proposal, and nobody else, can take the pre-sponsorship back, the whole of it, exactly when nothing was sent into its escrow unasked |
| `RoundTrips.ExpireUndoesBooking` | programs/real-x-education/src/instructions/cancel.rs:541-652 | Booking and then expiring unclaimed leaves the ledger as it was, up to the clock and one used id |
| `RoundTrips.CancelUndoesBooking` | programs/real-x-education/src/instructions/cancel.rs:128-257 | Booking and then cancelling does the same and puts the cancellation on record, below the slashing count |
| `RoundTrips.ReclaimUndoesSponsoring` | programs/real-x-education/src/instructions/sponsor.rs:79-352 | Sponsoring, reclaiming everything and closing leaves the ledger as it was, up to the clock and one used id |
| `RoundTrips.RevoteReplaces` | programs/real-x-education/src/instructions/proposal.rs:441-529 | Voting twice is the same as having voted only the second time |
| `BookingHistory.StepMovesBooking` | programs/real-x-education/src/instructions/score.rs:46-359 | In any step a booking's score is set only by an agent's first score or an amendment accepted by the other party; it settles only by an allowed finalize at that score; unscored it leaves only by cancel or expire, scored only by finish once settled |
| `BookingHistory.BookingOverRun` | programs/real-x-education/src/instructions/score.rs:46-359 | Over any run a booking's deal never changes, its parties are fixed once scored, a decided dispute is final, a settled booking does not change, and one that is gone never returns |
| `BookingHistory.SettlesOnce` | programs/real-x-education/src/instructions/score.rs:316-319 | No booking settles twice over any run |
| `BookingHistory.ScoreIsAuthored` | programs/real-x-education/src/instructions/score.rs:46-207 | Over any run from before it was scored, a booking's score is one a role-holding agent submitted, or an amendment one of its two parties proposed and the other, a different key, accepted later |
| `BookingHistory.GoneForGood` | programs/real-x-education/src/instructions/booking.rs:217-218 | A booking that has left is never there again later in the run |
| `ProposalHistory.StepMovesProposal` | programs/real-x-education/src/instructions/proposal.rs:704-1140 | In any step what was voted on is unchanged, every change but a release uses up work, an approved proposal only ever becomes rejected, whoever holds a reservation held it before or reserves it now, and the stored count of failures grows exactly with a failed review |
| `ProposalHistory.BuildingEnds` | programs/real-x-education/src/instructions/proposal.rs:704-1140 | Over any run the changes to a proposal are at most its remaining work (never above 55) plus four per release of an abandoned claim: between releases building ends |
| `ProposalHistory.NinthFailureRejects` | programs/real-x-education/src/instructions/proposal.rs:939-1007 | Over any run at most nine claimants fail twice, and the ninth rejects the proposal |
| `ProposalHistory.ClaimantIsOnRecord` | programs/real-x-education/src/instructions/proposal.rs:704-1007 | Over any run from before a proposal was reserved, whoever holds it at the end reserved it at some step and held it in every state since, and the stored count of failures is positive exactly if some review since that step failed them |
| `ProposalHistory.BondFate` | programs/real-x-education/src/instructions/proposal.rs:704-1584 | Over any run, the module deposit a creator locked on reserving a proposal still rides on a reservation held ever since, or some later step of that same reservation slashed it (overdue upload released, a failed review after an earlier failed review of theirs in this reservation, expiry before review or of an unminted approval), refunded it in full (expiry while under review), or made it the deposit of the module its holder minted |
| `ProposalHistory.BannedForGood` | programs/real-x-education/src/instructions/proposal.rs:704-1007 | A banned creator never reserves the proposal again in any run, and once a creator-opened proposal's own proposer is banned nobody ever does |
| `GiftSteps.DeliveryIgnores` | programs/real-x-education/src/instructions/sponsor.rs:330-352 | No delivery instruction depends on what escrows were given: with other gifts it succeeds alike and does the same |
| `GiftHistory.RunIgnoresGifts` | programs/real-x-education/src/instructions/cancel.rs:230-243 | Whatever sponsorships and bookings were given, every step of any run succeeds or fails alike and every record, wallet and stake ends the same: closing only an emptied escrow keeps strays harmless |
| `GiftHistory.GiftsAddUp` | programs/real-x-education/src/vault.rs:66-84 | Over any run an escrow's gifts are what was there plus what the run's successful gifts sent: nothing ever takes one out |
| `GiftHistory.ReclaimDecided` | programs/real-x-education/src/instructions/proposal.rs:1628-1672 | In any run from the start, a rejected pre-sponsorship can be taken back exactly when no gift to its escrow ever succeeded in that run |
| `GiftHistory.MintDecided` | programs/real-x-education/src/instructions/proposal.rs:1248-1353 | In any run from the start, an approved pre-sponsored proposal can be minted by its builder, role and ids permitting, exactly when no gift to its escrow ever succeeded in that run |
| `GiftHistory.GiftedStays` | programs/real-x-education/src/instructions/proposal.rs:1248-1672 | Once anything was sent into a proposal's escrow, in any run the proposal and the whole pre-sponsorship stay there and no step ever mints it or returns the pre-sponsorship |
| `GiftHistory.GiftCostsBuilder` | programs/real-x-education/src/instructions/proposal.rs:1295-1313 | An approved proposal with a gift in its escrow waits unchanged in any run until it expires, and then its builder's bond goes to the treasury |
| `GiftHistory.OneUnitStrands` | programs/real-x-education/src/instructions/proposal.rs:1650-1666 | The input that does it: any holder of one unit of the asset can send it to the escrow of any pre-sponsored proposal, and after that no run mints the proposal or returns its pre-sponsorship |
| `Witnesses.GiftStrandsPreSponsorship` | programs/real-x-education/src/instructions/proposal.rs:1650-1666 | A state that meets every invariant, where the pre-sponsorship can be taken back, and cannot once one unit was sent to its escrow |
| `Witnesses.FullCountBlocksSettlement` | programs/real-x-education/src/instructions/score.rs:404-408 | A state that meets every invariant where a scored booking can never be settled because its lecturer's u32 count of deliveries is at its maximum, and could one delivery earlier |
| `VoteHistory.TallyFrozen` | programs/real-x-education/src/instructions/proposal.rs:1428-1458 | Once voting is over no step of any run changes the tally, even as voters take their stakes back |
| `VoteHistory.OpenTally` | programs/real-x-education/src/instructions/proposal.rs:441-529 | While voting is open every vote counted is still locked, and the three tallies together are covered by the vault |
| `VoteHistory.LastVoteStands` | programs/real-x-education/src/instructions/proposal.rs:461-499 | Over any run the ballot on record is the last one cast, with its own side and power |
| `VoteHistory.VoterRecovers` | programs/real-x-education/src/instructions/proposal.rs:1428-1458 | Unlocking pays a voter exactly the stake of their last vote |
| `LecturerBacking.BackedThroughout` | programs/real-x-education/src/instructions/claim.rs:68-106 | Over any run, with the configuration live, every lecturer's deposit covers one strike per open claim in every state exactly when it did at the start and, at each successful configuration change, every deposit covers the new strike per open claim |
| `LecturerBacking.ClaimsStayBacked` | programs/real-x-education/src/instructions/claim.rs:68-106 | In particular, over any run that keeps the size of a strike every lecturer's deposit covers one strike per open claim |
| `LecturerBacking.SlashIsWhole` | programs/real-x-education/src/instructions/cancel.rs:397-433 | Where claims are backed, giving one up at the ceiling costs exactly one strike, below it nothing: the minimum with the deposit never bites |
| `LecturerBacking.SomeConfigUnbacks` | programs/real-x-education/src/instructions/initialize.rs:53-98 | Backing does depend on the configuration: whenever a lecturer holds an open claim, some configuration that passes validation makes a strike dearer than the deposit behind it, short of the largest u64 |
| `RecordHistory.RecordsOverRun` | programs/real-x-education/src/instructions/sponsor.rs:79-352 | Over any run a module's terms and a sponsorship's original funding never change, and burned, delivered, reclaimed, paid and refunded amounts only grow |
| `RegionsProgram.Regions.constructor` | programs/education-regions/src/instructions/initialize.rs:106-128 | A program set up under validated parameters holds nothing |
| `RegionsProgram.Regions.ProposeRegion` | programs/education-regions/src/instructions/propose.rs:90-142 | Opens a vote on a recognised region that neither exists nor is being proposed, and locks the bond; fails exactly when the ledger step does |
| `RegionsProgram.Regions.VoteOnRegion` | programs/education-regions/src/instructions/vote.rs:72-163 | Replaces an earlier vote: undoes its tally exactly, refunds it, locks the new stake; adding cannot overflow and subtracting never saturates |
| `RegionsProgram.Regions.FinalizeRegion` | programs/education-regions/src/instructions/finalize.rs:71-144 | Counts the vote, whose sum cannot overflow; keeps the bond for the claim or returns it in full, which the vault always covers |
| `RegionsProgram.Regions.UnlockVote` | programs/education-regions/src/instructions/cleanup.rs:54-81 | After expiry returns the locked stake, which the vault always covers |
| `RegionsProgram.Regions.ClearRegion` | programs/education-regions/src/instructions/cleanup.rs:135-168 | Drops a rejected or overdue state; refunds the bond of an overdue one, which the vault always covers |
| `RegionsProgram.Regions.CreateRegion` | programs/education-regions/src/instructions/create.rs:56-94 | Only the proposer, only in time: the bond becomes the collateral without moving |
| `RegionsProgram.Regions.ClaimSeat` | programs/education-regions/src/instructions/create.rs:165-250 | Takes or renews an open seat; the collateral it returns is always covered |
| `RegionsProgram.Regions.Resign` | programs/education-regions/src/instructions/create.rs:282-309 | Only brings the change of operator forward |
| `RegionsProgram.Regions.UpdateConfig` | programs/education-regions/src/instructions/initialize.rs:131-152 | Lets only the authority set parameters, only ones that pass validation, and nothing else |
| `RegionsProgram.Regions.UpdateAuthority` | programs/education-regions/src/instructions/initialize.rs:203-231 | Lets only the authority hand over, and not to the default key |
| `RegionsDispatch.Execute` | programs/education-regions/src/lib.rs:22-95 | Any call on the object succeeds exactly when the ledger's step does and leaves the object, still valid, at that step's ledger |
| `RegionsDispatch.ExecuteAll` | programs/education-regions/src/vault.rs:1-61 | Any sequence of transactions leaves the object at the ledger of that run, each having succeeded exactly when its step does; the vault then holds exactly the held bonds, the operators' collateral and the live votes, besides what was sent there unasked |
| `RegionsRuns.ApplyKeeps` | programs/education-regions/src/instructions/create.rs:56-250 | Every step keeps the invariant: a region is created or proposed, never both; a proposal exists exactly while its region is being voted on; only recognised codes occur; and the XCAV total is unchanged |
| `RegionsRuns.RunKeeps` | programs/education-regions/src/instructions/finalize.rs:71-144 | Over every run of the ledger the invariant holds and no XCAV is made or lost |
| `RegionsRuns.RegionAlways` | programs/education-regions/src/instructions/propose.rs:90-142 | In every state a run from the start reaches, a region is created or on its way but not both, only recognised codes are either, and a proposal exists exactly while its region is being voted on |
| `RegionsRuns.StepMovesRegion` | programs/education-regions/src/instructions/create.rs:165-301 | A created region stays, and its operator or its next change moves only by a claim once the seat is open or by the operator's own notice |
| `RegionsRuns.RegionStays` | programs/education-regions/src/instructions/create.rs:56-250 | Over every run a region never disappears |
| `RegionsRuns.SeatHeld` | programs/education-regions/src/instructions/create.rs:67-76 | However many steps follow, a seat taken at some time opens no sooner than the shorter of term and notice later, and no sooner than a term later without a resignation |
| `RegionsRuns.TurnoverTiming` | programs/education-regions/src/instructions/create.rs:165-301 | With the periods fixed, two seatings of a region are more than the shorter of term and notice apart, and more than a term apart unless the operator resigned in between |
| `RegionsRuns.SeatIsSafe` | programs/education-regions/src/instructions/create.rs:165-171 | Until its seat opens a region keeps its operator and collateral, whatever step is taken |
| `RegionsRuns.SeatSwap` | programs/education-regions/src/instructions/create.rs:174-247 | A takeover and a renewal come to the same: the new bond is paid in, the old collateral returned, no other wallet moves |
| `RegionsRuns.CreateOrClear` | programs/education-regions/src/instructions/cleanup.rs:139-141 | While a proposal is passed exactly one of creating and clearing is inside its time window, and each succeeds exactly under its own conditions |
| `RegionsRuns.DepositFate` | programs/education-regions/src/instructions/finalize.rs:99-141 | Over any run a proposer's bond is still held for that proposal, became the collateral of the region they created, or was refunded in full |
| `RegionsVotes.TallyFrozen` | programs/education-regions/src/instructions/cleanup.rs:54-81 | Once voting is over no step of any run changes the tally, even as voters take their stakes back |
| `RegionsVotes.OpenTally` | programs/education-regions/src/instructions/vote.rs:72-163 | While voting is open every vote counted is still locked, and the three tallies together are covered by the vault |
| `RegionsVotes.LastVoteStands` | programs/education-regions/src/instructions/vote.rs:72-163 | Over any run the ballot on record is the last one cast, with its own side and power |
| `RegionsVotes.VoterRecovers` | programs/education-regions/src/instructions/cleanup.rs:54-81 | Unlocking pays a voter exactly the stake of their last vote |
| `RegionsVotes.VoteDecides` | programs/education-regions/src/instructions/finalize.rs:71-144 | An ended vote can be counted exactly when, if it passes, now plus the owner change period still fits in an i64; it keeps the bond for the region if Yes reaches the quorum and its share, and returns it in full otherwise |
| `RegionsVotes.PassingVoteStuck` | programs/education-regions/src/instructions/finalize.rs:99-112 | A passing vote for which that sum no longer fits stays uncounted, with the bond in it, in every run that sets no configuration |
| `RegionsVotes.SomePeriodBlocks` | programs/education-regions/src/instructions/initialize.rs:21-42 | Some configuration that passes validation does that to any passing vote |
| `Witnesses.LongTermBlocksCounting` | programs/education-regions/src/instructions/finalize.rs:99-112 | A state that meets every invariant where every vote cast was for the region, and yet it can never be counted after time zero |

## Left out

- Strings, metadata limits, events and error codes: they do not affect balances or states. The `booked_at`, `claimed_at`, `created_at` and `module_id` fields that are only recorded are dropped with them.
- Account plumbing: address derivation, bumps, rent, signer seeds and serialisation. Accounts are map entries; a closed account is a removed entry; the recipient's token account an instruction needs is taken to exist, one per owner and asset.
- Gifts to an escrow whose record is already closed, left behind because it had been given something: no instruction reads it again.
- The token program: a transfer moves exactly its amount or fails on insufficient funds, a close fails on a non-zero balance. Which mints carry the extensions `mint_guard.rs` refuses is an input (`World.supported`), and the XCAV mint itself is taken to carry none.
- XCAV as a payment asset: it is a balance of its own here, apart from the payment assets. If the authority accepted XCAV itself as a payment asset, one wallet would be split between the two.
- The roles program: holding a role is part of the outside world and can change at any time (`SetRole`, `SetOperator`); giving the role up on unregistering removes it.
- Credentials (`credential.rs`): one-shot records that move nothing.
- The upgrade authority's gate on initializing, and payments into and out of the treasury besides slashes: the treasury, which the regions program keeps, only grows here.
- The stored status of a proposal whose module is minted: it is set and the account closed in the same instruction, so no state has it.
- The link between the two programs: the education model takes region owners as an input that may change at any time but never loses a region, which is what `RegionStays` proves of the regions program.
- The XCAV mint's supply in the regions program: an input of each call that reads it, not tied to the modelled wallets, since other programs hold XCAV too.
- EducationProgram.Education.Unwind: factors out code that the cancelling and the expiring handler each contain.
