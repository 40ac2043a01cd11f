# Tansu

A model of Tansu, the governance system for software projects: its on-chain DAO contract, and the programs around it that count, cache, index and limit. `dafny verify dfyconfig.toml` checks the whole project.

## The system

**The contract.** Projects register with a deposit. Proposals are stored in pages of nine, each with a voter list, one vote for each voter, tallies kept up to date vote by vote, and a conflict list. Public proposals add weights; anonymous proposals add weighted commitments on an elliptic curve and are closed by revealing an opening of the sum. Votes lock collateral or tokens, which execution returns; removed votes are slashed.

- `Curve` has the group laws, scalar multiplication and commitments; `Residues` shows that the laws can be met.
- `Ballot` specifies one proposal with its votes, `BallotProofs` and `Removal` prove what its calls keep and undo.
- `Dao` puts projects, proposals and balances together as a step system over all calls; `Ledger` and `Escrow` account for every asset; `DaoProofs` has the invariant of every run; `CallRules` and `ExecutionRules` say exactly when each call goes through and what it changes, `Refusals` that every refusal names a reason that holds, `Authority` who must have signed for what; `DaoTheorems`, `CountedVotes`, `Conflicts` and `Undo` the results about runs. `Undo` compares two runs, one with a vote and one without.
- `DaoContract` is the contract as an object over keyed storage, whose entry points are proved to take the represented state exactly where the step system says, and to change nothing when they fail. `Storage` relates pages and keys to that state. A panic is an error result, as the host rolls the call back; overflow is one too, as the release profile checks it.
- `Discrepancies` has the failing inputs and exact conditions where contract and documentation part.
- `Badges` and `Upgrade` are the membership and the administration parts, `ProposalPages` the search of a reader for the last page, and `Decimal` the printing of token numbers.

**The programs around it.** `AnonymousTally` is the client kernel whose output closes an anonymous proposal; `AnonymousExecution` sets it against the contract. `Backfill` is the resumable event indexer, with crashes anywhere. `QueryCache` is the asynchronous cache of the dapp; each `await` separates two events, and the results hold for every order of events. `GitLog` prints and parses a commit log, `PonyFactor` reads contribution metrics off it, and `RateLimit` is the limiter of the upload service.

## Where the code decides otherwise than its documentation

- The comments on `public_execute` and `anonymous_execute` compare approve with reject; the code asks for more than half of all weight, abstentions included. `ExecutionRules.PublicExecuteRule` states the code, `Discrepancies.DocumentedResultIff` when the comment holds, `Discrepancies.DocumentedResultFails` votes on which it does not.
- The documentation limits a project name to 15 characters; the code allows 30 and an empty name.
- `last_completed_ledger` is described as a fallback for an untrusted cursor. Restarting after it loses events in general; `Backfill.LedgerFallbackSafeIff` says exactly when it does not. The code never restarts so while the cursor is there.
- A new administrator configuration is checked against the length of its list. With repeated addresses the threshold may be out of reach: `Upgrade.CanUpgradeIff` gives the exact condition, `Upgrade.RepeatedAdminLocksOut` a run.
- Payout fails on arithmetic when votes are recorded for a token with 39 decimals or more. Such a proposal takes only the weight-0 abstention of its proposer, and still cannot be executed until that vote is removed: `DaoProofs.PayOutExact` has the condition, `Discrepancies.UnitTooLargeIff` and `Discrepancies.LargeUnitTakesNoVote` the two claims, and `Discrepancies.LargeUnitRun` the runs that fail.
- A name of two or more characters that starts with white space does not survive printing and parsing: `GitLog.NameSurvivesIff`.
- The rate limiter may admit up to twice its budget in a window, short of it: `RateLimit.AnySpanBound` and `RateLimit.BoundIsReached`.

## Model

| member | source | states |
|---|---|---|
| `DaoProofs.StepKeeps` | contracts/tansu/src/contract_dao.rs:172-881 | every call, successful or not, keeps the invariant: vote books well formed, tallies and aggregates equal to those of the recorded votes, numbering gapless, every asset conserved |
| `DaoProofs.RunKeeps` | contracts/tansu/src/contract_dao.rs:172-881 | the same after every run of calls by anybody, with any clock and any signers but the contract itself |
| `DaoTheorems.ReachableOk` | contracts/tansu/src/contract_dao.rs:172-881 | every intermediate state of every run from deployment satisfies the invariant |
| `DaoTheorems.EscrowConserved` | contracts/tansu/src/contract_dao.rs:204-219 | after every run, for every asset, the contract holds exactly the registration deposits, what active proposals owe, the escrow of revoked proposals, the slashed votes and what strangers sent it |
| `DaoTheorems.ExecutionNeverLacksFunds` | contracts/tansu/src/contract_dao.rs:758-800 | in a reachable state `execute` never fails for lack of collateral |
| `DaoTheorems.DepositIsPaidBack` | contracts/tansu/src/contract_dao.rs:652-675 | what a voter pays when voting is, asset by asset, what execution owes for that vote |
| `DaoProofs.PayOutExact` | contracts/tansu/src/contract_dao.rs:758-800 | the payout of an active proposal succeeds unless votes are recorded for a token whose unit is too large for `i128` (if and only if); it costs the contract what the ballot owes and pays proposer and voters exactly their deposits |
| `DaoTheorems.BallotStep` | contracts/tansu/src/contract_dao.rs:371-881 | one call leaves every proposal it does not address untouched, and changes the addressed one only while it is active, never its terms |
| `DaoTheorems.FinalForever` | contracts/tansu/src/contract_dao.rs:751-756 | a proposal that has left Active never changes again in status, votes, voter order, tallies or conflict list, and every later call on it fails, so nothing is paid twice |
| `CountedVotes.VoteOrigin` | contracts/tansu/src/contract_dao.rs:550-683 | every vote in the book was put there by a successful call of its voter, a vote cast or the abstention at creation, which the voter signed and which granted its weight |
| `CountedVotes.WeightsAreGranted` | contracts/tansu/src/contract_dao.rs:617-650 | in every run from deployment, every vote with weight on a proposal without a voting token was cast in a call that its voter signed, in the name of the voter, with at most the weight that the voter then had |
| `CountedVotes.CountedVotesPrecedeExecution` | contracts/tansu/src/contract_dao.rs:563-800 | in every run from deployment, every vote that an execution counts and pays back was put on record by its voter more than 24 hours before |
| `DaoTheorems.PublicExecution` | contracts/tansu/src/contract_dao.rs:803-820 | in every reachable state: when exactly a public proposal can be executed, and that the result is Approved (Rejected) if and only if the approving (rejecting) weight exceeds half of all recorded weight |
| `ExecutionRules.AnonymousExecuteRule` | contracts/tansu/src/contract_dao.rs:729-898 | in every reachable state and for every argument, `execute` of an anonymous proposal goes through if and only if a maintainer signs, it is time, the deposits can be returned, and three tallies and three seeds are given that open the sums of the recorded commitments, whose own sums fit `u128`; the claimed tallies then decide, everybody gets the deposit back, nothing else changes |
| `ExecutionRules.PublicExecuteRule` | contracts/tansu/src/contract_dao.rs:729-898 | the same for a public proposal, where no tallies and no seeds may be given and the recorded weight decides |
| `ExecutionRules.ProofRule` | contracts/tansu/src/contract_dao.rs:908-969 | `proof` answers for active anonymous proposals of projects that are set up, and says whether each claimed entry opens the sum of the recorded commitments |
| `CallRules.CastRule` | contracts/tansu/src/contract_dao.rs:550-702 | in every reachable state a vote is accepted if and only if it is in time, room is left, the voter has signed, has not voted, is not barred and votes in person with a granted weight above 0, the vote is of the kind of the proposal with commitments in the subgroup, and the deposit can be paid; all that then changes is this vote, this voter and this deposit |
| `CallRules.RemoveRule` | contracts/tansu/src/contract_dao.rs:371-466 | a vote is removed if and only if a maintainer asks while the proposal is active and the vote is there; the order of the other voters stays, no money moves, the deposit counts as slashed |
| `CallRules.RevokeRule` | contracts/tansu/src/contract_dao.rs:482-524 | a proposal is revoked if and only if it is active and a maintainer or an administrator asks; title and link are redacted and nothing else changes |
| `CallRules.AddConflictsRule` | contracts/tansu/src/contract_dao.rs:1045-1085 | the conflict list grows, by exactly the addresses given, if and only if a maintainer asks while the proposal is active |
| `CallRules.RemoveConflictsRule` | contracts/tansu/src/contract_dao.rs:1096-1137 | it loses exactly the addresses given, in the same cases, and the others keep their order |
| `CallRules.CreateRule` | contracts/tansu/src/contract_dao.rs:172-352 | a proposal is created if and only if period, title, link, project, setup, number and deposit are right; it has the next number, its proposer abstains with weight 0, nothing is counted, and only the deposit moves |
| `CallRules.RegisterRule` | contracts/tansu/src/contract_versioning.rs:32-122 | a project is registered if and only if its name is new, alphanumeric and at most 30 long, and one of its maintainers signs and pays 5 units |
| `CallRules.UpdateRule` | contracts/tansu/src/contract_versioning.rs:139-167 | a maintainer may replace everything of a project but its name, and at least one maintainer stays |
| `CallRules.SetupRule` | contracts/tansu/src/contract_dao.rs:35-73 | a maintainer may set up anonymous voting |
| `Refusals.CastRefused` | contracts/tansu/src/contract_dao.rs:550-675 | every refusal of `vote` names a reason that holds |
| `Refusals.RemoveRefused` | contracts/tansu/src/contract_dao.rs:371-400 | so does every refusal of `remove_vote` |
| `Refusals.RevokeRefused` | contracts/tansu/src/contract_dao.rs:482-508 | of `revoke_proposal` |
| `Refusals.ConflictsRefused` | contracts/tansu/src/contract_dao.rs:1045-1109 | of the calls on the conflict list |
| `Refusals.ExecuteRefused` | contracts/tansu/src/contract_dao.rs:729-896 | of `execute`: not its time, wrong arguments, a proof that fails, an outcome that fails, or arithmetic |
| `Refusals.CreateRefused` | contracts/tansu/src/contract_dao.rs:172-305 | of `create_proposal` |
| `Refusals.RegisterRefused` | contracts/tansu/src/contract_versioning.rs:32-92 | of `register` |
| `Refusals.ProjectRefused` | contracts/tansu/src/contract_versioning.rs:139-167 | and of `update_config` and `anonymous_voting_setup` |
| `Authority.OnlySignersPay` | contracts/tansu/src/contract_dao.rs:204-219 | no call charges any account but that of its caller, who has signed; the contract itself pays only when a maintainer closes a proposal |
| `Authority.BallotChangesAreSigned` | contracts/tansu/src/contract_dao.rs:371-881 | a proposal changes only by votes that their voters signed, by the hand of a maintainer of the project, or by an administrator who revokes it |
| `Authority.ProjectChangesAreSigned` | contracts/tansu/src/lib.rs:199-214 | a project changes only by the hand of one of its maintainers, and never its name |
| `DaoTheorems.ProofsAgreeInEveryRun` | contracts/tansu/src/contract_dao.rs:908-969 | in every run, for all claimed tallies and seeds, opening the stored aggregate and recomputing it from the recorded votes give the same answer |
| `DaoTheorems.RunPlays` | contracts/tansu/src/contract_dao.rs:371-702 | while a proposal stays active, its stored ballot moves by the calls addressed to it alone, in order |
| `Undo.RemovalUndoesVoteInRun` | contracts/tansu/src/contract_dao.rs:371-466 | removing a vote after any successful calls by others leaves the ballot (votes, voter order, tallies, aggregate) that those calls alone produce |
| `Undo.RemovedVoteLeavesOnlyItsEscrow` | contracts/tansu/src/contract_dao.rs:371-466 | in every run: the calls that others make between a vote and its removal, on any proposal, also succeed without the vote and lead to the same state, but for the slashed escrow: the balances of voter and contract differ by it, and nothing else does |
| `Undo.StepMirrors` | contracts/tansu/src/contract_dao.rs:371-881 | any one call that does not act on the vote succeeds without it as well, and keeps the difference |
| `Removal.RemoveUndoesVote` | contracts/tansu/src/contract_dao.rs:400-455 | the same for one ballot: cast, any calls that do not concern this voter, remove, equals those calls alone |
| `Removal.PlayMirrors` | contracts/tansu/src/contract_dao.rs:400-455 | a call by anybody else that succeeds with the extra vote succeeds without it, and the two ballots still differ by that vote alone |
| `Conflicts.ConflictKeepsOut` | contracts/tansu/src/contract_dao.rs:589-594 | once on the conflict list of a proposal, an address cannot vote on it in any run until a call takes it off |
| `Conflicts.BarredMeaning` | contracts/tansu/src/contract_dao.rs:1060-1078 | adding conflicts keeps the list and its order, adds what is missing, and repeats nobody |
| `Conflicts.UnbarredMeaning` | contracts/tansu/src/contract_dao.rs:1112-1130 | removing conflicts takes off exactly the addresses given |
| `Conflicts.UnbarredOrder` | contracts/tansu/src/contract_dao.rs:1112-1130 | and leaves the others in their order |
| `BallotProofs.NewBallotOk` | contracts/tansu/src/contract_dao.rs:227-258 | a new ballot, with the abstention of weight 0 of its proposer, is well formed |
| `BallotProofs.CastVoteKeeps` | contracts/tansu/src/contract_dao.rs:563-694 | an accepted vote keeps the book well formed (no voter twice, at most 40, address is key, kind matches) and the tallies equal to those of the recorded votes |
| `BallotProofs.RemoveVoteKeeps` | contracts/tansu/src/contract_dao.rs:393-455 | so does a removal |
| `BallotProofs.EachVoterOnce` | contracts/tansu/src/contract_dao.rs:1172-1189 | `get_all_votes` yields the vote of each voter exactly once |
| `BallotProofs.AddTallyStep` | contracts/tansu/src/contract_dao.rs:1200-1227 | updating the tallies with a vote gives the tallies of the longer vote list, without overflow |
| `BallotProofs.SubtractTallyStep` | contracts/tansu/src/contract_dao.rs:420-452 | reversing a vote gives the tallies of the list without it |
| `BallotProofs.NeverSaturates` | contracts/tansu/src/contract_dao.rs:427-428 | `saturating_sub` never saturates on a well-formed ballot |
| `BallotProofs.AggregateAgreesWithProof` | contracts/tansu/src/contract_dao.rs:1282-1313 | for a well-formed ballot the stored aggregate opens to given tallies and seeds exactly when the recomputation does |
| `BallotProofs.PublicResultIsSupermajority` | contracts/tansu/src/contract_dao.rs:1375-1392 | the result computed from the incremental tallies is the supermajority of the recorded weight, in both directions |
| `Curve.RemovalExactIffSubgroup` | contracts/tansu/src/contract_dao.rs:433-450 | adding `0 - weight` times a commitment undoes adding `weight` times it if and only if the weight is 0 or the commitment lies in the subgroup |
| `Curve.CommitScales` | contracts/tansu/src/contract_dao.rs:117-144 | a weighted commitment commits to the weighted vote and seed |
| `Curve.CommitAdds` | contracts/tansu/src/contract_dao.rs:117-144 | a sum of commitments commits to the sums |
| `Curve.CommitInSubgroup` | contracts/tansu/src/contract_dao.rs:611-615 | the commitments a client builds pass the subgroup check |
| `Curve.SecondOpeningYieldsLogarithm` | contracts/tansu/src/contract_dao.rs:1245-1265 | two openings of one commitment have different seeds, and the discrete logarithm between the generators solves the linear equation between the two openings |
| `Curve.OneSolution` | contracts/tansu/src/contract_dao.rs:1245-1265 | that equation has one solution modulo the order, so the openings determine the logarithm |
| `Curve.CommitmentsAgreeIff` | contracts/tansu/src/contract_dao.rs:117-144 | given the logarithm, two pairs commit to one point if and only if value plus seed times logarithm agree modulo the order |
| `Residues.AdditiveLawful` | contracts/tansu/src/contract_dao.rs:47-53 | the laws assumed of the curve can be met, with generators other than the identity |
| `Escrow.OwedByNewBallot` | contracts/tansu/src/contract_dao.rs:204-219 | the deposit of a proposer is what the new ballot owes, in badge and in token mode |
| `Escrow.PayVotesExact` | contracts/tansu/src/contract_dao.rs:765-800 | paying out a list of votes fails only on arithmetic, and costs and brings exactly what was locked |
| `DaoContract.Tansu.constructor` | contracts/tansu/src/contract_tansu.rs:11-26 | a fresh contract represents the initial state |
| `DaoContract.Tansu.AuthMaintainers` | contracts/tansu/src/lib.rs:199-214 | who may act as maintainer, and the error otherwise |
| `DaoContract.Tansu.GetDao` | contracts/tansu/src/contract_dao.rs:983-1004 | a page holds the proposals numbered from nine times its index, full but for the last; the error cases exactly |
| `DaoContract.Tansu.Fetch` | contracts/tansu/src/contract_dao.rs:381-387 | a proposal is found at page `id / 9`, slot `id % 9`, exactly when it exists |
| `DaoContract.Tansu.GetAllVotes` | contracts/tansu/src/contract_dao.rs:1172-1189 | reads the recorded votes in voter order |
| `DaoContract.Tansu.UpdateTallies` | contracts/tansu/src/contract_dao.rs:1200-1227 | the loop over the commitments computes the specified tallies |
| `DaoContract.Tansu.ReverseTallies` | contracts/tansu/src/contract_dao.rs:420-452 | the loop of `remove_vote` computes the reversed tallies |
| `DaoContract.Tansu.Aggregate` | contracts/tansu/src/contract_dao.rs:934-958 | the loop of `proof` computes the weighted sums of commitments of the recorded votes |
| `DaoContract.Tansu.CommitmentChecks` | contracts/tansu/src/contract_dao.rs:1245-1265 | the commitments to the claimed tallies and seeds |
| `DaoContract.Tansu.CheckOpening` | contracts/tansu/src/contract_dao.rs:1282-1313 | accepts exactly the openings of the stored aggregate |
| `DaoContract.Tansu.CheckProof` | contracts/tansu/src/contract_dao.rs:908-969 | `proof` on whatever proposal value it is given: the votes of its number decide, or the error |
| `DaoContract.Tansu.RegisterProject` | contracts/tansu/src/contract_versioning.rs:32-122 | registers with a deposit, or fails and changes nothing |
| `DaoContract.Tansu.GetProjects` | contracts/tansu/src/contract_versioning.rs:253-274 | a page of registered projects in order, ten to a page; the lookup of a listed project never fails |
| `DaoContract.Tansu.UpdateProjectConfig` | contracts/tansu/src/contract_versioning.rs:139-167 | replaces maintainers, url and content link of the project, and nothing else |
| `DaoContract.Tansu.SetupAnonymousVoting` | contracts/tansu/src/contract_dao.rs:35-73 | stores the public key, which makes anonymous voting available for the project, and changes nothing else |
| `DaoContract.Tansu.CreateProposal` | contracts/tansu/src/contract_dao.rs:172-352 | the keyed writes represent the specified next state and return the next number; a failing call changes nothing |
| `DaoContract.Tansu.CheckBallot` | contracts/tansu/src/contract_dao.rs:563-650 | the checks on a vote, in the order of the source, with their errors |
| `DaoContract.Tansu.CastVote` | contracts/tansu/src/contract_dao.rs:550-702 | `vote` takes the stored state to the specified one, or fails and changes nothing |
| `DaoContract.Tansu.RemoveVoteOf` | contracts/tansu/src/contract_dao.rs:371-466 | so does `remove_vote` |
| `DaoContract.Tansu.RevokeProposal` | contracts/tansu/src/contract_dao.rs:482-524 | so does `revoke_proposal` |
| `DaoContract.Tansu.PayBack` | contracts/tansu/src/contract_dao.rs:758-800 | the payout loop returns every escrow |
| `DaoContract.Tansu.ExecuteProposal` | contracts/tansu/src/contract_dao.rs:729-881 | `execute` takes the stored state to the specified one and returns the status, or fails and changes nothing |
| `DaoContract.Tansu.AddConflictsOfInterest` | contracts/tansu/src/contract_dao.rs:1045-1082 | extends the conflict list without repeats, for active proposals only |
| `DaoContract.Tansu.RemoveConflictsOfInterest` | contracts/tansu/src/contract_dao.rs:1096-1134 | takes addresses off the conflict list, for active proposals only |
| `Discrepancies.DocumentedIff` | contracts/tansu/src/contract_dao.rs:1316-1392 | the documented winner (the larger of approval and rejection) is the result if and only if the two are even or one exceeds the sum of the other two |
| `Discrepancies.DocumentedResultIff` | contracts/tansu/src/contract_dao.rs:1316-1335 | the same for a public proposal, by recorded weight |
| `Discrepancies.DocumentedResultFails` | contracts/tansu/src/contract_dao.rs:1316-1335 | two votes, one to approve and one abstention, on which the documented result is wrong |
| `Discrepancies.UnitTooLargeIff` | contracts/tansu/src/contract_dao.rs:652-660 | the unit of a token leaves `i128` exactly from 39 decimals on |
| `Discrepancies.LargeUnitTakesNoVote` | contracts/tansu/src/contract_dao.rs:652-660 | no vote on such a proposal succeeds, and in a reachable state none of its votes has weight |
| `Discrepancies.LargeUnitRun` | contracts/tansu/src/contract_dao.rs:771-788 | every run from deployment that registers a project, creates such a proposal and executes it in time fails there on arithmetic |
| `Discrepancies.LargeUnitRunExists` | contracts/tansu/src/contract_dao.rs:771-788 | such runs exist |
| `Storage.LoadThroughPage` | contracts/tansu/src/contract_dao.rs:983-1029 | the slot of a number exists exactly when the proposal does, and holds it |
| `Storage.AppendedMatch` | contracts/tansu/src/contract_dao.rs:270-304 | pushing a proposal to its page keeps all pages full but the last |
| `Storage.StoredNew` | contracts/tansu/src/contract_dao.rs:306-347 | the keyed writes of a new proposal represent the state with that proposal |
| `AnonymousTally.AccumulateAnonymousTally` | dapp/src/utils/anonymousTally.ts:58-75 | the nested loops compute the weighted sums and the vote counts |
| `AnonymousTally.CountsBallots` | dapp/src/utils/anonymousTally.ts:70 | the vote counts are the numbers of ballots with a positive value, whatever their weights |
| `AnonymousTally.TallyFits` | dapp/src/utils/anonymousTally.ts:58-75 | for at most 40 voters with precise values all sums are below 2^128 |
| `AnonymousTally.SumsOpen` | dapp/src/utils/anonymousTally.ts:58-75 | the recomputed aggregate is the commitment to the sums of the client |
| `AnonymousTally.ClientTallyAccepted` | contracts/tansu/src/contract_dao.rs:1245-1313 | if the decoded values open the recorded commitments, the tally of the client is accepted by `proof` and `execute` |
| `AnonymousTally.OtherTallyYieldsLogarithm` | contracts/tansu/src/contract_dao.rs:1245-1313 | any other accepted tally has an entry whose seed differs from that of the client, and the equation between the two entries is solved by the discrete logarithm between the generators |
| `AnonymousTally.AcceptedTalliesIff` | contracts/tansu/src/contract_dao.rs:1245-1313 | given the logarithm, exactly the tallies on the line of the client are accepted, entry by entry |
| `AnonymousExecution.ClientTallyExecutes` | contracts/tansu/src/contract_dao.rs:821-881 | in a reachable state the tally of the client executes an anonymous proposal if and only if it is time, the votes can be paid back and the outcome is delivered, and then with the status of that tally |
| `AnonymousTally.AnonymousResultIsPublicResult` | contracts/tansu/src/contract_dao.rs:1348-1392 | when every ballot is for one choice, the anonymous result is that of the same votes in public |
| `AnonymousTally.DecodeReadsPrinted` | dapp/src/utils/anonymousTally.ts:48-52 | decoding a payload that ends in a printed number gives that number, whatever the salt, although `parseInt` also reads signs, blanks and hexadecimal |
| `AnonymousTally.ParseIntRules` | dapp/src/utils/anonymousTally.ts:48-50 | what `parseInt` makes of signs, blanks, trailing text, hexadecimal digits and texts that are no number |
| `ProposalPages.PagesAreFilledInOrder` | contracts/tansu/src/contract_dao.rs:277-293 | a page has proposals exactly if its first number exists; then all pages before it are full |
| `ProposalPages.GetProposalPages` | dapp/src/service/ReadContractService.ts:142-190 | doubling and halving terminate with the exact number of pages that have proposals, or 1 when there are none |
| `Backfill.Backfiller.CommitProgress` | tansu/src/tansu/events/backfill.py:88-144 | rows and checkpoint change together; every event has a row with its action, project and value, old rows stay, and no new row agrees with an earlier one in all three |
| `Backfill.Backfiller.FetchPageWithBackoff` | tansu/src/tansu/events/backfill.py:45-78 | the first reply within the allowed retries, or none |
| `Backfill.Backfiller.BackfillFromGenesis` | tansu/src/tansu/events/backfill.py:147-266 | the loop does what the specified run does, whatever pages, failures and kills come; it is refused exactly on another genesis, and finishes exactly if the backfill is then complete |
| `Backfill.FetchRule` | tansu/src/tansu/events/backfill.py:45-78 | a page is fetched if and only if at most the allowed number of errors come before it, and it is the first one |
| `Backfill.MergeColumns` | tansu/src/tansu/events/database/db_models.py:18-22 | merging events into the table loses none, repeats none by action, project and value, and keeps their order |
| `Backfill.RowsApart` | tansu/src/tansu/events/database/db_models.py:18-22 | two events that differ in any one of the three columns have different rows |
| `Backfill.RangeMeaning` | tansu/src/tansu/events/backfill.py:193-210 | the log of a range holds exactly the events of the chain from the first to the last ledger, in order |
| `Backfill.MergeMeaning` | tansu/src/tansu/events/backfill.py:101-124 | the rows are the log without later repeats: the first occurrence of each key, in order |
| `Backfill.RunKeepsConsistent` | tansu/src/tansu/events/backfill.py:193-266 | one run, cut off anywhere, leaves rows that are the deduplicated log before the stored cursor |
| `Backfill.HistoryConsistent` | tansu/src/tansu/events/backfill.py:147-266 | so does every history of crashes and restarts, with a different tip, page sizes and failures in each |
| `Backfill.HistoryRows` | tansu/src/tansu/events/backfill.py:147-266 | after any history the table starts with the rows that were there, has a row with the action, project and value of every event before the stored cursor (of every event of the range, once completed), and no new row repeats an earlier one |
| `Backfill.CrashCostsLittle` | tansu/src/tansu/events/backfill.py:233-256 | however a run ends, what it had fetched and not stored spans fewer ledgers than the checkpoint interval |
| `Backfill.FreshRunCompletesIff` | tansu/src/tansu/events/backfill.py:193-266 | a fresh run, with any errors, retries and page sizes, completes if and only if before it dies a page comes without a cursor once the pages had room for the whole range; then it has the whole range |
| `Backfill.ResumedRunCompletesIff` | tansu/src/tansu/events/backfill.py:193-266 | a resumed run completes if and only if its pages have room for what lies at or after the stored cursor |
| `Backfill.UninterruptedSuffices` | tansu/src/tansu/events/backfill.py:193-266 | pages that make progress, without errors, always suffice |
| `Backfill.CompletedEqualsUninterrupted` | tansu/src/tansu/events/backfill.py:160-172 | once complete, after any history, rows and checkpoint are those of any one run from scratch that gets through to the recorded tip, and another run changes nothing |
| `Backfill.LedgerFallbackSafeIff` | tansu/src/tansu/events/database/db_models.py:32-40 | restarting after the last completed ledger would lose nothing if and only if no event of that ledger lies at or after the cursor |
| `Backfill.LedgerFallbackLosesAnEvent` | tansu/src/tansu/events/database/db_models.py:32-40 | a run after which that fallback would lose an event |
| `QueryCache.QueryStore.GetStore` | dapp/src/service/cache/cacheStore.ts:40-61 | returns the entry of a key, a fresh one if there was none |
| `QueryCache.QueryStore.FetchWithCache` | dapp/src/service/cache/cacheStore.ts:95-129 | serves, shares or starts a request, with the specified next state |
| `QueryCache.QueryStore.OnResolved` | dapp/src/service/cache/cacheStore.ts:132-144 | a result that arrives is written only if its request is the current one |
| `QueryCache.QueryStore.OnRejected` | dapp/src/service/cache/cacheStore.ts:146-161 | so is an error |
| `QueryCache.QueryStore.InvalidateQuery` | dapp/src/service/cache/cacheStore.ts:77-93 | the loop overtakes and expires every entry whose key continues the given one and keeps its data, and touches no other |
| `QueryCache.InvalidationReaches` | dapp/src/service/cache/cacheStore.ts:20-23 | an invalidation of a key reaches exactly the registered keys that are this key followed by anything |
| `QueryCache.FetchRule` | dapp/src/service/cache/cacheStore.ts:95-129 | what is served is fresh, what is shared is a stored promise, a forced fetch always starts the next request, and serving and sharing leave the cache alone |
| `QueryCache.ArrivalRule` | dapp/src/service/cache/cacheStore.ts:132-144 | when a result arrives for the current request the entry shows it, fresh, without error and at rest |
| `QueryCache.AlwaysSensible` | dapp/src/service/cache/cacheStore.ts:77-161 | in every interleaving, what a subscriber sees of loading, fetching, staleness, status and error fits together |
| `QueryCache.DataExplained` | dapp/src/service/cache/cacheStore.ts:132-144 | data shown, fresh or stale, is that of the last result written |
| `QueryCache.ErrorExplained` | dapp/src/service/cache/cacheStore.ts:146-155 | an error shown is that of a request that failed while current, with no fetch, result or invalidation since |
| `QueryCache.AlwaysOk` | dapp/src/service/cache/cacheStore.ts:77-166 | in every interleaving an entry is marked as fetching exactly while its current request is in flight, and no flight carries an id not handed out |
| `QueryCache.WritesIncrease` | dapp/src/service/cache/cacheStore.ts:115-117 | for every interleaving: the requests that write into an entry have strictly increasing ids |
| `QueryCache.OvertakenFetchWritesNothing` | dapp/src/service/cache/cacheStore.ts:133-134 | a fetch begun before an invalidation that reaches the key leaves the entry as it is whenever it lands |
| `QueryCache.ExpiryExplained` | dapp/src/service/cache/cacheStore.ts:135-144 | data with a live expiry came from a fetch begun after the last matching invalidation |
| `QueryCache.FreshReadExplained` | dapp/src/service/cache/cacheStore.ts:99-109 | a read served as fresh was not forced, and returns data of a fetch begun after the last invalidation that reaches the key, before the time to live of that result has passed |
| `QueryCache.FreshResultServes` | dapp/src/service/cache/cacheStore.ts:99-109 | conversely, a result with a time to live serves every read in that time until another result is written or an invalidation reaches the key |
| `GitLog.ConvertToGitLogFormat` | dapp/src/service/ContributionMetricsService.ts:50-74 | the loop prints the specified lines of every commit |
| `GitLog.ParseCommitBlock` | dapp/src/service/GitLogService.ts:44-105 | the loop over the lines reads a block as specified |
| `GitLog.ParseGitLog` | dapp/src/service/GitLogService.ts:28-42 | the loop over the blocks keeps the commits that can be read, in order |
| `GitLog.BlockCut` | dapp/src/service/GitLogService.ts:30-31 | a printed commit is one block, whatever follows it: no line of its message is taken for a header |
| `GitLog.PersonReadBack` | dapp/src/service/GitLogService.ts:68-78 | what the author pattern reads back from a printed author line, for every one-line name |
| `GitLog.NameSurvivesIff` | dapp/src/service/GitLogService.ts:69-77 | the author name of a parsed commit is the one printed if and only if that is empty, one character long or does not start with white space |
| `GitLog.RoundTrip` | dapp/src/service/GitLogService.ts:28-105 | parsing a printed log gives the same commits in order with hash, name, date and trimmed message, even when message lines look like headers |
| `GitLog.ReadsGitLog` | dapp/src/service/GitLogService.ts:28-105 | a log in the format of git itself, with any authors, committers, alignment and indented messages, is read commit by commit with hashes, names, addresses, dates and messages as they stand there |
| `GitLog.PrintedText` | dapp/src/service/ContributionMetricsService.ts:50-74 | the text printed for a commit, line by line |
| `GitLog.HeaderIff` | dapp/src/service/GitLogService.ts:46-50 | a block is read if and only if its first line is the word and 40 lower-case hexadecimal digits |
| `GitLog.HeaderText` | dapp/src/service/GitLogService.ts:30-31 | a header is the word, a full hash, and then the end of the line or of the text |
| `GitLog.PersonMatchIff` | dapp/src/service/GitLogService.ts:68-78 | the author pattern matches exactly the lines of a tag, white space, a name and an address in brackets, and what it finds is written there |
| `GitLog.TrimMeaning` | dapp/src/service/GitLogService.ts:97-103 | trimming takes all white space off both ends and nothing else |
| `PonyFactor.CalculateMetrics` | dapp/src/service/GitLogService.ts:143-223 | the counting loop and the sort produce the specified list of contributors |
| `PonyFactor.TallyCounts` | dapp/src/service/GitLogService.ts:156-185 | the list names every counted author once, and for every set of authors adds up to the commits they made |
| `PonyFactor.SortEffect` | dapp/src/service/GitLogService.ts:219-221 | sorting is a permutation into descending count |
| `PonyFactor.SortStable` | dapp/src/service/GitLogService.ts:219-221 | contributors with equally many commits stay in the order in which they first appeared |
| `PonyFactor.ContributorsAreAuthors` | dapp/src/service/GitLogService.ts:156-185 | each entry has the name and address of an author, no other entry has both, and its count is the number of commits with that name and address |
| `PonyFactor.AuthorsAreListed` | dapp/src/service/GitLogService.ts:150-178 | every author who is not a bot has such an entry |
| `PonyFactor.SameContributorIff` | dapp/src/service/GitLogService.ts:156 | two commits count for one contributor if and only if name and address of their authors agree, for addresses without an angle bracket |
| `PonyFactor.CalculatePonyFactor` | dapp/src/service/GitLogService.ts:263-284 | the loop stops at the first prefix that holds half of the commits |
| `PonyFactor.PonyFactorIsLeast` | dapp/src/service/GitLogService.ts:259-284 | the factor is the least size of any set of authors behind at least half of the counted commits |
| `Badges.Membership.AddMember` | contracts/tansu/src/contract_membership.rs:18-40 | adds a member, or fails and changes nothing |
| `Badges.Membership.UpdateMember` | contracts/tansu/src/contract_membership.rs:51-71 | changes the text of a member and nothing else |
| `Badges.Membership.RelistAll` | contracts/tansu/src/contract_membership.rs:158-186 | the loop over the kinds relists the member under exactly the kinds given |
| `Badges.Membership.SetBadges` | contracts/tansu/src/contract_membership.rs:110-197 | writes both indexes as specified, or fails and changes nothing |
| `Badges.RunIndex` | contracts/tansu/src/contract_membership.rs:110-197 | after every run: an address is listed under a kind exactly if its entry for the project has that badge, no list repeats an address, no member has two entries for a project |
| `Badges.SetBadgesEffect` | contracts/tansu/src/contract_membership.rs:110-197 | only this member in this project changes, and the order among the other holders stays |
| `Badges.ListedLast` | contracts/tansu/src/contract_membership.rs:158-186 | the member goes to the end of exactly the lists of the kinds given |
| `Badges.StepRule` | contracts/tansu/src/contract_membership.rs:18-130 | members sign up and speak for themselves only, and badges are given by a maintainer of the project to a member: exactly when each call goes through, and what it leaves of the book |
| `Badges.WeightByKind` | contracts/tansu/src/contract_membership.rs:244-283 | the maximum weight by the numbers of badges of each kind, 1 without any, and a trap beyond `u32` |
| `Badges.WeightFits` | contracts/tansu/src/contract_membership.rs:257-278 | at most 429 badges always have a weight |
| `Badges.ManyDevelopersOverflow` | contracts/tansu/src/contract_membership.rs:264-274 | a run that stores 430 developer badges for a member, whose weight then overflows `u32` |
| `Badges.WeightFromLists` | contracts/tansu/src/contract_membership.rs:257-278 | in a reachable state the weight of a member whose badges do not repeat can be read off the lists of the project |
| `Upgrade.Contract.Pause` | contracts/tansu/src/contract_tansu.rs:35-54 | sets the flag, for administrators only |
| `Upgrade.Contract.CheckAdmin` | contracts/tansu/src/contract_tansu.rs:341-348 | who may act as administrator |
| `Upgrade.Contract.ProposeUpgrade` | contracts/tansu/src/contract_tansu.rs:159-201 | one pending proposal at a time, with a reasonable configuration |
| `Upgrade.Contract.ApproveUpgrade` | contracts/tansu/src/contract_tansu.rs:214-250 | one approval for each administrator |
| `Upgrade.Contract.FinalizeUpgrade` | contracts/tansu/src/contract_tansu.rs:266-319 | carries out or cancels the pending proposal |
| `Upgrade.AlwaysSound` | contracts/tansu/src/contract_tansu.rs:159-319 | after every run the threshold is between 1 and the number of listed administrators, and approvals are by distinct administrators, at least one |
| `Upgrade.StepRule` | contracts/tansu/src/contract_tansu.rs:35-319 | exactly when each call of an administrator goes through, and the whole next state |
| `Upgrade.FlagIsLastPause` | contracts/tansu/src/contract_tansu.rs:35-54 | after every run the contract is paused if and only if the last successful `pause` said so, or there was none |
| `Upgrade.UpgradesAreSigned` | contracts/tansu/src/contract_tansu.rs:252-319 | every upgrade was proposed at least 24 hours before and signed in separate calls by at least `threshold` distinct administrators of the configuration in force, unchanged in between; it installs the code and the configuration proposed |
| `Upgrade.CanUpgradeIff` | contracts/tansu/src/contract_tansu.rs:159-319 | from a sound state an upgrade can be carried out if and only if the list holds `threshold` different addresses |
| `Upgrade.LockedOut` | contracts/tansu/src/contract_tansu.rs:159-319 | without that many, no run ever upgrades or changes the configuration |
| `Upgrade.QuorumCanUpgrade` | contracts/tansu/src/contract_tansu.rs:159-319 | with that many, calls at one instant and one a day later carry an upgrade out |
| `Upgrade.RepeatedAdminLocksOut` | contracts/tansu/src/contract_tansu.rs:179-182 | a configuration that repeats an address passes the check and locks everybody out |
| `RateLimit.Limiter.CheckAndConsumeBudget` | dapp/workers/ipfs-delegation/src/rateLimit.ts:95-139 | accepts and counts, or refuses or throws and changes nothing, as specified |
| `RateLimit.AcceptedIff` | dapp/workers/ipfs-delegation/src/rateLimit.ts:95-125 | a check passes if and only if what the identity really consumed leaves room within its own limits, for an address those of addresses and for an account those of accounts |
| `RateLimit.Limiter.AuthorizeUpload` | dapp/workers/ipfs-delegation/src/rateLimit.ts:154-199 | allowed if and only if the store works and the address and the account both have room within their own limits; a refusal names the end of the window; a store that throws denies the upload for a minute |
| `RateLimit.OtherIdentities` | dapp/workers/ipfs-delegation/src/rateLimit.ts:161-178 | the checks of two identities do not see each other, so their order does not matter |
| `RateLimit.ExpiryIsHarmless` | dapp/workers/ipfs-delegation/src/rateLimit.ts:127-136 | the expiry never drops a bucket that a check still needs: both buckets read as what was really consumed |
| `RateLimit.WindowBound` | dapp/workers/ipfs-delegation/src/rateLimit.ts:104-125 | in the window that ends with an accepted check, requests and bytes stay within `max * (1 + e / W)`, less than `2 * max` |
| `RateLimit.AnySpanBound` | dapp/workers/ipfs-delegation/src/rateLimit.ts:104-125 | in every span of one window an identity consumes nothing, or at most `max * (1 + e / W)` with `e` the offset of its last accepted check in the span, less than twice its budget |
| `RateLimit.BoundIsReached` | dapp/workers/ipfs-delegation/src/rateLimit.ts:1-6 | the bound is reached: three requests in one window under a budget of two |
| `Decimal.U32ToDecimalBytes` | contracts/scf-membership/src/scf_token.rs:146-171 | fills the buffer with exactly the digits of the number, at most 10 bytes of 20 |
| `Decimal.DigitsRead` | contracts/scf-membership/src/scf_token.rs:146-171 | reading the digits back gives the number, and there is no leading zero |
| `Decimal.CanonicalUnique` | contracts/scf-membership/src/scf_token.rs:146-171 | no other text without a leading zero reads as that number |

## Left out

The contract

- Curve arithmetic, hash-to-curve and point encodings: points are elements of an abstract commutative group with a scalar order above 2^128, and the two generators are fixed elements of the subgroup of that order. Binding also asks that the order is prime and the vote generator is not the identity.
- The collateral asset and the decimals of every token are fixed for a deployment: changing the collateral contract while proposals are open is outside the conservation result.
- Every voting token is honest: `create_proposal` takes any address as token contract, while the model gives each token fixed decimals and transfers that move exactly the amount.
- The contract never signs a call of its own, and outcome contracts move none of its funds: `execute` only learns whether their call succeeded.
- `retrieve_contract`, wasm validation, events, storage TTL and the Neural Quorum Governance score: host effects. The maximum weight of a voter is a parameter of a call.
- The pause flag, the clock, the signers and the administrators are parameters of each call in `Dao`; `Upgrade` and `Badges` model the code that changes them. After an upgrade the model goes on with the same code.
- `commit` and `set_sub_projects`: plain writes.
- The field `votes` of a stored proposal, which is always empty: `get_proposal` fills it from the keyed votes.
- Encrypted seeds and votes: only their number enters a check.
- `mint` and `clawback` of the membership token: at most one token for each owner is not enforced by the code, so there is no law to prove.
- DaoTheorems.ProofsAgreeInEveryRun: for active proposals, since `proof` and `execute` refuse all others.

The clients

- AnonymousTally.ClientTallyAccepted: takes the decoded values as openings of the recorded commitments; decryption is not part of the model.
- Backfill.HistoryConsistent: for one backfiller at a time on one fixed ordered log, with cursors that continue the same range; these are assumptions on the lock and on the RPC server. The checkpoint is loaded before the lock is taken, so two concurrent backfillers are not covered.
- The cache shares promises only if fetchers neither throw before their first await nor ask for their own key; the results hold for any such order of events and do not rely on it. Keys are strings and finite numbers, for which the serialized form is unambiguous.
- GitLog.ParseCommitBlock: leaves out the trailers of the message (`parseCommitMetadata`), which feed no metric.
- PonyFactor.CalculateMetrics: leaves out dates of activity, monthly statistics and line counts, on which the pony factor does not depend; the bot patterns are a parameter.
- RateLimit.WindowBound: settings are positive integers and weights are exact fractions, where the source computes in floating point; the clock and the expiry count whole seconds; checks on one identity are sequential, as the read and the write of a counter are not atomic. A write that throws is taken not to have been stored.
- ProposalPages.GetProposalPages: the pages do not change during the search, and remote reads do not fail.
- GitLog.RoundTrip: characters are Unicode scalar values rather than UTF-16 units.
- React components, wallets, IPFS, Horizon, the REST service and migrations: plumbing.
