# DealFactory escrow, modelled in Dafny

DealFactory is an escrow for freelance tasks paid in an ERC-20 token (DAI).

- **The factory.** A `ProposalFactory` deploys one `Proposal` contract per task. The contract holds:
  - a customer, a contractor and an arbiter;
  - the contractor's reward and the arbiter's fee;
  - a task deadline and a 24-hour "revert window";
  - the IPFS hashes of the task and of the solution.
- **The lifecycle.** A proposal moves through eight states:

  | State | How it is reached |
  |---|---|
  | ZS | just deployed |
  | INIT | after `setup` |
  | PROPOSED | the contractor has stated terms |
  | PREPAID | the customer has paid both rewards into the proposal's account |
  | COMPLETED | the contractor has delivered |
  | DISPUTE | the customer has contested the delivery |
  | RESOLVED | the arbiter has split the reward |
  | CLOSED | withdrawn, abandoned, refunded or timed out |

- **The client.** The web client:
  1. reads the created proposals' addresses out of the factory's event logs;
  2. keeps them in a Redux store;
  3. shows each one as a card with a state label and the buttons the viewer's role allows;
  4. splits them into "My tasks" and "Open tasks".

The Solidity sources are not part of this model. The repository pins the contract down through its truffle suites (`test_INIT`, `test_PROPOSED`, `test_PREPAID`, `test_DISPUTE`). Every transaction those suites send, and every revert they expect, fixes a branch of the model.

The project has four layers:

- **`Escrow`** (`escrow.dfy`) is the contract as a state machine over values.
  - A `World` is one proposal's storage plus the token ledger (`erc20.dfy`).
  - Each operation maps the world, the sender and the block timestamp to the next world, or to the reason the transaction reverts.
  - `EscrowProperties` proves, for every world, what the suites check on one trace:
    - fund safety: the proposal holds exactly the escrow its state calls for;
    - who may send what, and the lifecycle edges;
    - frozen terms;
    - exact payouts;
    - refund round trips.
- **`Contracts`** (`contracts.dfy`) is the same three contracts as classes whose fields change in place: `Token`, `Proposal` and `ProposalFactory`.
  - Each transaction method is proved to leave exactly the state `Escrow` prescribes, or to change nothing when it reverts.
  - Each method keeps the fund-safety invariant `Valid()`.
- **`EscrowScenarios`** replays every transaction the four suites send, on those objects, with the revert or success each expects. It proves the balances and final states each suite asserts.
- **The client** is modelled in five modules:
  - `FactoryLog` for the log parser of `Proposal.all`;
  - `StoreActions` and `Reducers` for the Redux store;
  - `ProposalView` for the card;
  - `AllProposals` for the two lists, over `Sequences.Filter`.

  `ViewAgainstContract` checks the card's buttons against what the contract accepts.

## Model

| member | source | states |
|---|---|---|
| States.Ordinal | blockchain/test/test_DISPUTE.js:13-22 | the states are numbered 0 to 7; 0 is ZS alone, 1 INIT alone, 7 CLOSED alone |
| States.FromOrdinal | front/src/model/proposal.ts:4-6 | a number names a state exactly when it is below 8, and it names the state with that number |
| States.OrdinalRoundTrip | front/src/model/proposal.ts:4-6 | the number the contract reports for a state reads back in the client as that same state |
| States.OrdinalInjective | blockchain/test/test_DISPUTE.js:13-22 | two states with the same number are the same state |
| Erc20.AbiUint256 | blockchain/test/test_DISPUTE.js:194-197 | a negative JavaScript number sent as a uint256 arrives as 2^256 plus it; a value in range arrives unchanged |
| Erc20.Transfer | blockchain/test/test_DISPUTE.js:84 | a transfer succeeds exactly when the sender holds the amount; it moves exactly that amount and touches no allowance |
| Erc20.TransferFrom | blockchain/test/test_DISPUTE.js:226-238 | a delegated transfer needs both the allowance and the balance; it moves the amount and uses up that much of that one allowance |
| Erc20.Approve | blockchain/test/test_DISPUTE.js:233 | approve sets that one allowance to the amount and changes no balance |
| Erc20.Disburse | blockchain/test/test_DISPUTE.js:464-486 | paying a list out of one account succeeds when the account holds their total; each account then gains what it is paid, minus the total for the payer |
| Escrow.Deployed | blockchain/test/test_INIT.js:80-89 | a freshly deployed proposal is in ZS at its own address, owned by its factory |
| Escrow.Setup | blockchain/test/test_INIT.js:91-101 | setup changes no balance |
| Escrow.ResponseToProposal | blockchain/test/test_DISPUTE.js:160-201 | a response changes no balance |
| Escrow.AnnounceTaskCompleted | blockchain/test/test_DISPUTE.js:300-346 | an announcement changes no balance; `AnnounceRecordsSolution` states when it succeeds and what it stores |
| Escrow.StartDispute | blockchain/test/test_DISPUTE.js:366-399 | starting a dispute changes no balance; `StartDisputeGuards` states when it succeeds and the window it opens |
| Escrow.PayOut | blockchain/test/test_DISPUTE.js:464-486 | a payout the proposal can afford succeeds; it debits the proposal the total and credits each payee its share |
| Escrow.PushToPrepaidState | blockchain/test/test_DISPUTE.js:247-258 | a prepayment moves exactly both rewards from the customer's account to the proposal's; the proposal becomes PREPAID with its revert window 24 hours from now, all else as it was |
| Escrow.CloseProposal | blockchain/test/test_PREPAID.js:300-333 | a close changes nothing in the proposal but its state, which becomes CLOSED; from INIT or PROPOSED it moves no token. Who may close when is stated per state by `UnfundedCloseGuards`, `PrepaidCloseGuards` and `TimeoutClosePaysContractor` |
| Escrow.ResolveDispute | blockchain/test/test_DISPUTE.js:464-486 | a resolution changes nothing in the proposal but its state, which becomes RESOLVED; the evidence hash is not stored |
| Escrow.Apply | blockchain/test/test_DISPUTE.js:121-131 | a call succeeds only in a state that admits it and only from its one authorised sender |
| Escrow.ReceiptOf | blockchain/test/test_INIT.js:36-49 | a transaction is reported as reverted exactly when the model refuses it, with the refusal's reason |
| EscrowProperties.ApplyKeepsConsistent | blockchain/test/test_DISPUTE.js:247-258 | every successful transaction keeps the proposal's balance equal to its escrow: both rewards while PREPAID, COMPLETED or DISPUTE, zero otherwise. The three parties stay distinct from each other and from the proposal |
| EscrowProperties.CloseKeepsConsistent | blockchain/test/test_PREPAID.js:316-333 | a successful close from a consistent world leaves a consistent one: the proposal's account is empty, and the three parties stay distinct from each other and from the proposal |
| EscrowProperties.ResolveKeepsConsistent | blockchain/test/test_DISPUTE.js:484-485 | a successful resolution leaves the proposal's account empty |
| EscrowProperties.WrongCallerIsUnauthorized | blockchain/test/test_DISPUTE.js:281-284 | in a state that admits a call, any other sender is refused as unauthorised |
| EscrowProperties.DisabledCallIsInvalidTransition | blockchain/test/test_DISPUTE.js:139-158 | in a state that does not admit a call, the call reverts whoever sends it |
| EscrowProperties.SetupAtMostOnce | blockchain/test/test_DISPUTE.js:203-211 | once set up, setup reverts for every sender |
| EscrowProperties.SuccessFollowsLifecycle | blockchain/test/test_DISPUTE.js:139-142 | each successful transaction follows a lifecycle edge and never changes the parties, the fee or the task hash; RESOLVED and CLOSED are final |
| EscrowProperties.TermsFrozenOncePrepaid | blockchain/test/test_DISPUTE.js:260-263 | from PREPAID on, no transaction changes either reward or the task deadline |
| EscrowProperties.ResponseRecordsTerms | blockchain/test/test_DISPUTE.js:173-201 | a response succeeds exactly from INIT or PROPOSED, from the contractor, with a deadline ahead. It stores that deadline and reward and leaves the proposal PROPOSED |
| EscrowProperties.PrepayEscrowsExactly | blockchain/test/test_DISPUTE.js:247-258 | prepayment moves exactly both rewards from the customer to the proposal, uses up that much allowance, moves no other balance and opens a 24-hour window |
| EscrowProperties.PrepayNeedsApprovalAndBalance | blockchain/test/test_DISPUTE.js:226-238 | the customer's prepayment in PROPOSED succeeds exactly when the customer approved and holds both rewards and their sum fits a uint256 |
| EscrowProperties.RefundRestoresBalances | blockchain/test/test_PREPAID.js:300-333 | a prepayment followed by the customer's close, inside the revert window or after the task deadline, always succeeds and restores every balance |
| EscrowProperties.PrepaidCloseGuards | blockchain/test/test_DISPUTE.js:281-297 | in PREPAID a close succeeds exactly when the customer sends it inside the revert window or after the task deadline; between the two the customer is refused for timing |
| EscrowProperties.ExactlyOneExitAfterRevertWindow | blockchain/test/test_DISPUTE.js:300-341 | after the revert window, the contractor's announcement succeeds exactly when the customer's close does not |
| EscrowProperties.AnnounceRecordsSolution | blockchain/test/test_DISPUTE.js:300-346 | an announcement succeeds exactly from PREPAID, from the contractor, with a non-empty hash, after the revert window and by the task deadline. It then stores the hash, makes the proposal COMPLETED, opens a 24-hour dispute window and changes nothing else |
| EscrowProperties.StartDisputeGuards | blockchain/test/test_DISPUTE.js:366-399 | in COMPLETED a dispute succeeds exactly from the customer, inside the window, offering between 0 and the reward, both exclusive. It then makes the proposal DISPUTE with a 24-hour window for the arbiter and changes nothing else |
| EscrowProperties.ExactlyOneExitAfterDelivery | blockchain/test/test_DISPUTE.js:366-389 | in COMPLETED, with an admissible offer, the customer's dispute succeeds exactly when the customer's close does not: inside the window the customer can only dispute, after it only settle |
| EscrowProperties.ResolveDisputeGuards | blockchain/test/test_DISPUTE.js:442-473 | in DISPUTE a resolution succeeds exactly from the arbiter, inside its window, with a decision between 0 and the contractor's reward, both exclusive |
| EscrowProperties.ResolvePaysExactly | blockchain/test/test_DISPUTE.js:464-486 | an in-time resolution is RESOLVED and pays the contractor the decision, the arbiter its fee and the customer the rest. It empties the proposal and moves nothing else |
| EscrowProperties.TimeoutClosePaysContractor | blockchain/test/test_DISPUTE.js:401-440 | in COMPLETED or DISPUTE a close succeeds exactly from the customer after the current window; inside it the customer is refused for timing. A close is CLOSED, pays the contractor the full reward and the customer the arbiter's fee, empties the proposal, and moves no other balance. The COMPLETED half rests on the choice under "Closing in COMPLETED" |
| EscrowProperties.UnfundedCloseGuards | blockchain/test/test_INIT.js:130-136 | in INIT a close succeeds exactly from the customer, in PROPOSED exactly from the contractor, at any time; it only makes the proposal CLOSED and moves no token |
| Contracts.Token.constructor | blockchain/test/test_DISPUTE.js:84 | the token starts with the given balances and allowances |
| Contracts.Token.Transfer | blockchain/test/test_DISPUTE.js:84 | the stored ledger becomes the one `Erc20.Transfer` gives, or stays as it was when that fails; the result says which |
| Contracts.Token.TransferFrom | blockchain/test/test_DISPUTE.js:247-248 | the stored ledger becomes the one `Erc20.TransferFrom` gives, or stays as it was when that fails |
| Contracts.Token.Approve | blockchain/test/test_DISPUTE.js:233 | the stored ledger becomes the one `Erc20.Approve` gives |
| Contracts.Proposal.constructor | blockchain/test/test_INIT.js:80-89 | a deployed proposal is in ZS with every field zero and satisfies the fund-safety invariant |
| Contracts.Proposal.Setup | blockchain/test/test_INIT.js:91-107 | the storage becomes exactly what `Escrow.Setup` gives, or stays unchanged on a revert; the invariant is kept |
| Contracts.Proposal.ResponseToProposal | blockchain/test/test_DISPUTE.js:160-201 | the storage becomes exactly what `Escrow.ResponseToProposal` gives, or stays unchanged; the invariant is kept |
| Contracts.Proposal.PushToPrepaidState | blockchain/test/test_DISPUTE.js:226-258 | the proposal's and the token's storage become exactly what `Escrow.PushToPrepaidState` gives, or stay unchanged; the invariant is kept |
| Contracts.Proposal.CloseProposal | blockchain/test/test_PREPAID.js:316-333 | the proposal's and the token's storage become exactly what `Escrow.CloseProposal` gives, or stay unchanged; the invariant is kept |
| Contracts.Proposal.AnnounceTaskCompleted | blockchain/test/test_DISPUTE.js:300-346 | the storage becomes exactly what `Escrow.AnnounceTaskCompleted` gives, or stays unchanged; the invariant is kept |
| Contracts.Proposal.StartDispute | blockchain/test/test_DISPUTE.js:366-399 | the storage becomes exactly what `Escrow.StartDispute` gives, or stays unchanged; the invariant is kept |
| Contracts.Proposal.ResolveDispute | blockchain/test/test_DISPUTE.js:442-486 | the proposal's and the token's storage become exactly what `Escrow.ResolveDispute` gives, or stay unchanged; the invariant is kept |
| Contracts.ProposalFactory.constructor | blockchain/test/test_INIT.js:51-60 | the deployer owns the factory, which holds its arbiter, no template and no created proposals |
| Contracts.ProposalFactory.RegisterProposalTemplate | blockchain/test/test_INIT.js:62-66 | the owner's call replaces the template with the given bytecode; any other sender's reverts; no proposal is created |
| Contracts.ProposalFactory.CreateConfiguredProposal | blockchain/test/test_INIT.js:68-89 | succeeds exactly with a fee above zero, a non-empty task hash and three distinct parties. It then deploys a fresh proposal in INIT with the sender as customer and logs its address; otherwise it reverts and logs nothing |
| EscrowScenarios.Create | blockchain/test/test_DISPUTE.js:80-131 | the factory refuses a zero fee and an empty task hash, then creates a proposal set up in INIT, with the customer funded; a second setup reverts |
| EscrowScenarios.RefuseInInit | blockchain/test/test_DISPUTE.js:139-158 | in INIT delivery, prepayment and both dispute calls revert, and nothing changes |
| EscrowScenarios.Negotiate | blockchain/test/test_DISPUTE.js:160-258 | from INIT through the refusals in PROPOSED to PREPAID with reward 50: customer 99940, proposal 60 |
| EscrowScenarios.Propose | blockchain/test/test_DISPUTE.js:160-201 | a stranger and a past deadline are refused, then two responses succeed; the second stores the wrapped `100 - 500`. PROPOSED, nothing paid |
| EscrowScenarios.RefuseInProposed | blockchain/test/test_DISPUTE.js:203-224 | in PROPOSED a second setup, delivery and both dispute calls revert, and nothing changes |
| EscrowScenarios.Prepay | blockchain/test/test_DISPUTE.js:226-258 | the contractor's prepayment reverts as unauthorized, and the customer's, of the wrapped reward, for insufficient funds; after the reward of 50 it succeeds. PREPAID, customer 99940, proposal 60 |
| EscrowScenarios.RefuseInPrepaid | blockchain/test/test_DISPUTE.js:260-298 | just after prepayment new terms, a second prepayment, an early delivery, both dispute calls and the contractor's close revert, and so does the customer's close 25 hours later; nothing changes |
| EscrowScenarios.Deliver | blockchain/test/test_DISPUTE.js:300-346 | an announcement inside the revert window, one from a stranger, one with an empty hash and one three years late revert; the one at 25 hours succeeds: COMPLETED, balances unchanged |
| EscrowScenarios.RefuseInCompleted | blockchain/test/test_DISPUTE.js:348-364 | just after delivery new terms, a prepayment, a resolution and the customer's close revert, the close for timing, and nothing changes |
| EscrowScenarios.Contest | blockchain/test/test_DISPUTE.js:366-399 | the contractor's dispute, an offer of 100 and a late dispute are refused; the customer's offer of 10 opens the DISPUTE; no balance moves |
| EscrowScenarios.RefuseInDispute | blockchain/test/test_DISPUTE.js:401-419 | just after the dispute opens the customer's close, new terms, a prepayment and a delivery revert, and nothing changes |
| EscrowScenarios.Arbitrate | blockchain/test/test_DISPUTE.js:442-486 | decisions of 0 and 100 and a late one are refused; the decision 20 gives RESOLVED with 99970, 20, 10 and 0 |
| EscrowScenarios.DisputeSuite | blockchain/test/test_DISPUTE.js:80-486 | the whole DISPUTE suite ends RESOLVED with balances 99970, 20, 10 and 0 |
| EscrowScenarios.PrepaidSuite | blockchain/test/test_PREPAID.js:80-333 | the PREPAID suite, through the refusals in PREPAID, ends with the close ten years on: the customer is back at 100000, the proposal empty and CLOSED |
| EscrowScenarios.ProposedSuite | blockchain/test/test_PROPOSED.js:81-199 | the PROPOSED suite: after the refusals in INIT and on the first response, two responses and the refusals in PROPOSED, the contractor's close ends CLOSED with nothing paid anywhere |
| EscrowScenarios.InitSuite | blockchain/test/test_INIT.js:109-136 | the INIT suite: the refusals in INIT, then the factory owner's close reverts and the customer's succeeds: CLOSED |
| FactoryLog.Substr | front/src/model/proposal.ts:26 | `substr(k)` is what follows the first k characters, and empty past the end |
| FactoryLog.RunLength | front/src/model/proposal.ts:30 | a greedy `.{1,cap}` takes at most cap characters, none of them a line terminator, and stops early only at one |
| FactoryLog.Chunks | front/src/model/proposal.ts:30 | every run is 1 to 64 characters with no line terminator; there are none exactly when the data is only terminators |
| FactoryLog.ChunksOfPlainData | front/src/model/proposal.ts:28-30 | on data with no line terminator, the runs concatenate back to the data and all but the last have 64 characters |
| FactoryLog.ChunksOfWord | front/src/model/proposal.ts:30 | a leading 64-character word is the first run |
| FactoryLog.MatchOrNull | front/src/model/proposal.ts:24-34 | a log is dropped as `null` exactly when only line terminators follow its `0x`; otherwise it gives its runs |
| FactoryLog.ChunkLogs | front/src/model/proposal.ts:23-36 | the kept logs, at most one per log, each with at least one run; a single log gives its runs, or nothing when it is `null` |
| FactoryLog.ChunkLogsAppend | front/src/model/proposal.ts:23-36 | logs are chunked one by one in order: chunking two batches is chunking each |
| FactoryLog.AddressOf | front/src/model/proposal.ts:41 | an address starts with `0x`, and from a 64-character run it has 42 characters |
| FactoryLog.Addresses | front/src/model/proposal.ts:38-41 | defined exactly when every kept log has a second run; then one address per log, in order, each taken from that log's second run |
| FactoryLog.CreatedLogGivesItsAddress | front/src/model/proposal.ts:23-41 | from the data of a `ProposalCreated` log the parser recovers exactly `0x` and the address it carries |
| StoreActions.ActionOrdinal | front/src/store/actions.ts:5-9 | the three action types are numbered 0, 1, 2 in declaration order |
| StoreActions.ActionOrdinalsDistinct | front/src/store/actions.ts:5-9 | different action types have different numbers |
| StoreActions.Action | front/src/store/actions.ts:15-20 | an action carries the type and payload it was built from |
| StoreActions.UpdateProposals | front/src/store/actions.ts:23 | tagged UPDATE_PROPOSALS, carrying the list |
| StoreActions.SetWeb3 | front/src/store/actions.ts:24 | tagged SET_WEB3, carrying the connection |
| StoreActions.SetMyAddress | front/src/store/actions.ts:25 | tagged SET_MY_ADDRESS, carrying the address |
| StoreActions.ConstructorsAreTagged | front/src/store/actions.ts:22-30 | every well-typed action is the one its type's creator builds from its payload |
| Reducers.InitialState | front/src/store/reducers.ts:10-13 | no proposals and no connection |
| Reducers.LastIndex | front/src/store/reducers.ts:25-27 | the position of the last proposal with an address, with none after it; -1 exactly when the address is absent |
| Reducers.Merge | front/src/store/reducers.ts:20-32 | the result keeps every old key and adds each sent address. The last proposal sent under an address is stored there; every other key keeps its value |
| Reducers.Reduce | front/src/store/reducers.ts:19-42 | no action drops a stored proposal; only UPDATE_PROPOSALS changes the proposals and only SET_WEB3 the connection |
| Reducers.CopyProposals | front/src/store/reducers.ts:21-24 | the key-by-key copy equals the map copied |
| Reducers.SetEach | front/src/store/reducers.ts:25-27 | setting each sent proposal in order gives `Merge` of the map and the list |
| Reducers.AppReducer | front/src/store/reducers.ts:15-43 | the reducer, starting from the initial state when none is given, returns the state `Reduce` prescribes: merged proposals, the new connection, or the state unchanged |
| Reducers.LaterProposalWins | front/src/store/reducers.ts:25-27 | a sent proposal with no later one at its address is what the store holds there |
| Reducers.MergeIdempotent | front/src/store/reducers.ts:20-32 | merging the same list twice gives what merging it once does |
| Reducers.UpdateProposalsIdempotent | front/src/store/reducers.ts:20-32 | UPDATE_PROPOSALS with the same list twice is the same as once |
| Reducers.Without | front/src/components/proposalView/proposalView.tsx:69 | the filtered list is exactly the proposals at other addresses, each as often as in the list, in their order |
| Reducers.ShortenedListRemovesNothing | front/src/components/proposalView/proposalView.tsx:68-71 | sending the list without a closed proposal keeps every key, and the closed proposal's entry unchanged |
| Reducers.OtherActions | front/src/store/reducers.ts:34-41 | SET_WEB3 replaces only the connection; SET_MY_ADDRESS changes nothing |
| ProposalView.StateLabel | front/src/components/proposalView/proposalView.tsx:51-62 | "Open" exactly for INIT, "Proposed" for PROPOSED, "Prepaid" for PREPAID, "Unknown" for every other state |
| ProposalView.Buttons | front/src/components/proposalView/proposalView.tsx:110-154 | the buttons come in the page's layout order, none twice; "Download task" always; each other button exactly for the role and state that show it |
| ProposalView.Render | front/src/components/proposalView/proposalView.tsx:46-99 | no card exactly for ZS. Otherwise the card holds the address, the role, the state's label and that role's buttons |
| ViewAgainstContract.RoleOf | front/src/components/proposalView/proposalView.tsx:98 | the role of an account: customer first, then contractor, then arbiter, else none |
| ViewAgainstContract.RespondOfferedToWhoMayRespond | front/src/components/proposalView/proposalView.tsx:132-138 | whoever sees "Respond" has a response accepted exactly when the deadline lies ahead |
| ViewAgainstContract.PayOfferedToWhoMayPay | front/src/components/proposalView/proposalView.tsx:147-153 | whoever sees "Pay" has the prepayment accepted exactly with approval and funds |
| ViewAgainstContract.SubmitOfferedToWhoMaySubmit | front/src/components/proposalView/proposalView.tsx:139-146 | whoever sees "Submit done" has the announcement accepted exactly with a hash, after the revert window and by the deadline |
| ViewAgainstContract.CloseOfferedWhereRefused | front/src/components/proposalView/proposalView.tsx:125-131 | the customer sees "Close" in PROPOSED, RESOLVED and CLOSED, and in COMPLETED inside the dispute window (test_DISPUTE.js:361-363), where the contract refuses the customer's close |
| ViewAgainstContract.ContractorCloseNotOffered | front/src/components/proposalView/proposalView.tsx:125-131 | the contractor sees no "Close" on a proposed task, though the contract accepts the contractor's close there (test_PROPOSED.js:197-199) |
| ViewAgainstContract.ArbiterOnlyDownloads | front/src/components/proposalView/proposalView.tsx:110-154 | the arbiter is shown only download buttons |
| Sequences.Filter | front/src/pages/allProposals/allProposals.tsx:18-21 | `filter` keeps exactly the elements that pass, each as often as in the list, and in their order |
| AllProposals.MyProposals | front/src/pages/allProposals/allProposals.tsx:18 | exactly the proposals where the viewer has a role, each as often as listed, in order |
| AllProposals.OpenProposals | front/src/pages/allProposals/allProposals.tsx:19-21 | exactly the proposals where the viewer has no role and the state is INIT, each as often as listed, in order |
| AllProposals.ListsDisjoint | front/src/pages/allProposals/allProposals.tsx:18-21 | no proposal is in both lists |
| AllProposals.NeitherListed | front/src/pages/allProposals/allProposals.tsx:18-21 | a proposal is in neither list exactly when the viewer has no role and it is not in INIT |

## Left out

- **The contracts' Solidity source is not part of this model.** The behaviour of `Proposal` and `ProposalFactory` is the one the four truffle suites fix. Where a suite does not decide a branch, the model makes a choice, listed below.
- **What the suites leave open:**
  - **Guard order.** The order of the guards (state, then sender, then parameters and time) is a choice. On chain every refusal is the same revert, and the `Error` reasons only label the branches.
  - **Closing in COMPLETED** is refused inside the customer's dispute window (test_DISPUTE.js:361-363 expects the customer's close there to revert). After the window the comment at test_DISPUTE.js:385 says the proposal "can be closed", and no suite does it. The model gives that close to the customer, refused for timing inside the window, and has it pay the contractor the full reward and return the arbiter's unused fee to the customer. Three things point to the customer: the client offers "Close" to the customer in every state and never to the contractor (front/src/components/proposalView/proposalView.tsx:125-131); the close of a timed-out dispute, the nearest analogue, is sent by the customer (test_DISPUTE.js:431); and every close except the abandonment of a proposed task is the customer's. The model thus gives the contractor no way to force payment after an undisputed delivery.
  - **Closing in RESOLVED or CLOSED** is refused. No suite closes in those states.
  - **Closing a DISPUTE after the arbiter's window** is taken from the commented-out test at blockchain/test/test_DISPUTE.js:421-440, which is marked as passing: the contractor receives the full reward and the customer the arbiter's fee. Inside the window the close reverts (test_DISPUTE.js:401-406).
  - **The customer's close in PREPAID** refunds the whole escrow inside the revert window after prepayment, as the commented-out test at blockchain/test/test_PREPAID.js:300-314 does. It also refunds once the task deadline has passed (test_PREPAID.js:316-333). Between the two it is refused, as the live test at test_DISPUTE.js:286-297 expects 25 hours after prepayment.
  - **`resolveDispute`** ends in RESOLVED and not in CLOSED, as the test title "transition from DISPUTE to RESOLVED" at test_DISPUTE.js:464 names it; no suite reads the state afterwards. Its evidence hash is accepted and not stored.
  - **Window boundaries.** A window is inclusive at its end and the revert window exclusive at its start. The suites only probe 25 hours and years past them.
- **Time and gas.** Block time is the explicit `now` argument. Snapshots, `time.increaseTo`, `expectThrow` and gas are test plumbing and are not modelled.
- **Bytecode.** The template is opaque bytes that nothing executes.
- **Deployment.**
  - The address of a newly deployed proposal is a parameter that differs from the parties. That it holds no tokens is an assumption: a contract address created by CREATE is predictable, so anyone could send it tokens in advance.
  - The token of `setup` is fixed when the proposal object is built and is not a stored field.
- **Outside deposits.** A transfer into the proposal's own account by anyone but the proposal's own operations is not modelled. `Escrow.Consistent` demands that the account hold exactly the escrow, so such a deposit would break it; on chain the surplus would stay stuck in the proposal.
- **The token.** `DaiToken` is an ERC-20 token modelled with unbounded balances.
  - `Erc20.Transfer` does not model the uint256 ceiling on balances. The token supply in the suites is far below it.
  - `Escrow.PushToPrepaidState` refuses a reward sum that does not fit 256 bits. No suite reaches that guard: after the wrapped reward of test_DISPUTE.js:195 the sum still fits, and the prepayment at test_DISPUTE.js:235-237 fails because the customer's allowance and balance are below it.
- **`Contracts.Proposal.Setup`** requires that the proposal's own address is not one of the parties, which the EVM guarantees for a new contract. The factory meets it through its own requirement on `at`.
- **`Contracts.ProposalFactory.RegisterProposalTemplate`** is restricted to the owner. The suites only call it from the owner, so a call from anyone else is not fixed by them.
- **`Contracts.ProposalFactory.CreateConfiguredProposal`** reverts when the customer, the contractor and the arbiter are not three different accounts. The suites never try that; the model needs it for the fund-safety invariant.
- **`Proposal.all`'s chain reads.** `getPastLogs`, the contract calls that load each proposal's fields, `console.log` and the promises are I/O. `FactoryLog.Addresses` stops at the list of addresses.
- **The client's `Proposal`.** The definitions of the `Role` enum, the role method and the other fields of the client's `Proposal` class are not part of this model. The model declares `Role` itself, and the role is an input: `roleOf` in `AllProposals` and `RoleOf` against the contract.
- **The store.**
  - The JavaScript `Map`'s insertion order is not modelled: the store is a Dafny `map`.
  - `Reducers.AppReducer` requires a well-typed action, so the `default` branch at front/src/store/reducers.ts:40-41 is reached only by `SET_MY_ADDRESS`. Redux's own initialisation action, whose type is none of the three, cannot be expressed; the reducer returns the state unchanged for it.
  - The proposals list of the store's props is a sequence of `ClientProposal` values.
- **State numbers in the client.** `ClientProposal.currentState` is a `State`, so the client is assumed to receive the state as a number. front/src/pages/allProposals/allProposals.tsx:20 converts it with `+`, while proposalView compares it with `===`; a string value from web3 would make every one of those comparisons false, and this is not modelled.
- **Strings.** Dafny strings are sequences of code points, while JavaScript's `substr`, `length` and regular expressions count UTF-16 code units. The two agree on the hex data of the factory's logs; outside the Basic Multilingual Plane they would differ, and this is not modelled.
- **The components.** React rendering, hooks, the dialogs, the IPFS links, Redux `connect` and the store wiring are not modelled.
