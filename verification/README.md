# Restaurant Ops Copilot: a verified model

This project models the decision core of a restaurant operations copilot and proves what it
promises. It follows three connected parts of the system.

**The event store.** Operational events are appended to a log per tenant, linked by digests,
and applied to read tables in the same transaction; a separate replay rebuilds past state from
the log alone. `EventTables` holds the tables and the twelve handlers as functions, `EventStore`
the same as a class whose methods write row by row and may fail halfway. `EventReplay`,
`EventEffects`, `EventRuns`, `EventDrift`, `EventIsolation`, `EventIntegrity`, `EventTotals`, `EventAppends` and
`EventLedgers` prove what each event means and that log, tables and replay tell one story; `Columns` has the rounding of the
numeric columns; `Json` and `HashChain` prove that the digest chain pins the log.

**The execution protocol.** Many workers claim idempotency keys, propose decisions, take
advisory locks, pass the critic and the risk classifier, wait for reviewers, append events and
settle; any of them may crash, raise, be redelivered or find a stale claim. `Protocol` is the
state machine, one label a transaction; `ProtocolInvariant` its inductive invariant;
`ProtocolLocks` the same machine with its row locks, unique keys and advisory locks; the other
`Protocol...` modules what follows for every run. `ToolFramework` is the code itself as methods
over shared tables, with arbitrary interference between two transactions; each of its executions
is a schedule of the machine.

**The pricing pipeline.** `Pricing` has the simulator's formulas, the gates and the reasoner's
candidates over exact rationals; `SupplierSwitch` the supplier simulation; `RecipeCost` the two ways of costing an item; `Candidates`,
`Ranking` and `Cycle` the path from raw model output to at most one attempt per opportunity.

`Policy` (critic and risk classifier) is shared; `Wrappers` has Option, Result and Requirement.

## Environment

Clocks, generated ids, confidence figures, the digest, time stamp texts, `Decimal(str(x))`,
`int(x)`, `str(x)` and the numeric value of a JSON numeral are parameters: every statement holds
for all of them. Where a statement needs more, its precondition says so: digests and time stamps
contain no bar and time stamps are unambiguous (`HashChain.Plain`), and no two texts at hand
collide (`HashChain.NoCollision`, about the events in question only).

The price columns keep whole cents, so rounding a stored price for the evidence changes nothing;
recipe costs have more decimals, and there it does. Figures in payloads and actions may have any number of decimals.

Row lock modes conflict as PostgreSQL documents them (section 13.3.2 of its manual); the order in
which it checks the foreign keys of one row is a parameter.

A few fields are history and exist only to state properties: `owner`, `proposer`, `executor`,
`worker` and `before` in `Protocol`, and `trace` in `ToolFramework`.

## Where the code and its documentation differ

The model follows the code.

- Replay is described as rebuilding the projected state; it shows every added item as active
  (event_store.py:1647) although the projection honours `active: false` (703).
- Every append is described as keeping the chain; it hashes the raw source (1193) and stores the
  stripped one (1204), and orders rows by time stamp and then by a random id. Both ways of
  breaking a chain are shown by a concrete append.
- A transient failure is described as left for redelivery (worker/handler.py:182-189); the
  redelivered message finds the request in processing and is deleted (128-137). Exactly when a
  request is left behind, and one run that does it, are stated.
- An autonomous price change is described as at most a tenth; the column then rounds to cents, and
  a sub-cent figure can end just outside. Exactly which figures do is stated.
- A completed key is described as final; the stale branch of `claim` writes without comparing
  (idempotency.py:101-104).
- The margin candidate is described as raising the price; below two dollars the quarter-dollar
  step can round it back to where it was.

## Model

| member | source | states |
|---|---|---|
| Json.RoundTrip | Component_1/event_store.py:162-168 | a canonical payload text reads back as the payload, leaving exactly what followed it, for every JSON value: objects of any depth, escapes, numerals |
| Json.StringRoundTrip | Component_1/event_store.py:162-168 | escaping and reading back any string is the identity, and the reader stops at the closing quote |
| Json.ObjectTextIsSelfDelimiting | Component_1/event_store.py:162-178 | equal texts that start with an object text come from equal objects and equal continuations, so no object text is a proper prefix of another |
| HashChain.TextDeterminesContent | Component_1/event_store.py:149-180 | the "|"-joined text determines previous hash, type, payload, time stamp and source |
| HashChain.VerifyChain | Component_1/event_store.py:1790-1851 | the loop accepts a log exactly when every event is linked to its predecessor and carries the digest of its own text; otherwise it names the first faulty event and which of the two checks failed |
| HashChain.HeadPinsTheWholeLog | Component_1/event_store.py:1790-1851 | two verified logs that end in one digest have the same length and the same content event by event, as long as no two of their texts collide and none hits the genesis value |
| HashChain.DigestsAreDistinct | Component_1/event_store.py:1790-1851 | in a verified log no digest occurs twice and none is the genesis value |
| HashChain.AppendKeepsTheChainIff | Component_1/event_store.py:1158-1208 | one more append leaves a verified chain verified if and only if the new row is read last by (timestamp, id) and its source has no surrounding white space |
| HashChain.LastVerifies | Component_1/event_store.py:1158-1208 | read last and stripped is enough for any digest at all, collisions included |
| HashChain.InsertKeepsOrder | Component_1/event_store.py:1158-1170 | a new row with a fresh key leaves the log in (timestamp, id) reading order |
| HashChain.Strip | Component_1/event_store.py:1121-1124 | stripping changes a source exactly when its first or last character is white space |
| HashChain.StripTrims | Component_1/event_store.py:1121-1124 | stripping cuts off white space at both ends, all of it and nothing else |
| EventStore.EventStore.UpdateInventory | Component_1/event_store.py:314-352 | the inventory row of a tenant's own ingredient takes the column value of the new quantity; a foreign or missing ingredient fails first |
| EventEffects.SupplierPriceReprices | Component_1/event_store.py:355-398 | accepted iff SKU and ingredient are the tenant's and the figure is not negative and fits; then one price row is appended and the ingredient costs that figure in whole cents, and no other row moves |
| EventEffects.SwitchMovesTheSupplier | Component_1/event_store.py:401-429 | accepted iff ingredient and supplier are both the tenant's; only that ingredient's supplier moves |
| EventEffects.StockoutEmpties | Component_1/event_store.py:432-456 | accepted iff the ingredient is the tenant's; both places that keep a level are 0.0 and nothing else has moved |
| EventEffects.RestockSets | Component_1/event_store.py:459-496 | accepted iff the level named is not negative and fits the column; both levels then show it to four decimals |
| EventEffects.AdjustmentSets | Component_1/event_store.py:499-562 | a named level wins over a change to the stock on hand; accepted iff the result is not negative and fits, and then both levels show it |
| EventEffects.WasteTakesAway | Component_1/event_store.py:565-638 | accepted iff there is a reason and 0 < q <= stock on hand, as far as the column can hold; both levels fall by q and one waste row says so |
| EventEffects.MenuPriceReprices | Component_1/event_store.py:641-670 | accepted iff the item is the tenant's and the figure not negative and within the column; only that price moves |
| EventEffects.AdditionOverwrites | Component_1/event_store.py:673-736 | an id is free unless another tenant has it; an item added again is overwritten, its flag honoured |
| EventEffects.RemovalDeactivates | Component_1/event_store.py:739-754 | a removed item keeps its row, name and price |
| EventEffects.StaffingIsAcceptedIff | Component_1/event_store.py:962-1028 | accepted iff the figures are in range and it names a shift no other tenant has, or exactly one shift matches role and day, or none does and the new id is free |
| EventEffects.StaffingSetsOneShift | Component_1/event_store.py:962-1028 | exactly one shift of the tenant gets the headcount; without a shift id it is the only one of its role and day afterwards |
| EventEffects.WasteIsUndone | Component_1/event_store.py:499-638 | an adjustment by the wasted quantity puts both levels back to what they were |
| EventEffects.NothingLeftToWaste | Component_1/event_store.py:432-638 | after a stockout no waste of that ingredient is accepted |
| EventEffects.WasteOfAllLeavesNothing | Component_1/event_store.py:565-638 | waste leaves nothing if and only if it is all there was |
| EventEffects.SwitchIsUndone | Component_1/event_store.py:401-429 | switching back to the former supplier restores every table |
| EventEffects.RemovalIsUndone | Component_1/event_store.py:673-754 | adding a removed item again under its own name and price restores every table |
| EventStore.EventStore.HandleOrderRecorded | Component_1/event_store.py:757-855 | header first, then line by line; the first bad line decides the error whatever follows it |
| EventStore.EventStore.HandleInvoiceRecorded | Component_1/event_store.py:858-960 | header (unique id, unique number per tenant), then line by line, first error wins |
| EventStore.EventStore.ApplyOrRollBack | Component_1/event_store.py:1087-1234 | all rows of a handler or none, also when it fails after writing some |
| EventStore.EventStore.Transact | Component_1/event_store.py:1128-1234 | event row, id and tables are kept together or undone together |
| EventStore.EventStore.AppendEvent | Component_1/event_store.py:1087-1263 | accepted iff the call has a source, a known tenant and an id of its own and its payload is acceptable to its kind; then the tables hold exactly the rows the payload asks for and the log one more event that says what the call said, and otherwise the whole store is as it was; reading order is kept |
| EventAppends.AcceptedIff | Component_1/event_store.py:1087-1234 | which calls are accepted, kind by kind, in the terms of payload and tables alone |
| EventAppends.AppendWrites | Component_1/event_store.py:1031-1085 | what an accepted call of each of the thirteen kinds leaves in the tables: an invoice event one invoice under its id with supplier, number, total and time and one row per listed line in order, an order likewise, a staffing change one shift, a demand spike nothing; every other row stays, and the log gains its event |
| EventAppends.HandlersMeet | Component_1/event_store.py:1031-1085 | the handler reached by each kind accepts and writes what that kind asks for |
| EventAppends.LogsStayInOrder | Component_1/event_store.py:1158-1170 | whatever clocks and ids the calls meet, every run leaves every log in reading order |
| EventLedgers.InvoicesAreLogged | Component_1/event_store.py:858-960 | over every run a tenant gains one invoice for each logged invoice event, as the event says, under distinct ids that were free, and no other |
| EventLedgers.BillsAddUp | Component_1/event_store.py:910-960 | per SKU the quantities billed grow by exactly what the logged invoices list |
| EventLedgers.ShiftsAreLogged | Component_1/event_store.py:962-1028 | over every run the latest staffing event of a tenant is in force, and each of its shifts is a seeded one or as some logged event says |
| EventLedgers.ReplayListsTheLedger | Component_1/event_store.py:1679-1700 | replay lists one invoice for each invoice row gained, in order, with its supplier, number and time and its total to the cent |
| EventLedgers.ReplayShowsHeadcount | Component_1/event_store.py:1706-1724 | what replay shows for a role and a day, by their texts, is the headcount of the last event that names both |
| EventLedgers.ReplayListsSpikes | Component_1/event_store.py:1726-1740 | replay keeps exactly the demand spikes of the log, in order |
| EventStore.EventStore.ReconstructStateAt | Component_1/event_store.py:1346-1750 | replay of exactly the events up to a time: of a log in reading order its first n events, all of them in time and none after them |
| EventStore.EventStore.ReplayEvents | Component_1/event_store.py:1434-1750 | the replay loop computes the recursive replay, failures included |
| EventRuns.UpToIsTheCut | Component_1/event_store.py:1400-1432 | an event is replayed if and only if it is in the log and not later than the cut-off, and in reading order these events are a prefix |
| EventStore.EventStore.VerifyChainIntegrity | Component_1/event_store.py:1761-1864 | no fault is reported exactly when the log of the tenant verifies; else the first faulty event and its fault |
| EventStore.OrderFailureSticks | Component_1/event_store.py:796-855 | a failing order line fails the whole order, with its own error |
| EventStore.InvoiceFailureSticks | Component_1/event_store.py:910-960 | the same for invoice lines |
| EventRuns.RunAgrees | Component_1/event_store.py:1434-1700 | after every run of appends by any tenants, replay of a tenant's log succeeds and agrees with its tables, row by row, counting from the seeded tables |
| EventRuns.ReplayAgreesAtAnyTime | Component_1/event_store.py:1346-1432 | for every point in time the first n events of the log are those up to it and all later ones come after; the run had a moment at which they were the whole log, and replay of them agrees with the tables of that moment |
| EventRuns.AgreementMeans | Component_1/event_store.py:1560-1659 | what agreement says of one id: prices equal to the cent, names and suppliers equal, active flags equal if and only if the item was not last added as inactive, stock equal up to the seeded stock until an event sets the level |
| EventRuns.AddedInactiveIsReplayedActive | Component_1/event_store.py:1637-1647 | the one disagreement exists: after a single append of an inactive item the table says inactive and replay says active |
| EventReplay.LevelsMoveAlikeIff | Component_1/event_store.py:1512-1597 | for any figures at all: the table holds the replayed level rounded to four decimals, so the two are equal if and only if that level has no more of them |
| EventRuns.TinyRestockIsRoundedAway | Component_1/event_store.py:459-496 | a single restock of 0.00004 after which the table says 0 and replay 0.00004 |
| EventDrift.RunStaysNear | Component_1/event_store.py:1434-1700 | whatever the figures, after every run of appends replay succeeds, and stored stock differs from replayed and carried stock by at most half a ten-thousandth for each stock event since the level was last set |
| EventReplay.EventAgrees | Component_1/event_store.py:1434-1700 | one accepted event keeps replay and tables in agreement, and replay accepts it too |
| EventReplay.MenuAddedStep | Component_1/event_store.py:673-736 | an added item: table and replay agree on the price, and differ on the flag only as stated |
| EventReplay.LevelsMoveAlike | Component_1/event_store.py:1512-1597 | a stock event moves stored and replayed level by the same amount, or sets both |
| EventReplay.SkuPriceStep | Component_1/event_store.py:1455-1485 | the newest price row of a SKU is the price replay shows for it |
| EventRuns.AppendOnlyTouches | Component_1/event_store.py:1128-1234 | an append, accepted or not, leaves every other tenant's log and rows unchanged and only adds to history tables |
| EventIsolation.EventOnlyTouches | Component_1/event_store.py:1031-1085 | every handler, order and invoice loops included, writes rows of its own tenant only |
| EventRuns.AcceptedKeepsTheChainIff | Component_1/event_store.py:1087-1234 | the chain condition, stated of append_event itself |
| EventRuns.PaddedSourceBreaksTheChain | Component_1/event_store.py:1193-1204 | an accepted first event with source " x" whose log fails verification |
| EventRuns.SmallerIdBreaksTheChain | Component_1/event_store.py:1158-1170 | two accepted events at one time stamp, the later with the smaller id: the log verified before the second and fails after it |
| EventRuns.RunKeepsChains | Component_1/event_store.py:1790-1851 | every run of appends in order with clean sources leaves every tenant's chain verified |
| EventTotals.RunKeepsStock | Component_1/event_store.py:314-352 | in every reachable state an inventory row equals its ingredient's own stock field and no stock is negative |
| EventTotals.WasteAddsUp | Component_1/event_store.py:565-638 | the waste rows of an ingredient grow by exactly the sum of its accepted waste events |
| EventTotals.SalesAddUp | Component_1/event_store.py:796-855 | the order lines of an item grow by exactly the quantities the logged orders list for it |
| EventTotals.ReplayListsTheTables | Component_1/event_store.py:1550-1675 | after any run, what replay lists as ordered and as wasted is exactly what the history tables have gained |
| EventTotals.ReplayListsTheLog | Component_1/event_store.py:1550-1675 | replay lists each order and each waste event of the log once, with its figures |
| EventTotals.SalesMatchDemand | Component_1/event_store.py:836-855 | per menu item, order-line quantities and demand quantities stay equally far apart over every run |
| EventIntegrity.RunIntact | Component_1/models.py:150-1013 | in every reachable state every foreign key, check and unique constraint on the modelled columns holds, inventory rows and stock included, each row owned by the tenant of the rows it points at |
| EventIntegrity.EventIntact | Component_1/models.py:150-935 | no event the handlers accept violates a constraint, so their checks are strong enough for the schema |
| EventIntegrity.OrderIsItsLines | Component_1/event_store.py:796-855 | an order is accepted if and only if each line is acceptable on its own, and then its rows are those lines, in order, with one equal demand row each |
| EventIntegrity.InvoiceIsItsLines | Component_1/event_store.py:910-960 | the same for an invoice, whose SKUs must all be the invoiced supplier's |
| EventIntegrity.HeaderIsOk | Component_1/event_store.py:858-900 | an accepted header has a fresh id and a number its tenant has not used |
| Policy.AutonomousExactly | Component_6/risk_classifier.py:139-237 | what may run without a human, exactly: a price change, confidence 0.80 to 1, positive baseline, at most a tenth |
| Policy.LowRiskPassesCritic | Component_4/critic.py:269-303 | nothing the classifier calls low risk is blocked by the critic |
| Policy.CriticByTheFigures | Component_4/critic.py:269-395 | the critic by its figures: a price within three tenths of a positive baseline, a supplier price at most half as much again, a whole number of heads from -5 to 5, any menu change |
| Policy.ApprovalByTheFigures | Component_6/risk_classifier.py:139-301 | everything needs a human but a price change of confidence 0.8 to 1 within a tenth of a positive baseline |
| ProtocolInvariant.StepKeeps | Component_4/tool_framework.py:696-925 | every transaction of every worker, crash, raise, delivery and review keeps the invariant and changes only what that worker may change |
| ProtocolInvariant.RunKeeps | Component_4/tool_framework.py:696-925 | every reachable state satisfies the invariant |
| ProtocolTheorems.AtMostOncePerKey | Component_4/idempotency.py:68-146 | over every interleaving a tenant's key has at most one owner ever, at most one decision and at most one event, autonomous and approved path together |
| ProtocolTheorems.ForeignFingerprintGetsNothing | Component_4/idempotency.py:101-114 | a request with another fingerprint never owns the key and never receives its stored result |
| ProtocolTheorems.ExecutionIsAccountedFor | Component_4/tool_framework.py:764-900 | a log row that says executed has exactly one event; an event means EVALUATED; an executed decision cleared confidence and was low risk under the lock or approved |
| ProtocolTheorems.StoredResultIsTrue | Component_4/idempotency.py:116-146 | a stored result that says executed has exactly one event behind it |
| ProtocolTheorems.NoEventWithoutApproval | Component_6/approval_workflow.py:48-117 | one request per decision, and a pending or rejected decision has no event in any run |
| ProtocolAudit.AnswersAreLogged | Component_4/tool_framework.py:668-860 | in every reachable state a call past its log row that answers executed, pending, blocked, held, busy or unsupported has the row in the audit log that says so, with its decision and verdict |
| ProtocolAudit.ReviewsAreFiled | Component_6/approval_workflow.py:48-66 | in every reachable state a call that answers pending approval has its request on file |
| ProtocolHistory.RunAdvances | Component_2/decision_engine.py:308-458 | along every run decision statuses only advance, HELD decisions never move, a resolved request never changes, and nothing is deleted |
| ProtocolHistory.VerdictsAreReviewers | Component_6/approval_workflow.py:79-117 | over every run a request is approved or rejected only by a reviewer who said so |
| ProtocolHistory.CompletedSurvivesIff | Component_4/idempotency.py:96-104 | a COMPLETED key survives a step if and only if the step is not a stale branch overwriting that key |
| ProtocolHistory.CompletedCanBeLost | Component_4/idempotency.py:96-104 | a concrete schedule in which the stale branch overwrites a COMPLETED key, because it writes without comparing |
| ProtocolHistory.CompletedSurvivesRunIff | Component_4/idempotency.py:96-104 | over a whole run: a completed key ends as it was if no stale write hit it, and failed if one did |
| ProtocolHistory.CompletedIsFinalInTime | Component_4/idempotency.py:96-104 | where the claim of a key is never read in progress more than STALE_AFTER after it was made, the completed key keeps its row to the end of the run, whatever becomes of other keys |
| ProtocolHistory.CompletedIsFinalIfAtomic | Component_4/idempotency.py:75-104 | were the read and the write of claim one transaction, no completed key would ever be lost, whatever the clocks say |
| ProtocolHistory.CompletedHoldsOutcome | Component_4/idempotency.py:116-146 | in every reachable state a completed key holds the outcome its owner ended with, and never an exception |
| ProtocolReplays.RowWaitsForOwner | Component_4/idempotency.py:116-146 | in every reachable state the row of a call still at work is in progress, unless a stale write has hit it |
| ProtocolReplays.RowsAreClaimed | Component_4/idempotency.py:68-88 | every row was inserted by its owner and is dated by the clock of that insert |
| ProtocolReplays.LaterCallsReplay | Component_4/idempotency.py:106-114 | once a key is completed, under every schedule, no later call with its fingerprint owns the key or proposes a decision, and what it answers is the stored result, unless a stale write hits the key |
| ProtocolReplays.AnswersAreRepeated | Component_4/tool_framework.py:903-925 | what the call that won a key has answered, every later call of the same request answers, unless a stale write hits the key in between |
| ProtocolRequests.EveryMessageNamesARow | api/main.py:62-124 | every queued message names a committed row of its tenant, under any schedule |
| ProtocolRequests.AtMostOneEventPerRequest | worker/handler.py:105-198 | however often a message is delivered and whoever approves what its handler proposed, a request causes at most one event |
| ProtocolRequests.LeftInProcessingIff | worker/handler.py:165-198 | the end of a handler leaves its request in processing if and only if it crashed or reports an exception it takes to be transient; otherwise the status says what the outcome says |
| ProtocolRequests.BecomesStuckIff | worker/handler.py:105-198 | a step makes a request stuck if and only if it ends the last handler of a request in processing in one of those two ways |
| ProtocolRequests.StuckForever | worker/handler.py:114-140 | a stuck request stays in processing under every schedule: redelivery skips it |
| ProtocolRequests.TransientFailureIsNeverRetried | worker/handler.py:165-189 | submitted, published, delivered, claimed, one transient exception: a concrete schedule after which no further run finishes the request |
| ProtocolPrices.EveryAutonomousMoveIsSmall | Component_4/tool_framework.py:764-846 | every autonomous price event asks for a figure within a tenth of the price in effect immediately before it, whatever other workers do, and leaves it in whole cents, so it moves it by at most a tenth and half a cent |
| ProtocolPrices.AutonomousMoveWithinATenthIff | Component_4/tool_framework.py:764-846 | the stored price stays within the tenth if and only if the figure rounds to a cent inside the band, which a caller can check |
| ProtocolPrices.WholeCentsRoundInside | Component_4/tool_framework.py:764-846 | figures in whole cents always do |
| ProtocolPrices.SubCentMoveLeavesTheBand | Component_1/event_store.py:641-670 | 9.17 and a low-risk figure of 10.0865: the run stores 10.09, more than a tenth above |
| ProtocolPrices.AutonomousDriftIsBounded | Component_4/tool_framework.py:764-846 | after n autonomous moves in a row, by figures that round inside the band, the price lies between (9/10)^n and (11/10)^n of its start and is positive |
| ProtocolPrices.PriceIsTheLastAsked | Component_4/tool_framework.py:567-666 | in every reachable state a price is what the last event about it asked for, in whole cents, or the seeded one; no priced entity comes or goes |
| ProtocolLocks.LockRunIsASchedule | Component_1/db.py:164-203 | with locks, overlapping transactions and roll-backs spelled out, the tables are those of a schedule of the committed transactions one at a time |
| ProtocolLocks.WaitsUpward | Component_4/tool_framework.py:111-147 | in every reachable state a worker waits only for a lock ranked above every lock it holds: cycle lock, advisory lock, unique key or own row, tenant and decision row, projection row |
| ProtocolLocks.NoWaitsForCycle | Component_4/tool_framework.py:111-147 | no waits-for cycle of any length over advisory locks, unique keys and rows together |
| ProtocolLocks.SomebodyCanMove | Component_4/tool_framework.py:111-147 | from every waiting worker at most five waits lead to one that can take its next lock, commit or step |
| ProtocolLocks.WritesAreLocked | Component_1/event_store.py:1128-1234 | whatever key, request, decision, approval, event log or projection row a transaction changes, and whatever unique entry of these tables it adds, it has locked against other writers; audit rows are only ever added, under fresh ids |
| ProtocolLocks.LockedRowsStay | Component_2/decision_engine.py:346-393 | from the moment a row is locked for writing until its transaction ends, no other commit changes it, whatever runs in between |
| ProtocolProgress.NoWorkerIsStuck | Component_4/tool_framework.py:111-147 | an unfinished call can take its next transaction if and only if it neither waits for a lock nor is turned away by a check; turned away is exactly an approved execution whose decision is taken or whose change cannot be applied, or a price beyond its column, and it raises |
| ProtocolProgress.WaitsIff | Component_4/tool_framework.py:96-147 | in every reachable state a call at its lock waits if and only if another call on the same item, menu item, ingredient or staff of its tenant holds it |
| ProtocolProgress.CallsAreBounded | Component_4/tool_framework.py:696-925 | a call takes at most eighteen transactions, whatever happens around it |
| ToolFramework.ForeignersKeepOwn | Component_4/tool_framework.py:111-147 | nothing anyone else does between two transactions changes a call's own record or frees a lock it holds |
| ToolFramework.Database.constructor | Component_4/idempotency_models.py:9-20 | empty tables over the seeded prices, reached by the empty schedule |
| ToolFramework.OnlyRefusalsStop | Component_4/tool_framework.py:696-875 | no other worker can make a check of the proposing path fail: only an id already taken, a confidence out of range or a price beyond its column can |
| ToolFramework.GatesAgree | Component_4/tool_framework.py:696-846 | the gates of the pricing pipeline are the confidence gate and the verdict of the protocol |
| ToolFramework.AnswersAreDecided | Component_4/tool_framework.py:696-846 | a call that neither waits in vain nor is stopped answers what those gates decide for the value read under its lock |
| ToolFramework.Database.ClaimDecision | Component_2/decision_engine.py:346-393 | done moves the call on to observing; otherwise it ends raised, because an exception struck or the decision was not there, cleared and SIMULATED |
| ToolFramework.Database.StoreEvaluation | Component_2/decision_engine.py:424-458 | done moves the call on; otherwise it ends raised, because an exception struck or the decision was no longer EXECUTED |
| ToolFramework.Database.ExecuteAndObserve | Component_2/decision_engine.py:346-458 | the three phases in turn: done moves the call to its event; otherwise it ends raised and the state shows why |
| ToolFramework.Database.ExecuteAndApply | Component_4/tool_framework.py:839-840 | claim, observe, evaluate, append: done exactly when the event of this call is in the log, otherwise the call ends raised and the state shows why |
| ToolFramework.Database.LogAndLeave | Component_4/tool_framework.py:668-693 | the outcome settled under the lock is the one returned, unless an exception strikes the log row |
| ToolFramework.Database.ExecuteToolCall | Component_4/tool_framework.py:696-875 | under any interference, for the price in force at the gate: unsupported iff MENU_SWAP add, held iff confidence is below 0.5, blocked iff outside the hard bounds (30 per cent, 50 per cent dearer, a whole number of five heads), executed iff a price change of at most a tenth at 0.8 or more, else pending with its request on file, concurrent only if another worker held the lock, raised only after an exception or a refusal; the audit log has the row that says so |
| ToolFramework.SettledByTheFigures | Component_4/tool_framework.py:696-846 | the transaction that settles an answer settles it as that outcome table says, in figures |
| ToolFramework.StaffAndMenuNeedAReviewer | Component_4/critic.py:340-395 | no staffing or menu change runs by itself: a staffing change is blocked iff it is not a whole number from -5 to 5, a menu change never |
| ToolFramework.Database.Serialized | Component_4/tool_framework.py:764-875 | the locked block of a cleared decision: busy iff somebody else has the lock when it is tried, else the verdict on the value read under it |
| ToolFramework.Database.Conclude | Component_4/tool_framework.py:778-858 | the verdict is what is answered, unless an exception or a refusal strikes on the way |
| ToolFramework.Database.OwnCall | Component_4/tool_framework.py:903-925 | the key of a call that won it ends settled: completed with exactly this outcome, failed if it raised, unless a stale write has hit it |
| ToolFramework.Database.ForeignKey | Component_4/idempotency.py:93-114 | a conflicting call answers what the row it read calls for: reuse is raised, a completed row replayed, one at most 300 seconds in progress waited for, any other given up |
| ToolFramework.Database.ExecuteToolCallIdempotent | Component_4/tool_framework.py:903-925 | the insert went in and its own justified outcome is answered and stored, or a row was there and decides the answer: raised for another fingerprint, the stored result if completed, in progress up to 300 seconds, else incomplete; executed has exactly one event, of this decision, action and tenant |
| ToolFramework.Database.CallTool | Component_4/tool_framework.py:903-925 | the same for any caller; and a call that finds its request completed gives back what was stored before it came, unless a stale write hits the key meanwhile |
| ToolFramework.GivesBackWhatWasStored | Component_4/idempotency.py:106-114 | why: the row was there and untouched all along, so the answer is the stored result |
| ToolFramework.Database.ResolveApproval | Component_6/approval_workflow.py:79-117 | no such request and already resolved are errors that change nothing; otherwise this one request gets the verdict and no other moves |
| ToolFramework.Database.ExecuteApprovedToolCall | Component_4/tool_framework.py:878-900 | unless approved it changes nothing; if approved it executes the action of its decision, with exactly one event, or was stopped, and the state shows by what |
| ToolFramework.Database.ProcessMessage | worker/handler.py:105-198 | a message for a missing or non-pending request is deleted untouched; else the handler runs the action of that row under its key, the request ends completed or failed as the resolved outcome says, and the message is kept exactly after a transient exception |
| ToolFramework.Database.SubmitAction | api/main.py:62-124 | accepted iff at the insert no request has the key and the id is free; accepted means a row with this key and action committed and its message published; a taken key changes nothing |
| ToolFramework.ExecutedOnce | Component_4/tool_framework.py:903-925 | a call whose outcome is executed has exactly one event for its decision |
| Pricing.MarginMultiplied | Component_2/simulator.py:558-627 | the predicted margin change in closed form: 1.2 d (c - p/6 - d) over p (p - c) |
| Pricing.DemandCancels | Component_2/simulator.py:575-627 | the prediction does not depend on recorded demand, or on whether there is any |
| Pricing.RisePaysIff | Component_2/simulator.py:550-627 | a rise pays if and only if it is smaller than cost minus a sixth of the price |
| Pricing.CutPaysIff | Component_2/simulator.py:550-627 | a cut pays if and only if it is smaller than a sixth of the price minus cost |
| Pricing.DemandVanishes | Component_2/simulator.py:590-627 | a rise beyond five sixths is predicted to lose all margin |
| Pricing.OutcomeTable | Component_4/tool_framework.py:696-846 | with cost below price the size of the change alone decides: executed iff at most a tenth, pending iff up to three tenths, beyond that blocked iff recorded confidence is at least 0.5, else held |
| Pricing.UnknownCostNeverRuns | Component_2/simulator.py:603-690 | without a recipe cost nothing runs without a human; with one at or above the price it is held |
| Pricing.ConfidenceBands | Component_2/simulator.py:550-555 | where rounded confidence lies for small and medium changes |
| Pricing.MarginCandidatePays | Component_3/reasoning.py:248-302 | for every flagged item at two dollars or more the candidate is strictly above the price, on the quarter grid, and margin and score stay positive through every rounding |
| Pricing.ProposedRise | Component_3/opportunity_detector.py:145-195 | the flag, cent rounding and step rounding still leave a candidate and a rise of at least 1.05 per cent |
| Pricing.MarginCandidateRisesIff | Component_3/reasoning.py:226-283 | exactly when the candidate is above the current price, for every price and cost |
| Pricing.CheapItemStandsStill | Component_3/reasoning.py:226-283 | a flagged item at 1.50 whose only candidate is 1.50 |
| Pricing.DemandCandidateIsASmallCut | Component_3/reasoning.py:305-351 | above 2.50 the demand candidate is a cut of at most a tenth, on the grid |
| Pricing.DemandCandidateStandsStill | Component_3/reasoning.py:305-351 | at 2.50 it proposes 2.50 |
| Pricing.DemandCandidateCutsIff | Component_3/reasoning.py:305-351 | at any price: a cut of at most a tenth if and only if a twentieth less falls between the halfway marks to the steps at or above nine tenths of the price and at or above the price |
| Pricing.CheapItemIsCutTooFar | Component_3/reasoning.py:305-351 | at 0.60 it proposes 0.50 |
| Pricing.DemandCandidatePaysIff | Component_3/reasoning.py:313-328 | it pays exactly when cost lies below a sixth of the price minus the cut, and never under the fallback cost |
| Pricing.StepIsNear | Component_3/reasoning.py:226-238 | the step price is on the grid and within an eighth |
| SupplierSwitch.LoadDemandBaseline | Component_2/simulator.py:382-421 | the loop averages the positive demand rows, or finds none |
| SupplierSwitch.DemandIsAmongTheRows | Component_2/simulator.py:382-421 | a baseline exists exactly when some row is positive, and lies between the smallest and largest positive row |
| SupplierSwitch.DemandOfMore | Component_2/simulator.py:382-421 | one more positive row joins the average with equal weight; any other row changes nothing |
| SupplierSwitch.Propagate | Component_2/simulator.py:836-874 | the loop over usages adds up to the saving per unit times the amount used, and to the turnover |
| SupplierSwitch.SimulateSupplierSwitch | Component_2/simulator.py:740-935 | margin change, confidence and stockout risk of a switch: 0.25, or 0.35 when stock is known to be depleted |
| SupplierSwitch.SwitchPaysIff | Component_2/simulator.py:836-884 | a switch pays exactly when it is cheaper and some dish on sale for money uses the ingredient |
| SupplierSwitch.ChangeIsAmongTheDishes | Component_2/simulator.py:836-884 | the change over the menu lies between the smallest and the largest change of a single dish, whatever the demand; with one dish demand does not matter |
| SupplierSwitch.SwitchOutcome | Component_6/risk_classifier.py:240-301 | no switch runs by itself: depleted stock is held, more than half dearer is blocked, the rest waits for a human |
| RecipeCost.GroupCosts | Component_3/opportunity_detector.py:90-110 | one pass gives each item with a row the total of its rows, and no other item an entry |
| RecipeCost.LoadRecipeCost | Component_2/simulator.py:302-379 | no rows, no cost; the first insane row is an error that says what is wrong with it; otherwise the total |
| RecipeCost.ItemRowsAreSelected | Component_2/simulator.py:318-347 | the per-item query returns the grouped query's rows of that item |
| RecipeCost.ItemRowsAreTheJoin | Component_2/simulator.py:318-347 | a cost row of an item is a line of one of its active recipes and the price of its ingredient, all of one tenant, and every such triple is a row |
| RecipeCost.TotalIsTheSum | Component_2/simulator.py:352-379 | one more row adds its quantity times its price |
| RecipeCost.TotalIgnoresOrder | Component_2/simulator.py:352-379 | the order in which the database returns rows does not matter |
| RecipeCost.DetectorAgreesWithSimulator | Component_3/opportunity_detector.py:90-110 | both ways of costing give the same figure for every item, or both none |
| Candidates.Reason | Component_3/llm_reasoner.py:112-152 | the loop returns the first five valid entries, in order, however many invalid ones stand between |
| Candidates.AcceptedAreGrounded | Component_3/candidate_validator.py:126-230 | an accepted entry is a review-flagged price change of a named item that the critic would approve at the price in evidence |
| Candidates.AcceptedIff | Component_3/candidate_validator.py:82-230 | accepted if and only if: an allowed price change with exactly an affected item and a positive price within three tenths of the one in evidence, a rationale, and flags of the right kind |
| Candidates.Merge | Component_3/candidate_merger.py:43-68 | the loop computes the list without later entries of a key already seen |
| Candidates.MergeKeepsFirstOnes | Component_3/candidate_merger.py:43-68 | original order, exactly the first entry of each key, and no key lost |
| Candidates.DeterministicSurvive | Component_3/candidate_merger.py:43-68 | the deterministic candidates come first and none gives way to a model's duplicate |
| Candidates.PayloadsFreezeAlikeIff | Component_3/candidate_merger.py:17-40 | two payloads have one key exactly when they name the same fields and each field freezes alike, however they were ordered |
| Candidates.SamePriceChangeIff | Component_3/candidate_merger.py:35-40 | two proposed price changes are duplicates exactly when opportunity, action, item and amount are the same |
| Candidates.TruthCountsAsOne | Component_3/candidate_merger.py:17-40 | payloads that differ only in true against 1 are merged, as Python compares them |
| Ranking.RankedIsASort | orchestrator.py:377-382 | the ranking is a permutation in rank order |
| Ranking.ChosenRanksFirst | orchestrator.py:536-568 | something is attempted if and only if some candidate is eligible, and it ranks before every other eligible one |
| Ranking.ChosenIsBest | orchestrator.py:536-568 | exactly one place in the list is attempted: of the eligible candidates the one that ranks before all others and, among equals, was given first |
| Ranking.ChosenHasTheHighestScore | orchestrator.py:361-382 | the highest score is attempted, a model candidate only when it beats every deterministic one, and among equals the first by its payload text |
| Ranking.ModelsNeverAct | orchestrator.py:548-563 | while forced review cannot be routed no model candidate is attempted, and only flagged viable ones are ever passed over |
| Cycle.InCooldown | orchestrator.py:312-339 | the scan with its early exit answers whether any of the newest 500 rows in the window counts |
| Cycle.Handle | orchestrator.py:517-580 | which opportunities stop where; a candidate is attempted if and only if the mode is execute, actions are left, the log is readable, it is the best and no recent row counts |
| Cycle.VerdictIff | orchestrator.py:517-580 | each ending of an opportunity, and the attempt, exactly under its own condition on candidates, log, mode and budget |
| Cycle.SameTargetIff | orchestrator.py:305-309 | two payloads have one target iff they name the same menu item, ingredient, supplier SKU and shift, or neither does |
| Cycle.RunCycle | orchestrator.py:482-514 | the loop computes the recursive cycle, abort included, of which the laws below speak |
| Cycle.AbortsIff | orchestrator.py:482-503 | a cycle is aborted at the first opportunity after max_errors errors, and exactly failed ones count |
| Cycle.TurnEndsIff | orchestrator.py:517-568 | what one more opportunity ends as, each status if and only if its own condition holds |
| Cycle.TurnActsIff | orchestrator.py:566-600 | the tool framework is called if and only if some candidate is eligible, the cycle is in execute mode with fewer than max_actions attempts, the log is readable and shows no recent row for the best one; then its answer is recorded |
| Cycle.CycleIsBounded | orchestrator.py:482-503 | at most max_actions attempts, at most max_actions + max_errors calls, none outside execute mode |
| Cycle.LogStaysInOrder | Component_4/tool_framework.py:928-965 | every row committed during a cycle takes its place by date, so the log is read newest first throughout |
| Cycle.AcceptedIsLogged | orchestrator.py:312-339 | every attempt executed or sent to a reviewer is in the action log from then on, dated after the cycle's start |
| Cycle.AcceptedIsSeen | orchestrator.py:312-339 | with at most 500 rows since the cycle's start, its own included, each later opportunity reads that row |
| Cycle.NothingTwice | orchestrator.py:312-339 | no two executed or pending outcomes of one cycle share action type and target |
| Cycle.OutcomeOfTurn | orchestrator.py:482-503 | each recorded attempt is the decision for its own opportunity |

## Left out

- The connection pool and statement or lock time-outs: a lock time-out may strike at any moment of the
  wait; a call needs a second connection while its guard session holds one, and the pool that both
  come from is unbounded here.
- Queues of waiters: who stands behind whom for one lock is left to the database; a waiter waits for holders.
- Locks of statements outside the protocol, such as seeding, role set-up and tenant removal.
- `event_type` and tenant normalisation (event_store.py:95-136): events carry a kind, tenants are already canonical.
- NaN and infinite numbers count as not numeric; the code rejects them too, in some branches with another exception class.
- A non-text order id that Python treats as true, and a non-text invoice or shift id, count as a database error; what the driver does with them is not modelled.
- Unhashable ids in replay: accepted logs carry text ids only. Replay's float copy of a stock level (event_store.py:1585) is not kept apart from the level.
- Agreement of replay and tables for staffing: replay files headcounts by role and day, the table by shift id, so they need not agree; EventLedgers.ShiftsAreLogged and EventLedgers.ReplayShowsHeadcount say what each of them holds.
- Updates of `updated_at`, and the effective_at field of a replayed SKU price.
- EventReplay.EventAgrees: asks that stock figures fit four decimals; for all others EventReplay.LevelsMoveAlikeIff says exactly when one event keeps the two levels equal, and EventDrift.RunStaysNear how far a whole run can move them apart.
- HashChain.AppendKeepsTheChainIff: payloads are JSON objects, with text keys at every depth. The code also takes nested dictionaries with number keys (event_store.py:162-168); it hashes those in number order and reads them back in text order, so such an append fails verification even when clean and read last.
- Menu and staffing simulations, stockout opportunities and the detector's impact ranking: simulators enter the protocol as arbitrary confidences in [0, 1].
- `_resolve_supplier_sku_id` and `_resolve_staffing_event_payload`: which row a supplier switch or staffing change writes; their failures are exceptions a call may raise, and the protocol applies every staffing change.
- Prices in the protocol are changed by agent events only; events of other sources are part of the event store model, not of the protocol's state.
- Synthetic ground truth and calibration error: the observation step has no effect on any property stated.
- Binary floating point: prices and confidences are exact rationals, with rounding to nearest where the code rounds.
- Cycle.NothingTwice: asks for a cooldown above zero, for calls that run under fresh keys, and for at most 500 log rows since the cycle began; beyond that the scan of the log no longer sees the whole cycle.
- Prompt construction, calls to the model provider, message queue, HTTP wiring, row-level security set-up, role provisioning, API keys, observers and reports.
