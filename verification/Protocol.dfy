/**
  The execution protocol as a state machine over the shared tables.

  One label is one database transaction (one `get_db_context` block) of one worker, or one
  human or queue action; workers interleave freely and may crash or raise anywhere.
  `Can...` is the guard of a label and `After...` its effect. `Step` is total: a label whose
  guard fails leaves the state as it is, so every list of labels is a schedule and `Run`
  reaches exactly the reachable states. Where the code raises on a failed check (a decision
  that is not SIMULATED any more, a value the event store refuses), the label is not enabled
  and `Raise` is what the worker can do.
 */
module Protocol {
  import opened Wrappers
  import opened Policy
  import opened Columns

  type WorkerId = int
  type DecisionId = int
  type RowId = int

  /** A tenant-scoped idempotency key. */
  datatype Key = Key(tenant: int, text: string)

  datatype Outcome =
    | NoOutcome
    | DidExecute
    | HeldLowConfidence
    | BlockedByCritic
    | PendingApproval
    | ConcurrentChange
    | UnsupportedAction
    | InvalidRequest
    | RequestInProgress
    | PreviousIncomplete
    | Raised
    | Replayed(stored: Outcome)
  {
    predicate Reports() { DidExecute? || (Replayed? && stored.Reports()) }
  }

  datatype KeyStatus = InProgress | Completed | Failed

  /** `idempotency_keys`; `owner` is history: the worker whose insert created the row. */
  datatype KeyRow = KeyRow(
    fingerprint: int, status: KeyStatus, result: Outcome, createdAt: int, owner: WorkerId)

  datatype DecisionStatus = Simulated | Held | Executed | Evaluated {
    function Rank(): nat {
      match this
      case Held => 0
      case Simulated => 1
      case Executed => 2
      case Evaluated => 3
    }
  }

  /** `decisions`; `proposer` and `executor` are history. */
  datatype DecisionRow = DecisionRow(
    tenant: int, action: Action, confidence: real, cleared: bool, status: DecisionStatus,
    proposer: WorkerId, executor: Option<WorkerId>)

  datatype ApprovalStatus = Pending | Approved | Rejected

  datatype ApprovalRow = ApprovalRow(tenant: int, decision: DecisionId, status: ApprovalStatus)

  /** A priced entity of one tenant. */
  datatype Slot = MenuPrice(tenant: int, id: string) | IngredientPrice(tenant: int, id: string)

  /** An appended event with source "agent_action"; decision, worker and before are history. */
  datatype AgentEvent = AgentEvent(
    decision: DecisionId, worker: WorkerId, tenant: int, action: Action, before: Option<real>)

  /** `tool_execution_log`; `worker` is history. */
  datatype LogRow = LogRow(
    decision: Option<DecisionId>, worker: WorkerId, gate: bool, critic: Option<bool>, executed: bool)

  datatype WorkStatus = Queued | Processing | Finished | Unsuccessful

  datatype WorkRow = WorkRow(key: Key, action: Action, status: WorkStatus)

  datatype Message = Message(tenant: int, request: RowId)

  /** The advisory lock of `_serialization_key`. */
  datatype Resource =
    | PriceLock(tenant: int, item: string)
    | MenuLock(tenant: int, item: string)
    | SupplierLock(tenant: int, ingredient: string)
    | StaffLock(tenant: int)

  datatype Kind = Caller | Handler(request: RowId) | Submitter(submitted: RowId) | Approver(approval: RowId)

  datatype Phase =
    | Submitting | Publishing
    | Fetched | Claiming | Conflicted(seen: KeyRow, stale: bool)
    | Proposing | Locking | Reading | Requesting
    | Taking | Observing | Evaluating | Appending
    | Recording(row: LogRow) | Releasing | Settling | Reporting | Done

  datatype Worker = Worker(
    kind: Kind, key: Key, fingerprint: int, action: Action, phase: Phase,
    owned: bool,                    // this worker's insert won the key
    decision: Option<DecisionId>,
    current: Option<real>,          // baseline read under the lock
    asked: bool,                    // sent its decision to a reviewer
    appended: bool,                 // its event is in the log
    outcome: Outcome)

  datatype State = State(
    keys: map<Key, KeyRow>,
    decisions: map<DecisionId, DecisionRow>,
    approvals: map<RowId, ApprovalRow>,
    events: seq<AgentEvent>,
    log: seq<LogRow>,
    initial: map<Slot, real>,       // prices before the first event
    values: map<Slot, real>,        // current prices
    requests: map<RowId, WorkRow>,
    published: set<Message>,
    workers: map<WorkerId, Worker>,
    locks: map<Resource, WorkerId>)

  const STALE_AFTER := 300          // seconds

  function Start(prices: map<Slot, real>): State {
    State(map[], map[], map[], [], [], prices, prices, map[], {}, map[], map[])
  }

  function ResourceOf(tenant: int, action: Action): Resource {
    match action
    case PriceChange(item, _) => PriceLock(tenant, item)
    case MenuSwap(item, _) => MenuLock(tenant, item)
    case SupplierSwitch(ingredient, _) => SupplierLock(tenant, ingredient)
    case StaffingChange(_) => StaffLock(tenant)
  }

  function Lock(k: Worker): Resource { ResourceOf(k.key.tenant, k.action) }

  /** The price an action moves, and where to. */
  function Target(tenant: int, action: Action): Option<(Slot, Field)> {
    match action
    case PriceChange(item, p) => Some((MenuPrice(tenant, item), p))
    case SupplierSwitch(ingredient, p) => Some((IngredientPrice(tenant, ingredient), p))
    case _ => None
  }

  /** `_current_value_for_critic` */
  function CurrentValue(values: map<Slot, real>, tenant: int, action: Action): Option<real> {
    match Target(tenant, action)
    case Some((slot, _)) => if slot in values then Some(values[slot]) else None
    case None => None
  }

  /** A figure the event store takes as a new price: not negative, and within its column. */
  predicate IsPrice(p: Field) { p.Number? && p.value >= 0.0 && Cents(p.value) < COLUMN_LIMIT }

  /** When `_apply_state_change` has an event to append and `append_event` accepts it. */
  predicate CanApply(values: map<Slot, real>, tenant: int, action: Action) {
    match action
    case PriceChange(item, p) => MenuPrice(tenant, item) in values && IsPrice(p)
    case SupplierSwitch(i, p) => IngredientPrice(tenant, i) in values && IsPrice(p)
    case MenuSwap(item, change) => change == "remove" && MenuPrice(tenant, item) in values
    case StaffingChange(_) => true
  }

  /** The price column keeps whole cents of what the event asks for. */
  function Applied(values: map<Slot, real>, tenant: int, action: Action): map<Slot, real> {
    match Target(tenant, action)
    case Some((slot, Number(v))) => values[slot := Cents(v)]
    case _ => values
  }

  function Put(s: State, w: WorkerId, k: Worker): State { s.(workers := s.workers[w := k]) }

  function NewWorker(kind: Kind, key: Key, fingerprint: int, action: Action, phase: Phase): Worker {
    Worker(kind, key, fingerprint, action, phase, false, None, None, false, false, NoOutcome)
  }

  // ---------------------------------------------------------------- API and queue

  predicate KeyTaken(s: State, key: Key) { exists r :: r in s.requests && s.requests[r].key == key }

  /** First read of `submit_action`; a key that has a row already is answered from that row. */
  predicate CanSubmit(s: State, w: WorkerId, key: Key) { w !in s.workers && !KeyTaken(s, key) }

  function AfterSubmit(s: State, w: WorkerId, key: Key, action: Action, request: RowId): State {
    Put(s, w, NewWorker(Submitter(request), key, 0, action, Submitting))
  }

  /** The unique constraint on (tenant, key) decides a race of two inserts. */
  predicate CanInsertRequest(s: State, w: WorkerId) {
    w in s.workers && s.workers[w].phase.Submitting? && s.workers[w].kind.Submitter?
    && !KeyTaken(s, s.workers[w].key) && s.workers[w].kind.submitted !in s.requests
  }

  function AfterInsertRequest(s: State, w: WorkerId): State
    requires CanInsertRequest(s, w)
  {
    var k := s.workers[w];
    s.(workers := s.workers[w := k.(phase := Publishing)],
       requests := s.requests[k.kind.submitted := WorkRow(k.key, k.action, Queued)])
  }

  /** The insert that fails is answered from the row that won. */
  predicate CanLoseRace(s: State, w: WorkerId) {
    w in s.workers && s.workers[w].phase.Submitting? && s.workers[w].kind.Submitter?
    && (KeyTaken(s, s.workers[w].key) || s.workers[w].kind.submitted in s.requests)
  }

  function AfterLoseRace(s: State, w: WorkerId): State
    requires CanLoseRace(s, w)
  {
    Put(s, w, s.workers[w].(phase := Done))
  }

  /** After the commit of the insert. */
  predicate CanPublish(s: State, w: WorkerId) {
    w in s.workers && s.workers[w].phase.Publishing? && s.workers[w].kind.Submitter?
  }

  function AfterPublish(s: State, w: WorkerId): State
    requires CanPublish(s, w)
  {
    var k := s.workers[w];
    s.(workers := s.workers[w := k.(phase := Done)],
       published := s.published + {Message(k.key.tenant, k.kind.submitted)})
  }

  /** First read of `process_message`; any message may arrive, forged and repeated ones too. */
  predicate CanDeliver(s: State, w: WorkerId, m: Message) {
    w !in s.workers && m.request in s.requests
    && s.requests[m.request].key.tenant == m.tenant && s.requests[m.request].status.Queued?
  }

  function AfterDeliver(s: State, w: WorkerId, m: Message, fingerprint: int): State
    requires CanDeliver(s, w, m)
  {
    var row := s.requests[m.request];
    Put(s, w, NewWorker(Handler(m.request), row.key, fingerprint, row.action, Fetched))
  }

  function SetStatus(requests: map<RowId, WorkRow>, r: RowId, status: WorkStatus): map<RowId, WorkRow> {
    if r in requests then requests[r := requests[r].(status := status)] else requests
  }

  predicate CanMarkProcessing(s: State, w: WorkerId) {
    w in s.workers && s.workers[w].phase.Fetched? && s.workers[w].kind.Handler?
  }

  /** `valid`: the action type exists and the payload passes the synthetic-only guard. */
  function AfterMarkProcessing(s: State, w: WorkerId, valid: bool): State
    requires CanMarkProcessing(s, w)
  {
    var k := s.workers[w];
    s.(workers := s.workers[w := k.(phase := if valid then Claiming else Reporting,
                                    outcome := if valid then NoOutcome else InvalidRequest)],
       requests := SetStatus(s.requests, k.kind.request, Processing))
  }

  predicate CanCall(s: State, w: WorkerId) { w !in s.workers }

  function AfterCall(s: State, w: WorkerId, key: Key, fingerprint: int, action: Action): State {
    Put(s, w, NewWorker(Caller, key, fingerprint, action, Claiming))
  }

  // ---------------------------------------------------------------- idempotency keys

  function AfterKey(k: Worker): Phase { if k.kind.Handler? then Reporting else Done }

  /** The insert of `claim` goes in only where the key has no row. */
  predicate CanClaim(s: State, w: WorkerId) {
    w in s.workers && s.workers[w].phase.Claiming? && s.workers[w].key !in s.keys
  }

  function AfterClaim(s: State, w: WorkerId, now: int): State
    requires CanClaim(s, w)
  {
    var k := s.workers[w];
    s.(workers := s.workers[w := k.(phase := Proposing, owned := true)],
       keys := s.keys[k.key := KeyRow(k.fingerprint, InProgress, NoOutcome, now, w)])
  }

  /** Otherwise it reads the row that is there. */
  predicate CanConflict(s: State, w: WorkerId) {
    w in s.workers && s.workers[w].phase.Claiming? && s.workers[w].key in s.keys
  }

  predicate IsStale(row: KeyRow, now: int) { row.status.InProgress? && now - row.createdAt > STALE_AFTER }

  function AfterConflict(s: State, w: WorkerId, now: int): State
    requires CanConflict(s, w)
  {
    var k := s.workers[w];
    var row := s.keys[k.key];
    Put(s, w, k.(phase := Conflicted(row, IsStale(row, now))))
  }

  /** The stale branch writes without comparing with what the row holds by then. */
  function Abandon(keys: map<Key, KeyRow>, key: Key): map<Key, KeyRow> {
    if key in keys then keys[key := keys[key].(status := Failed, result := NoOutcome)] else keys
  }

  function ConflictOutcome(fingerprint: int, seen: KeyRow, stale: bool): Outcome {
    if seen.fingerprint != fingerprint then Raised
    else if seen.status.Completed? then Replayed(seen.result)
    else if seen.status.InProgress? && !stale then RequestInProgress
    else PreviousIncomplete
  }

  predicate CanResolveConflict(s: State, w: WorkerId) { w in s.workers && s.workers[w].phase.Conflicted? }

  function AfterResolveConflict(s: State, w: WorkerId): State
    requires CanResolveConflict(s, w)
  {
    var k := s.workers[w];
    s.(workers := s.workers[w := k.(phase := AfterKey(k),
                                    outcome := ConflictOutcome(k.fingerprint, k.phase.seen, k.phase.stale))],
       keys := if k.phase.stale then Abandon(s.keys, k.key) else s.keys)
  }

  /** `_finish`: the compare-and-set on IN_PROGRESS. */
  function Finish(keys: map<Key, KeyRow>, key: Key, outcome: Outcome): map<Key, KeyRow> {
    if key !in keys || !keys[key].status.InProgress? then keys
    else keys[key := keys[key].(
                status := if outcome.Raised? then Failed else Completed, result := outcome)]
  }

  predicate CanSettle(s: State, w: WorkerId) { w in s.workers && s.workers[w].phase.Settling? }

  function AfterSettle(s: State, w: WorkerId): State
    requires CanSettle(s, w)
  {
    var k := s.workers[w];
    s.(workers := s.workers[w := k.(phase := AfterKey(k))], keys := Finish(s.keys, k.key, k.outcome))
  }

  /** Step 5 of `process_message`; a transient failure leaves the row in processing. */
  predicate CanReport(s: State, w: WorkerId) {
    w in s.workers && s.workers[w].phase.Reporting? && s.workers[w].kind.Handler?
  }

  function AfterReport(s: State, w: WorkerId, transient: bool): State
    requires CanReport(s, w)
  {
    var k := s.workers[w];
    s.(workers := s.workers[w := k.(phase := Done)],
       requests := if k.outcome.Raised? && transient then s.requests
                   else SetStatus(s.requests, k.kind.request,
                                  if k.outcome.Reports() then Finished else Unsuccessful))
  }

  // ---------------------------------------------------------------- the tool framework

  predicate IsMenuAdd(action: Action) { action.MenuSwap? && action.change == "add" }

  /** MENU_SWAP add is logged and answered before anything is proposed. */
  predicate CanRefuse(s: State, w: WorkerId) {
    w in s.workers && s.workers[w].phase.Proposing? && IsMenuAdd(s.workers[w].action)
  }

  function AfterRefuse(s: State, w: WorkerId): State
    requires CanRefuse(s, w)
  {
    Put(s, w, s.workers[w].(phase := Recording(LogRow(None, w, false, None, false)),
                            outcome := UnsupportedAction))
  }

  /** `propose_and_simulate` for any simulator, and the confidence gate. */
  predicate CanPropose(s: State, w: WorkerId, d: DecisionId, confidence: real) {
    w in s.workers && s.workers[w].phase.Proposing? && !IsMenuAdd(s.workers[w].action)
    && d !in s.decisions && 0.0 <= confidence <= 1.0
  }

  function NewDecision(k: Worker, w: WorkerId, confidence: real): DecisionRow {
    var cleared := confidence >= CONFIDENCE_THRESHOLD;
    DecisionRow(k.key.tenant, k.action, confidence, cleared, if cleared then Simulated else Held, w, None)
  }

  function AfterPropose(s: State, w: WorkerId, d: DecisionId, confidence: real): State
    requires CanPropose(s, w, d, confidence)
  {
    var k := s.workers[w];
    var k' := if confidence >= CONFIDENCE_THRESHOLD then k.(phase := Locking, decision := Some(d))
              else k.(phase := Recording(LogRow(Some(d), w, false, None, false)),
                      decision := Some(d), outcome := HeldLowConfidence);
    s.(workers := s.workers[w := k'], decisions := s.decisions[d := NewDecision(k, w, confidence)])
  }

  predicate CanAcquire(s: State, w: WorkerId) {
    w in s.workers && s.workers[w].phase.Locking? && Lock(s.workers[w]) !in s.locks
  }

  function AfterAcquire(s: State, w: WorkerId): State
    requires CanAcquire(s, w)
  {
    var k := s.workers[w];
    s.(workers := s.workers[w := k.(phase := if k.kind.Approver? then Taking else Reading)],
       locks := s.locks[Lock(k) := w])
  }

  /** ToolBusyError: logged and answered by the proposing path; the approved path raises. */
  predicate CanTimeOut(s: State, w: WorkerId) {
    w in s.workers && s.workers[w].phase.Locking? && !s.workers[w].kind.Approver?
  }

  function AfterTimeOut(s: State, w: WorkerId): State
    requires CanTimeOut(s, w)
  {
    var k := s.workers[w];
    Put(s, w, k.(phase := Recording(LogRow(k.decision, w, true, None, false)), outcome := ConcurrentChange))
  }

  /** The baseline read, the critic and the risk classifier, all under the lock. */
  predicate CanAssess(s: State, w: WorkerId) {
    w in s.workers && s.workers[w].phase.Reading?
    && s.workers[w].decision.Some? && s.workers[w].decision.value in s.decisions
  }

  function Verdict(k: Worker, w: WorkerId, confidence: real, current: Option<real>): Worker {
    if !CriticApproves(k.action, current) then
      k.(current := current, phase := Recording(LogRow(k.decision, w, true, Some(false), false)),
         outcome := BlockedByCritic)
    else if ClassifyRisk(k.action, Number(confidence), current).RequiresApproval() then
      k.(current := current, phase := Requesting)
    else k.(current := current, phase := Taking)
  }

  function AfterAssess(s: State, w: WorkerId): State
    requires CanAssess(s, w)
  {
    var k := s.workers[w];
    Put(s, w, Verdict(k, w, s.decisions[k.decision.value].confidence,
                      CurrentValue(s.values, k.key.tenant, k.action)))
  }

  predicate HasRequest(s: State, d: DecisionId) {
    exists r :: r in s.approvals && s.approvals[r].decision == d
  }

  /** `ApprovalWorkflow.request`: one row per decision, re-requesting returns it. */
  predicate CanRequestReview(s: State, w: WorkerId, r: RowId) {
    w in s.workers && s.workers[w].phase.Requesting? && s.workers[w].decision.Some?
    && (r !in s.approvals || HasRequest(s, s.workers[w].decision.value))
  }

  function AfterRequestReview(s: State, w: WorkerId, r: RowId): State
    requires CanRequestReview(s, w, r)
  {
    var k := s.workers[w];
    var d := k.decision.value;
    s.(workers := s.workers[w := k.(phase := Recording(LogRow(k.decision, w, true, Some(true), false)),
                                    asked := true, outcome := PendingApproval)],
       approvals := if HasRequest(s, d) then s.approvals
                    else s.approvals[r := ApprovalRow(k.key.tenant, d, Pending)])
  }

  /** Phase 1 of `execute_and_observe`: the row-locked claim of the decision. */
  predicate CanTake(s: State, w: WorkerId) {
    w in s.workers && s.workers[w].phase.Taking? && s.workers[w].decision.Some?
    && s.workers[w].decision.value in s.decisions
    && s.decisions[s.workers[w].decision.value].cleared
    && s.decisions[s.workers[w].decision.value].status.Simulated?
  }

  function AfterTake(s: State, w: WorkerId): State
    requires CanTake(s, w)
  {
    var k := s.workers[w];
    var d := k.decision.value;
    s.(workers := s.workers[w := k.(phase := Observing)],
       decisions := s.decisions[d := s.decisions[d].(status := Executed, executor := Some(w))])
  }

  /** Phase 2, outside any transaction */
  predicate CanObserve(s: State, w: WorkerId) { w in s.workers && s.workers[w].phase.Observing? }

  function AfterObserve(s: State, w: WorkerId): State
    requires CanObserve(s, w)
  {
    Put(s, w, s.workers[w].(phase := Evaluating))
  }

  /** Phase 3 */
  predicate CanEvaluate(s: State, w: WorkerId) {
    w in s.workers && s.workers[w].phase.Evaluating? && s.workers[w].decision.Some?
    && s.workers[w].decision.value in s.decisions
    && s.decisions[s.workers[w].decision.value].status.Executed?
  }

  function AfterEvaluate(s: State, w: WorkerId): State
    requires CanEvaluate(s, w)
  {
    var k := s.workers[w];
    var d := k.decision.value;
    s.(workers := s.workers[w := k.(phase := Appending)],
       decisions := s.decisions[d := s.decisions[d].(status := Evaluated)])
  }

  function ExecutedRow(k: Worker, w: WorkerId): LogRow { LogRow(k.decision, w, true, Some(true), true) }

  /** `_apply_state_change` */
  predicate CanAppend(s: State, w: WorkerId) {
    w in s.workers && s.workers[w].phase.Appending? && s.workers[w].decision.Some?
    && CanApply(s.values, s.workers[w].key.tenant, s.workers[w].action)
  }

  function AppendedEvent(s: State, w: WorkerId): AgentEvent
    requires CanAppend(s, w)
  {
    var k := s.workers[w];
    AgentEvent(k.decision.value, w, k.key.tenant, k.action, CurrentValue(s.values, k.key.tenant, k.action))
  }

  /** The approved path logs only after it has released its lock. */
  function AfterAppend(s: State, w: WorkerId): State
    requires CanAppend(s, w)
  {
    var k := s.workers[w];
    s.(workers := s.workers[w := k.(phase := if k.kind.Approver? then Releasing else Recording(ExecutedRow(k, w)),
                                    appended := true, outcome := DidExecute)],
       events := s.events + [AppendedEvent(s, w)],
       values := Applied(s.values, k.key.tenant, k.action))
  }

  predicate Holds(s: State, w: WorkerId, k: Worker) { Lock(k) in s.locks && s.locks[Lock(k)] == w }

  predicate CanRecord(s: State, w: WorkerId) { w in s.workers && s.workers[w].phase.Recording? }

  function AfterRecord(s: State, w: WorkerId): State
    requires CanRecord(s, w)
  {
    var k := s.workers[w];
    s.(workers := s.workers[w := k.(phase := if k.kind.Approver? then Done
                                             else if Holds(s, w, k) then Releasing else Settling)],
       log := s.log + [k.phase.row])
  }

  function Freed(locks: map<Resource, WorkerId>, w: WorkerId): map<Resource, WorkerId> {
    map r | r in locks && locks[r] != w :: locks[r]
  }

  /** End of the `with` block of the guard session. */
  predicate CanRelease(s: State, w: WorkerId) { w in s.workers && s.workers[w].phase.Releasing? }

  function AfterRelease(s: State, w: WorkerId): State
    requires CanRelease(s, w)
  {
    var k := s.workers[w];
    s.(workers := s.workers[w := k.(phase := if !k.kind.Approver? then Settling
                                             else if k.appended then Recording(ExecutedRow(k, w)) else Done)],
       locks := Freed(s.locks, w))
  }

  predicate Raises(phase: Phase) {
    phase.Proposing? || phase.Locking? || phase.Reading? || phase.Requesting? || phase.Taking?
    || phase.Observing? || phase.Evaluating? || phase.Appending? || phase.Recording? || phase.Releasing?
  }

  /** An exception anywhere inside the call; the guard session frees the lock on the way out. */
  predicate CanRaise(s: State, w: WorkerId) { w in s.workers && Raises(s.workers[w].phase) }

  function AfterRaise(s: State, w: WorkerId): State
    requires CanRaise(s, w)
  {
    var k := s.workers[w];
    s.(workers := s.workers[w := k.(phase := if k.kind.Approver? then Done else Settling, outcome := Raised)],
       locks := Freed(s.locks, w))
  }

  /** The process dies: its sessions end, so its locks go and its rows stay. */
  predicate CanCrash(s: State, w: WorkerId) { w in s.workers }

  function AfterCrash(s: State, w: WorkerId): State
    requires CanCrash(s, w)
  {
    s.(workers := s.workers[w := s.workers[w].(phase := Done)], locks := Freed(s.locks, w))
  }

  // ---------------------------------------------------------------- human review

  /** `ApprovalWorkflow.resolve`: the compare-and-set on PENDING. */
  predicate CanResolve(s: State, r: RowId) { r in s.approvals && s.approvals[r].status.Pending? }

  function AfterResolve(s: State, r: RowId, approve: bool): State
    requires CanResolve(s, r)
  {
    s.(approvals := s.approvals[r := s.approvals[r].(status := if approve then Approved else Rejected)])
  }

  /** `execute_approved_tool_call` up to its lock; anyone may call it, any number of times. */
  predicate CanExecuteApproved(s: State, w: WorkerId, tenant: int, r: RowId) {
    w !in s.workers && r in s.approvals
    && s.approvals[r].tenant == tenant && s.approvals[r].status.Approved?
    && s.approvals[r].decision in s.decisions
    && s.decisions[s.approvals[r].decision].tenant == tenant
  }

  function AfterExecuteApproved(s: State, w: WorkerId, tenant: int, r: RowId): State
    requires CanExecuteApproved(s, w, tenant, r)
  {
    var d := s.approvals[r].decision;
    Put(s, w, NewWorker(Approver(r), Key(tenant, ""), 0, s.decisions[d].action, Locking).(decision := Some(d)))
  }

  datatype Label =
    | Submit(w: WorkerId, key: Key, action: Action, request: RowId)
    | InsertRequest(w: WorkerId)
    | LoseRace(w: WorkerId)
    | Publish(w: WorkerId)
    | Deliver(w: WorkerId, message: Message, fingerprint: int)
    | MarkProcessing(w: WorkerId, valid: bool)
    | Call(w: WorkerId, key: Key, fingerprint: int, action: Action)
    | Claim(w: WorkerId, now: int)
    | Conflict(w: WorkerId, now: int)
    | ResolveConflict(w: WorkerId)
    | Refuse(w: WorkerId)
    | Propose(w: WorkerId, decision: DecisionId, confidence: real)
    | Acquire(w: WorkerId)
    | TimeOut(w: WorkerId)
    | Assess(w: WorkerId)
    | RequestReview(w: WorkerId, approval: RowId)
    | Take(w: WorkerId)
    | Observe(w: WorkerId)
    | Evaluate(w: WorkerId)
    | Append(w: WorkerId)
    | Record(w: WorkerId)
    | Release(w: WorkerId)
    | Settle(w: WorkerId)
    | Report(w: WorkerId, transient: bool)
    | Raise(w: WorkerId)
    | Crash(w: WorkerId)
    | Resolve(approval: RowId, approve: bool)
    | ExecuteApproved(w: WorkerId, tenant: int, approval: RowId)

  /** Requests and the queue. */
  predicate IsIntake(move: Label) {
    move.Submit? || move.InsertRequest? || move.LoseRace? || move.Publish? || move.Deliver?
    || move.MarkProcessing? || move.Call? || move.Report?
  }

  /** Idempotency keys and reviewers. */
  predicate IsBookkeeping(move: Label) {
    move.Claim? || move.Conflict? || move.ResolveConflict? || move.Settle? || move.Resolve?
  }

  /** A call up to its verdict; everything else is the execution of a decision. */
  predicate IsDeciding(move: Label) {
    move.Refuse? || move.Propose? || move.Acquire? || move.TimeOut? || move.Assess? || move.RequestReview?
    || move.ExecuteApproved?
  }

  predicate IsExecuting(move: Label) { !IsIntake(move) && !IsBookkeeping(move) && !IsDeciding(move) }

  function StepIntake(s: State, move: Label): State
    requires IsIntake(move)
  {
    match move
    case Submit(w, key, action, r) => if CanSubmit(s, w, key) then AfterSubmit(s, w, key, action, r) else s
    case InsertRequest(w) => if CanInsertRequest(s, w) then AfterInsertRequest(s, w) else s
    case LoseRace(w) => if CanLoseRace(s, w) then AfterLoseRace(s, w) else s
    case Publish(w) => if CanPublish(s, w) then AfterPublish(s, w) else s
    case Deliver(w, m, fingerprint) => if CanDeliver(s, w, m) then AfterDeliver(s, w, m, fingerprint) else s
    case MarkProcessing(w, valid) => if CanMarkProcessing(s, w) then AfterMarkProcessing(s, w, valid) else s
    case Call(w, key, fingerprint, action) =>
      if CanCall(s, w) then AfterCall(s, w, key, fingerprint, action) else s
    case Report(w, transient) => if CanReport(s, w) then AfterReport(s, w, transient) else s
  }

  function StepBookkeeping(s: State, move: Label): State
    requires IsBookkeeping(move)
  {
    match move
    case Claim(w, now) => if CanClaim(s, w) then AfterClaim(s, w, now) else s
    case Conflict(w, now) => if CanConflict(s, w) then AfterConflict(s, w, now) else s
    case ResolveConflict(w) => if CanResolveConflict(s, w) then AfterResolveConflict(s, w) else s
    case Settle(w) => if CanSettle(s, w) then AfterSettle(s, w) else s
    case Resolve(r, approve) => if CanResolve(s, r) then AfterResolve(s, r, approve) else s
  }

  function StepDeciding(s: State, move: Label): State
    requires IsDeciding(move)
  {
    match move
    case Refuse(w) => if CanRefuse(s, w) then AfterRefuse(s, w) else s
    case Propose(w, d, confidence) =>
      if CanPropose(s, w, d, confidence) then AfterPropose(s, w, d, confidence) else s
    case Acquire(w) => if CanAcquire(s, w) then AfterAcquire(s, w) else s
    case TimeOut(w) => if CanTimeOut(s, w) then AfterTimeOut(s, w) else s
    case Assess(w) => if CanAssess(s, w) then AfterAssess(s, w) else s
    case RequestReview(w, r) => if CanRequestReview(s, w, r) then AfterRequestReview(s, w, r) else s
    case ExecuteApproved(w, tenant, r) =>
      if CanExecuteApproved(s, w, tenant, r) then AfterExecuteApproved(s, w, tenant, r) else s
  }

  function StepExecuting(s: State, move: Label): State
    requires IsExecuting(move)
  {
    match move
    case Take(w) => if CanTake(s, w) then AfterTake(s, w) else s
    case Observe(w) => if CanObserve(s, w) then AfterObserve(s, w) else s
    case Evaluate(w) => if CanEvaluate(s, w) then AfterEvaluate(s, w) else s
    case Append(w) => if CanAppend(s, w) then AfterAppend(s, w) else s
    case Record(w) => if CanRecord(s, w) then AfterRecord(s, w) else s
    case Release(w) => if CanRelease(s, w) then AfterRelease(s, w) else s
    case Raise(w) => if CanRaise(s, w) then AfterRaise(s, w) else s
    case Crash(w) => if CanCrash(s, w) then AfterCrash(s, w) else s
  }

  function Step(s: State, move: Label): State {
    if IsIntake(move) then StepIntake(s, move)
    else if IsBookkeeping(move) then StepBookkeeping(s, move)
    else if IsDeciding(move) then StepDeciding(s, move)
    else StepExecuting(s, move)
  }

  /** The state after a whole schedule. */
  function Run(s: State, schedule: seq<Label>): State
    decreases |schedule|
  {
    if schedule == [] then s
    else Step(Run(s, schedule[..|schedule| - 1]), schedule[|schedule| - 1])
  }
}
