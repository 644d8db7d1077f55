/**
  The inductive invariant of the execution protocol, kept by every label.
 */
module ProtocolInvariant {
  import opened Wrappers
  import opened Policy
  import opened Protocol

  predicate Working(p: Phase) { Raises(p) || p.Settling? }

  predicate Executing(p: Phase) { p.Taking? || p.Observing? || p.Evaluating? || p.Appending? }

  predicate UnderLock(p: Phase) { p.Reading? || p.Requesting? || Executing(p) }

  predicate AtLock(p: Phase) { UnderLock(p) || p.Recording? || p.Releasing? }

  predicate Deciding(p: Phase) { p.Locking? || UnderLock(p) }

  predicate BeforeTaking(p: Phase) { p.Locking? || p.Reading? || p.Requesting? || p.Taking? }

  predicate Finishing(p: Phase) {
    p.Recording? || p.Releasing? || p.Settling? || p.Reporting? || p.Done?
  }

  ghost predicate HasEvent(events: seq<AgentEvent>, w: WorkerId) {
    exists i :: 0 <= i < |events| && events[i].worker == w
  }

  predicate LowRisk(k: Worker, row: DecisionRow) {
    ClassifyRisk(row.action, Number(row.confidence), k.current).Low?
  }

  /** The request row a worker has written or handles. */
  predicate Asks(row: WorkRow, k: Worker) { row.key == k.key && row.action == k.action }

  /** What a worker's claim on a key and on a decision means. */
  ghost predicate OwnershipOk(s: State, w: WorkerId, k: Worker) {
    && (k.owned ==> !k.kind.Approver? && k.key in s.keys
                    && s.keys[k.key].owner == w && s.keys[k.key].fingerprint == k.fingerprint)
    && (!k.kind.Approver? && Working(k.phase) ==> k.owned)
    && (!k.kind.Approver? && !k.owned ==> k.decision.None? && !k.asked && !k.appended)
    && (k.kind.Approver? ==> k.decision.Some? && !k.asked
                             && (k.phase.Locking? || Executing(k.phase) || k.phase.Recording?
                                 || k.phase.Releasing? || k.phase.Done?))
    && (k.decision.Some? ==>
          var d := k.decision.value;
          && d in s.decisions
          && s.decisions[d].tenant == k.key.tenant
          && s.decisions[d].action == k.action
          && match k.kind {
               case Approver(r) => r in s.approvals && s.approvals[r].status.Approved?
                                   && s.approvals[r].decision == d
               case _ => s.decisions[d].proposer == w
             })
    && (k.phase.Conflicted? ==> k.key in s.keys && s.keys[k.key].fingerprint == k.phase.seen.fingerprint)
    && (k.outcome.Replayed? ==> k.key in s.keys && s.keys[k.key].fingerprint == k.fingerprint)
    && (k.outcome.DidExecute? ==> k.appended)
    && (k.outcome.PendingApproval? ==> k.asked)
    && (k.phase.Fetched? || k.phase.Reporting? ==> k.kind.Handler?)
    && (k.phase.Submitting? || k.phase.Publishing? ==> k.kind.Submitter?)
    && (k.phase.Publishing? ==>
          k.kind.submitted in s.requests && Asks(s.requests[k.kind.submitted], k))
    && (k.kind.Handler? ==> k.kind.request in s.requests && Asks(s.requests[k.kind.request], k))
  }

  /** What each phase of an execution may rely on. */
  ghost predicate PhaseOk(s: State, w: WorkerId, k: Worker) {
    && (k.phase.Proposing? ==> k.decision.None? && !k.asked && !k.appended)
    && (Deciding(k.phase) ==> k.decision.Some? && !k.asked && !k.appended)
    && (UnderLock(k.phase) ==> Holds(s, w, k))
    && (k.kind.Approver? && (k.phase.Recording? || k.phase.Locking?) ==> !Holds(s, w, k))
    && (k.phase.Recording? ==>
          && k.phase.row.worker == w
          && (k.phase.row.executed ==> k.appended && k.phase.row.decision == k.decision))
    && (k.appended ==> k.decision.Some? && HasEvent(s.events, w))
  }

  ghost predicate DecisionUseOk(s: State, w: WorkerId, k: Worker) {
    k.decision.Some? && k.decision.value in s.decisions ==>
      var row := s.decisions[k.decision.value];
      && (!k.kind.Approver? && Deciding(k.phase) ==> row.cleared)
      && (!k.kind.Approver? && Executing(k.phase) ==>
            LowRisk(k, row) && k.current == CurrentValue(s.values, k.key.tenant, k.action))
      && (BeforeTaking(k.phase) ==> row.executor != Some(w))
      && (k.phase.Observing? || k.phase.Evaluating? ==> row.executor == Some(w) && row.status.Executed?)
      && (k.phase.Appending? ==> row.executor == Some(w) && row.status.Evaluated?)
      && (k.asked ==> Finishing(k.phase) && !k.appended && row.executor != Some(w))
  }

  ghost predicate DecisionOk(s: State, row: DecisionRow, d: DecisionId) {
    && row.proposer in s.workers
    && s.workers[row.proposer].owned
    && s.workers[row.proposer].decision == Some(d)
    && 0.0 <= row.confidence <= 1.0
    && row.cleared == (row.confidence >= CONFIDENCE_THRESHOLD)
    && (row.status.Held? <==> !row.cleared)
    && (row.executor.None? <==> row.status.Held? || row.status.Simulated?)
    && (row.executor.Some? ==>
          var x := row.executor.value;
          && x in s.workers
          && s.workers[x].decision == Some(d)
          && (!s.workers[x].kind.Approver? ==> LowRisk(s.workers[x], row)))
  }

  ghost predicate ApprovalOk(s: State, a: ApprovalRow) {
    && a.decision in s.decisions
    && a.tenant == s.decisions[a.decision].tenant
    && s.decisions[a.decision].proposer in s.workers
    && s.workers[s.decisions[a.decision].proposer].asked
  }

  ghost predicate KeyOk(s: State, key: Key, row: KeyRow) {
    && row.owner in s.workers
    && s.workers[row.owner].owned
    && s.workers[row.owner].key == key
    && (row.result.DidExecute? ==> s.workers[row.owner].appended)
  }

  ghost predicate EventOk(s: State, e: AgentEvent) {
    && e.worker in s.workers
    && s.workers[e.worker].appended
    && s.workers[e.worker].decision == Some(e.decision)
    && e.decision in s.decisions
    && s.decisions[e.decision].executor == Some(e.worker)
    && s.decisions[e.decision].status.Evaluated?
    && s.decisions[e.decision].action == e.action
    && s.decisions[e.decision].tenant == e.tenant
    && (!s.workers[e.worker].kind.Approver? ==> e.before == s.workers[e.worker].current)
  }

  ghost predicate LogOk(s: State, row: LogRow) {
    row.executed ==>
      && row.worker in s.workers
      && s.workers[row.worker].appended
      && s.workers[row.worker].decision == row.decision
  }

  ghost predicate LockOk(s: State, r: Resource, w: WorkerId) {
    && w in s.workers
    && Lock(s.workers[w]) == r
    && AtLock(s.workers[w].phase)
  }

  ghost predicate OneRequestEach(approvals: map<RowId, ApprovalRow>) {
    forall r, q | r in approvals && q in approvals ::
      approvals[r].decision == approvals[q].decision ==> r == q
  }

  ghost predicate OneRowPerKey(requests: map<RowId, WorkRow>) {
    forall r, q | r in requests && q in requests :: requests[r].key == requests[q].key ==> r == q
  }

  ghost predicate OneEventEach(events: seq<AgentEvent>) {
    forall i, j | 0 <= i < j < |events| :: events[i].worker != events[j].worker
  }

  ghost predicate PublishedOk(requests: map<RowId, WorkRow>, published: set<Message>) {
    forall m | m in published :: m.request in requests && requests[m.request].key.tenant == m.tenant
  }

  ghost predicate WorkerOk(s: State, w: WorkerId, k: Worker) {
    OwnershipOk(s, w, k) && PhaseOk(s, w, k) && DecisionUseOk(s, w, k)
  }

  ghost predicate WorkersOk(s: State) {
    forall w :: w in s.workers ==> WorkerOk(s, w, s.workers[w])
  }

  ghost predicate TablesOk(s: State) {
    && (forall d :: d in s.decisions ==> DecisionOk(s, s.decisions[d], d))
    && (forall r :: r in s.approvals ==> ApprovalOk(s, s.approvals[r]))
    && OneRequestEach(s.approvals)
    && (forall key :: key in s.keys ==> KeyOk(s, key, s.keys[key]))
    && (forall r :: r in s.locks ==> LockOk(s, r, s.locks[r]))
  }

  ghost predicate HistoryOk(s: State) {
    && (forall i :: 0 <= i < |s.events| ==> EventOk(s, s.events[i]))
    && OneEventEach(s.events)
    && (forall i :: 0 <= i < |s.log| ==> LogOk(s, s.log[i]))
  }

  ghost predicate RequestsOk(s: State) {
    OneRowPerKey(s.requests) && PublishedOk(s.requests, s.published)
  }

  ghost predicate Inv(s: State) { WorkersOk(s) && TablesOk(s) && HistoryOk(s) && RequestsOk(s) }

  lemma StartKeeps(prices: map<Slot, real>)
    ensures Inv(Start(prices))
  {
  }

  // ------------------------------------------------ what a step of one worker may change

  /** How many own steps a worker can still take. */
  function Remaining(k: Worker): nat {
    match k.phase
    case Fetched => 18
    case Claiming => 17
    case Conflicted(_, _) => 16
    case Proposing => 15
    case Locking => 14
    case Reading => 13
    case Requesting => 12
    case Taking => 11
    case Observing => 10
    case Evaluating => 9
    case Appending => 8
    case Recording(_) => if k.kind.Approver? then 4 else 7
    case Releasing => 5
    case Settling => 3
    case Submitting => 2
    case Reporting => 1
    case Publishing => 1
    case Done => 0
  }

  /** Identity and history stay; every own step uses up one of the remaining ones. */
  predicate WorkerGrows(k: Worker, k': Worker) {
    && (k' == k || Remaining(k') < Remaining(k))
    && k'.kind == k.kind && k'.key == k.key && k'.fingerprint == k.fingerprint && k'.action == k.action
    && (k.owned ==> k'.owned) && (k.asked ==> k'.asked) && (k.appended ==> k'.appended)
    && (k.decision.Some? ==> k'.decision == k.decision)
    && (k'.current != k.current ==> k.phase.Reading?)
  }

  predicate DecisionMoves(s: State, w: WorkerId, d: DecisionId, row: DecisionRow, row': DecisionRow) {
    || row' == row
    || (&& w in s.workers && s.workers[w].decision == Some(d)
        && s.workers[w].phase.Taking? && row.status.Simulated? && row.cleared
        && row' == row.(status := Executed, executor := Some(w)))
    || (&& w in s.workers && s.workers[w].decision == Some(d)
        && s.workers[w].phase.Evaluating? && row.status.Executed?
        && row' == row.(status := Evaluated))
  }

  ghost predicate KeysGrow(keys: map<Key, KeyRow>, keys': map<Key, KeyRow>) {
    forall key | key in keys ::
      && key in keys' && keys'[key].owner == keys[key].owner && keys'[key].fingerprint == keys[key].fingerprint
      && keys'[key].createdAt == keys[key].createdAt
  }

  ghost predicate DecisionsGrow(s: State, s': State, w: WorkerId) {
    forall d | d in s.decisions ::
      d in s'.decisions && DecisionMoves(s, w, d, s.decisions[d], s'.decisions[d])
  }

  predicate ApprovalMoves(a: ApprovalRow, a': ApprovalRow) {
    a' == a || (a.status.Pending? && a' == a.(status := a'.status))
  }

  ghost predicate ApprovalsGrow(approvals: map<RowId, ApprovalRow>, approvals': map<RowId, ApprovalRow>) {
    forall r | r in approvals :: r in approvals' && ApprovalMoves(approvals[r], approvals'[r])
  }

  /** A request row keeps its key and its action and is moved only by a live handler of that request. */
  ghost predicate RequestsGrow(s: State, s': State, w: WorkerId) {
    forall r | r in s.requests ::
      && r in s'.requests && s'.requests[r].key == s.requests[r].key && s'.requests[r].action == s.requests[r].action
      && (s'.requests[r] == s.requests[r]
          || (w in s.workers && s.workers[w].kind == Handler(r) && !s.workers[w].phase.Done?))
  }

  /** Prices move only with an event, and by a worker that holds the lock of that price. */
  ghost predicate EventsGrow(s: State, s': State, w: WorkerId) {
    || (s'.events == s.events && s'.values == s.values)
    || (&& CanAppend(s, w)
        && s'.events == s.events + [AppendedEvent(s, w)]
        && s'.values == Applied(s.values, s.workers[w].key.tenant, s.workers[w].action))
  }

  ghost predicate TablesGrow(s: State, s': State, w: WorkerId) {
    && KeysGrow(s.keys, s'.keys)
    && (s'.decisions == s.decisions || DecisionsGrow(s, s', w))
    && ApprovalsGrow(s.approvals, s'.approvals)
    && EventsGrow(s, s', w)
    && s.log <= s'.log
    && (s'.requests == s.requests || RequestsGrow(s, s', w))
    && s'.initial == s.initial
  }

  ghost predicate LocksKept(s: State, s': State, w: WorkerId) {
    && (forall r :: r in s.locks && s.locks[r] != w ==> r in s'.locks && s'.locks[r] == s.locks[r])
    && (forall r :: r in s'.locks && s'.locks[r] != w ==> r in s.locks && s'.locks[r] == s.locks[r])
  }

  ghost predicate Grows(s: State, s': State, w: WorkerId) {
    && (forall x :: x in s.workers && x != w ==> x in s'.workers && s'.workers[x] == s.workers[x])
    && (forall x :: x in s'.workers && x != w ==> x in s.workers)
    && (w in s.workers ==> w in s'.workers && WorkerGrows(s.workers[w], s'.workers[w]))
    && (w !in s.workers && w in s'.workers && s'.workers[w].kind.Handler? ==>
          CanDeliver(s, w, Message(s'.workers[w].key.tenant, s'.workers[w].kind.request)))
    && TablesGrow(s, s', w)
    && LocksKept(s, s', w)
  }

  lemma EventsStay(before: seq<AgentEvent>, after: seq<AgentEvent>, x: WorkerId)
    requires before <= after && HasEvent(before, x)
    ensures HasEvent(after, x)
  {
    var i :| 0 <= i < |before| && before[i].worker == x;
    assert after[i].worker == x;
  }

  /** Two workers inside their locks never share a price. */
  lemma PriceStays(s: State, s': State, w: WorkerId, x: WorkerId)
    requires WorkersOk(s) && Grows(s, s', w)
    requires x in s.workers && x != w && UnderLock(s.workers[x].phase)
    ensures CurrentValue(s'.values, s.workers[x].key.tenant, s.workers[x].action)
         == CurrentValue(s.values, s.workers[x].key.tenant, s.workers[x].action)
  {
    var kx := s.workers[x];
    assert WorkerOk(s, x, kx);
    if s'.values != s.values {
      assert WorkerOk(s, w, s.workers[w]);
      assert Lock(kx) != Lock(s.workers[w]);
    }
  }

  lemma OtherWorkerKeeps(s: State, s': State, w: WorkerId, x: WorkerId)
    requires WorkersOk(s) && Grows(s, s', w)
    requires x in s.workers && x != w
    ensures WorkerOk(s', x, s.workers[x])
  {
    assert WorkerOk(s, x, s.workers[x]);
    OtherOwnsStill(s, s', w, x);
    OtherPhaseStays(s, s', w, x);
    OtherUsesStill(s, s', w, x);
    hide Grows, WorkersOk, OwnershipOk, PhaseOk, DecisionUseOk;
  }

  lemma OtherOwnsStill(s: State, s': State, w: WorkerId, x: WorkerId)
    requires Grows(s, s', w) && x in s.workers && x != w && OwnershipOk(s, x, s.workers[x])
    ensures OwnershipOk(s', x, s.workers[x])
  {
    var k := s.workers[x];
    if k.kind.Approver? && k.decision.Some? { assert k.kind.approval in s'.approvals; }
  }

  lemma OtherPhaseStays(s: State, s': State, w: WorkerId, x: WorkerId)
    requires Grows(s, s', w) && x in s.workers && x != w && PhaseOk(s, x, s.workers[x])
    ensures PhaseOk(s', x, s.workers[x])
  {
    if s.workers[x].appended { EventsStay(s.events, s'.events, x); }
  }

  lemma OtherUsesStill(s: State, s': State, w: WorkerId, x: WorkerId)
    requires WorkersOk(s) && Grows(s, s', w) && x in s.workers && x != w
    ensures DecisionUseOk(s', x, s.workers[x])
  {
    assert WorkerOk(s, x, s.workers[x]);
    if UnderLock(s.workers[x].phase) { PriceStays(s, s', w, x); }
  }

  lemma DecisionKeeps(s: State, s': State, w: WorkerId, d: DecisionId)
    requires WorkersOk(s) && Grows(s, s', w)
    requires d in s.decisions && DecisionOk(s, s.decisions[d], d)
    ensures DecisionOk(s', s'.decisions[d], d)
  {
    hide KeysGrow, ApprovalsGrow, RequestsGrow, EventsGrow, LocksKept, OwnershipOk;
    var row := s.decisions[d];
    if w in s.workers { assert WorkerOk(s, w, s.workers[w]); }
    if row.executor.Some? { assert WorkerOk(s, row.executor.value, s.workers[row.executor.value]); }
  }

  lemma EventKeeps(s: State, s': State, w: WorkerId, e: AgentEvent)
    requires WorkersOk(s) && Grows(s, s', w)
    requires EventOk(s, e)
    ensures EventOk(s', e)
  {
    assert WorkerOk(s, e.worker, s.workers[e.worker]);
  }

  // ------------------------------------------------ what a step has to account for

  ghost predicate MoverOk(s: State, w: WorkerId) { w in s.workers ==> WorkerOk(s, w, s.workers[w]) }

  ghost predicate NewDecisionsOk(s: State, s': State) {
    forall d :: d in s'.decisions && d !in s.decisions ==> DecisionOk(s', s'.decisions[d], d)
  }

  ghost predicate NewApprovalsOk(s: State, s': State) {
    && (forall r :: r in s'.approvals && r !in s.approvals ==> ApprovalOk(s', s'.approvals[r]))
    && OneRequestEach(s'.approvals)
  }

  ghost predicate NewKeysOk(s: State, s': State) {
    forall key :: key in s'.keys && !(key in s.keys && s'.keys[key] == s.keys[key]) ==> KeyOk(s', key, s'.keys[key])
  }

  ghost predicate OwnLocksOk(s: State, w: WorkerId) { forall r :: r in s.locks && s.locks[r] == w ==> LockOk(s, r, w) }

  ghost predicate NewHistoryOk(s: State, s': State) {
    && (forall i :: |s.events| <= i < |s'.events| ==> EventOk(s', s'.events[i]))
    && OneEventEach(s'.events)
    && (forall i :: |s.log| <= i < |s'.log| ==> LogOk(s', s'.log[i]))
  }

  /** The moving worker, and new or changed rows. */
  ghost predicate NewRowsOk(s: State, s': State, w: WorkerId) {
    && MoverOk(s', w) && NewDecisionsOk(s, s') && NewApprovalsOk(s, s') && NewKeysOk(s, s')
    && OwnLocksOk(s', w) && NewHistoryOk(s, s') && RequestsOk(s')
  }

  /** A table that is as it was has nothing to account for. */
  lemma UnchangedRows(s: State, s': State)
    requires Inv(s)
    ensures s'.decisions.Keys == s.decisions.Keys ==> NewDecisionsOk(s, s')
    ensures s'.approvals == s.approvals ==> NewApprovalsOk(s, s')
    ensures s'.keys == s.keys ==> NewKeysOk(s, s')
    ensures s'.events == s.events && s'.log == s.log ==> NewHistoryOk(s, s')
    ensures s'.requests == s.requests && s'.published == s.published ==> RequestsOk(s')
  {
    hide WorkersOk, DecisionOk, ApprovalOk, KeyOk, EventOk, LogOk, LockOk;
  }

  /** A worker that acquires nothing keeps its lock in order, or has given it up. */
  lemma OwnLocksStay(s: State, s': State, w: WorkerId)
    requires Inv(s) && w in s.workers && w in s'.workers && Lock(s'.workers[w]) == Lock(s.workers[w])
    requires forall r | r in s'.locks && s'.locks[r] == w :: r in s.locks && s.locks[r] == w
    requires AtLock(s.workers[w].phase) && Holds(s', w, s.workers[w]) ==> AtLock(s'.workers[w].phase)
    ensures OwnLocksOk(s', w)
  {
    hide WorkersOk, HistoryOk, RequestsOk, DecisionOk, ApprovalOk, KeyOk;
    forall r | r in s'.locks && s'.locks[r] == w ensures LockOk(s', r, w) { assert LockOk(s, r, s.locks[r]); }
  }

  /** Somebody new holds no lock and has executed nothing. */
  lemma FreshHoldsNothing(s: State, w: WorkerId)
    requires TablesOk(s) && w !in s.workers
    ensures forall r :: r in s.locks ==> s.locks[r] != w
    ensures forall d :: d in s.decisions ==> s.decisions[d].executor != Some(w)
  {
    forall r | r in s.locks ensures s.locks[r] != w { assert LockOk(s, r, s.locks[r]); }
    forall d | d in s.decisions ensures s.decisions[d].executor != Some(w) {
      assert DecisionOk(s, s.decisions[d], d);
    }
  }

  lemma FreshLocksOk(s: State, s': State, w: WorkerId)
    requires Inv(s) && w !in s.workers && s'.locks == s.locks
    ensures OwnLocksOk(s', w)
  {
    FreshHoldsNothing(s, w);
  }

  lemma WorkerIsOk(s: State, w: WorkerId)
    requires Inv(s) && w in s.workers
    ensures WorkerOk(s, w, s.workers[w])
  {
  }

  lemma Assemble(s: State, s': State, w: WorkerId)
    requires Inv(s) && Grows(s, s', w) && NewRowsOk(s, s', w)
    ensures Inv(s')
  {
    forall x | x in s'.workers ensures WorkerOk(s', x, s'.workers[x]) {
      if x != w { OtherWorkerKeeps(s, s', w, x); }
    }
    AssembleTables(s, s', w);
    AssembleHistory(s, s', w);
  }

  lemma AssembleTables(s: State, s': State, w: WorkerId)
    requires Inv(s) && Grows(s, s', w) && NewRowsOk(s, s', w)
    ensures TablesOk(s')
  {
    forall d | d in s'.decisions ensures DecisionOk(s', s'.decisions[d], d) {
      if d in s.decisions { DecisionKeeps(s, s', w, d); }
    }
    forall r | r in s'.approvals ensures ApprovalOk(s', s'.approvals[r]) {
      if r in s.approvals { ApprovalKeeps(s, s', w, s.approvals[r], s'.approvals[r]); }
    }
    AssembleKeys(s, s', w);
  }

  lemma AssembleKeys(s: State, s': State, w: WorkerId)
    requires Inv(s) && Grows(s, s', w) && NewRowsOk(s, s', w)
    ensures forall key :: key in s'.keys ==> KeyOk(s', key, s'.keys[key])
    ensures forall r :: r in s'.locks ==> LockOk(s', r, s'.locks[r])
  {
    forall key | key in s'.keys ensures KeyOk(s', key, s'.keys[key]) {
      if key in s.keys { assert KeyOk(s, key, s.keys[key]); }
    }
    forall r | r in s'.locks ensures LockOk(s', r, s'.locks[r]) {
      if s'.locks[r] != w { assert LockOk(s, r, s.locks[r]); }
    }
  }

  lemma ApprovalKeeps(s: State, s': State, w: WorkerId, a: ApprovalRow, a': ApprovalRow)
    requires Grows(s, s', w) && ApprovalOk(s, a) && ApprovalMoves(a, a')
    ensures ApprovalOk(s', a')
  {
  }

  lemma AssembleHistory(s: State, s': State, w: WorkerId)
    requires Inv(s) && Grows(s, s', w) && NewRowsOk(s, s', w)
    ensures HistoryOk(s')
  {
    hide TablesOk, RequestsOk, MoverOk, NewDecisionsOk, NewApprovalsOk, NewKeysOk, OwnLocksOk;
    forall i | 0 <= i < |s'.events| ensures EventOk(s', s'.events[i]) {
      if i < |s.events| { EventKeeps(s, s', w, s.events[i]); }
    }
    LogKeeps(s, s', w);
  }

  lemma LogKeeps(s: State, s': State, w: WorkerId)
    requires WorkersOk(s) && HistoryOk(s) && Grows(s, s', w) && NewHistoryOk(s, s')
    ensures forall i :: 0 <= i < |s'.log| ==> LogOk(s', s'.log[i])
  {
    hide EventOk, OneEventEach, KeysGrow, DecisionsGrow, ApprovalsGrow, EventsGrow, RequestsGrow, LocksKept;
    forall i | 0 <= i < |s'.log| ensures LogOk(s', s'.log[i]) {
      if i < |s.log| {
        var row := s.log[i];
        assert LogOk(s, row) && s'.log[i] == row;
        if row.executed { assert WorkerOk(s, row.worker, s.workers[row.worker]); }
      }
    }
  }

  lemma SubmitMoves(s: State, w: WorkerId, key: Key, action: Action, request: RowId)
    requires Inv(s) && CanSubmit(s, w, key)
    ensures var s' := AfterSubmit(s, w, key, action, request); Grows(s, s', w) && MoverOk(s', w)
  {
    FreshHoldsNothing(s, w);
  }

  lemma SubmitKeeps(s: State, w: WorkerId, key: Key, action: Action, request: RowId)
    requires Inv(s) && CanSubmit(s, w, key)
    ensures Inv(AfterSubmit(s, w, key, action, request)) && Grows(s, AfterSubmit(s, w, key, action, request), w)
  {
    hide Inv, WorkerOk, Grows, NewDecisionsOk, NewApprovalsOk, NewKeysOk, OwnLocksOk, NewHistoryOk, RequestsOk, MoverOk;
    var s' := AfterSubmit(s, w, key, action, request);
    SubmitMoves(s, w, key, action, request);
    UnchangedRows(s, s');
    FreshLocksOk(s, s', w);
    Assemble(s, s', w);
  }

  lemma InsertRequestMoves(s: State, w: WorkerId)
    requires CanInsertRequest(s, w) && WorkerOk(s, w, s.workers[w])
    ensures var s' := AfterInsertRequest(s, w); Grows(s, s', w) && WorkerOk(s', w, s'.workers[w])
  {
  }

  lemma InsertRequestRows(s: State, w: WorkerId)
    requires Inv(s) && CanInsertRequest(s, w)
    ensures RequestsOk(AfterInsertRequest(s, w))
  {
  }

  lemma InsertRequestKeeps(s: State, w: WorkerId)
    requires Inv(s) && CanInsertRequest(s, w)
    ensures Inv(AfterInsertRequest(s, w)) && Grows(s, AfterInsertRequest(s, w), w)
  {
    hide Inv, WorkerOk, Grows, NewDecisionsOk, NewApprovalsOk, NewKeysOk, OwnLocksOk, NewHistoryOk, RequestsOk;
    var s' := AfterInsertRequest(s, w);
    WorkerIsOk(s, w);
    InsertRequestMoves(s, w);
    UnchangedRows(s, s');
    InsertRequestRows(s, w);
    OwnLocksStay(s, s', w);
    Assemble(s, s', w);
  }

  lemma LoseRaceMoves(s: State, w: WorkerId)
    requires CanLoseRace(s, w) && WorkerOk(s, w, s.workers[w])
    ensures var s' := AfterLoseRace(s, w); Grows(s, s', w) && WorkerOk(s', w, s'.workers[w])
  {
  }

  lemma LoseRaceKeeps(s: State, w: WorkerId)
    requires Inv(s) && CanLoseRace(s, w)
    ensures Inv(AfterLoseRace(s, w)) && Grows(s, AfterLoseRace(s, w), w)
  {
    hide Inv, WorkerOk, Grows, NewDecisionsOk, NewApprovalsOk, NewKeysOk, OwnLocksOk, NewHistoryOk, RequestsOk;
    var s' := AfterLoseRace(s, w);
    WorkerIsOk(s, w);
    LoseRaceMoves(s, w);
    UnchangedRows(s, s');
    OwnLocksStay(s, s', w);
    Assemble(s, s', w);
  }

  lemma PublishMoves(s: State, w: WorkerId)
    requires CanPublish(s, w) && WorkerOk(s, w, s.workers[w])
    ensures var s' := AfterPublish(s, w); Grows(s, s', w) && WorkerOk(s', w, s'.workers[w])
  {
  }

  lemma PublishRows(s: State, w: WorkerId)
    requires Inv(s) && CanPublish(s, w)
    ensures RequestsOk(AfterPublish(s, w))
  {
    assert WorkerOk(s, w, s.workers[w]);
  }

  lemma PublishKeeps(s: State, w: WorkerId)
    requires Inv(s) && CanPublish(s, w)
    ensures Inv(AfterPublish(s, w)) && Grows(s, AfterPublish(s, w), w)
  {
    hide Inv, WorkerOk, Grows, NewDecisionsOk, NewApprovalsOk, NewKeysOk, OwnLocksOk, NewHistoryOk, RequestsOk;
    var s' := AfterPublish(s, w);
    WorkerIsOk(s, w);
    PublishMoves(s, w);
    UnchangedRows(s, s');
    PublishRows(s, w);
    OwnLocksStay(s, s', w);
    Assemble(s, s', w);
  }

  lemma DeliverMoves(s: State, w: WorkerId, m: Message, fingerprint: int)
    requires Inv(s) && CanDeliver(s, w, m)
    ensures var s' := AfterDeliver(s, w, m, fingerprint); Grows(s, s', w) && MoverOk(s', w)
  {
    FreshHoldsNothing(s, w);
  }

  lemma DeliverKeeps(s: State, w: WorkerId, m: Message, fingerprint: int)
    requires Inv(s) && CanDeliver(s, w, m)
    ensures Inv(AfterDeliver(s, w, m, fingerprint)) && Grows(s, AfterDeliver(s, w, m, fingerprint), w)
  {
    hide Inv, WorkerOk, Grows, NewDecisionsOk, NewApprovalsOk, NewKeysOk, OwnLocksOk, NewHistoryOk, RequestsOk, MoverOk;
    var s' := AfterDeliver(s, w, m, fingerprint);
    DeliverMoves(s, w, m, fingerprint);
    UnchangedRows(s, s');
    FreshLocksOk(s, s', w);
    Assemble(s, s', w);
  }

  lemma MarkProcessingGrows(s: State, w: WorkerId, valid: bool)
    requires CanMarkProcessing(s, w)
    ensures Grows(s, AfterMarkProcessing(s, w, valid), w)
  {
  }

  lemma MarkProcessingMoves(s: State, w: WorkerId, valid: bool)
    requires CanMarkProcessing(s, w) && WorkerOk(s, w, s.workers[w])
    ensures var s' := AfterMarkProcessing(s, w, valid); Grows(s, s', w) && WorkerOk(s', w, s'.workers[w])
  {
    MarkProcessingGrows(s, w, valid);
    hide Grows;
  }

  lemma MarkProcessingRows(s: State, w: WorkerId, valid: bool)
    requires Inv(s) && CanMarkProcessing(s, w)
    ensures RequestsOk(AfterMarkProcessing(s, w, valid))
  {
    assert WorkerOk(s, w, s.workers[w]);
  }

  lemma MarkProcessingKeeps(s: State, w: WorkerId, valid: bool)
    requires Inv(s) && CanMarkProcessing(s, w)
    ensures Inv(AfterMarkProcessing(s, w, valid)) && Grows(s, AfterMarkProcessing(s, w, valid), w)
  {
    hide Inv, WorkerOk, Grows, NewDecisionsOk, NewApprovalsOk, NewKeysOk, OwnLocksOk, NewHistoryOk, RequestsOk;
    var s' := AfterMarkProcessing(s, w, valid);
    WorkerIsOk(s, w);
    MarkProcessingMoves(s, w, valid);
    UnchangedRows(s, s');
    MarkProcessingRows(s, w, valid);
    OwnLocksStay(s, s', w);
    Assemble(s, s', w);
  }

  lemma CallMoves(s: State, w: WorkerId, key: Key, fingerprint: int, action: Action)
    requires Inv(s) && CanCall(s, w)
    ensures var s' := AfterCall(s, w, key, fingerprint, action); Grows(s, s', w) && MoverOk(s', w)
  {
    FreshHoldsNothing(s, w);
  }

  lemma CallKeeps(s: State, w: WorkerId, key: Key, fingerprint: int, action: Action)
    requires Inv(s) && CanCall(s, w)
    ensures Inv(AfterCall(s, w, key, fingerprint, action)) && Grows(s, AfterCall(s, w, key, fingerprint, action), w)
  {
    hide Inv, WorkerOk, Grows, NewDecisionsOk, NewApprovalsOk, NewKeysOk, OwnLocksOk, NewHistoryOk, RequestsOk, MoverOk;
    var s' := AfterCall(s, w, key, fingerprint, action);
    CallMoves(s, w, key, fingerprint, action);
    UnchangedRows(s, s');
    FreshLocksOk(s, s', w);
    Assemble(s, s', w);
  }

  lemma ClaimMoves(s: State, w: WorkerId, now: int)
    requires CanClaim(s, w) && WorkerOk(s, w, s.workers[w])
    ensures var s' := AfterClaim(s, w, now); Grows(s, s', w) && WorkerOk(s', w, s'.workers[w])
  {
  }

  lemma ClaimRows(s: State, w: WorkerId, now: int)
    requires Inv(s) && CanClaim(s, w)
    ensures NewKeysOk(s, AfterClaim(s, w, now))
  {
    assert WorkerOk(s, w, s.workers[w]);
  }

  lemma ClaimKeeps(s: State, w: WorkerId, now: int)
    requires Inv(s) && CanClaim(s, w)
    ensures Inv(AfterClaim(s, w, now)) && Grows(s, AfterClaim(s, w, now), w)
  {
    hide Inv, WorkerOk, Grows, NewDecisionsOk, NewApprovalsOk, NewKeysOk, OwnLocksOk, NewHistoryOk, RequestsOk;
    var s' := AfterClaim(s, w, now);
    WorkerIsOk(s, w);
    ClaimMoves(s, w, now);
    UnchangedRows(s, s');
    ClaimRows(s, w, now);
    OwnLocksStay(s, s', w);
    Assemble(s, s', w);
  }

  lemma ConflictMoves(s: State, w: WorkerId, now: int)
    requires CanConflict(s, w) && WorkerOk(s, w, s.workers[w])
    ensures var s' := AfterConflict(s, w, now); Grows(s, s', w) && WorkerOk(s', w, s'.workers[w])
  {
  }

  lemma ConflictKeeps(s: State, w: WorkerId, now: int)
    requires Inv(s) && CanConflict(s, w)
    ensures Inv(AfterConflict(s, w, now)) && Grows(s, AfterConflict(s, w, now), w)
  {
    hide Inv, WorkerOk, Grows, NewDecisionsOk, NewApprovalsOk, NewKeysOk, OwnLocksOk, NewHistoryOk, RequestsOk;
    var s' := AfterConflict(s, w, now);
    WorkerIsOk(s, w);
    ConflictMoves(s, w, now);
    UnchangedRows(s, s');
    OwnLocksStay(s, s', w);
    Assemble(s, s', w);
  }

  lemma ResolveConflictGrows(s: State, w: WorkerId)
    requires CanResolveConflict(s, w)
    ensures Grows(s, AfterResolveConflict(s, w), w)
  {
  }

  lemma ResolveConflictMoves(s: State, w: WorkerId)
    requires CanResolveConflict(s, w) && WorkerOk(s, w, s.workers[w])
    ensures var s' := AfterResolveConflict(s, w); Grows(s, s', w) && WorkerOk(s', w, s'.workers[w])
  {
    ResolveConflictGrows(s, w);
    hide Grows;
  }

  lemma ResolveConflictRows(s: State, w: WorkerId)
    requires Inv(s) && CanResolveConflict(s, w)
    ensures NewKeysOk(s, AfterResolveConflict(s, w))
  {
    assert WorkerOk(s, w, s.workers[w]);
  }

  lemma ResolveConflictKeeps(s: State, w: WorkerId)
    requires Inv(s) && CanResolveConflict(s, w)
    ensures Inv(AfterResolveConflict(s, w)) && Grows(s, AfterResolveConflict(s, w), w)
  {
    hide Inv, WorkerOk, Grows, NewDecisionsOk, NewApprovalsOk, NewKeysOk, OwnLocksOk, NewHistoryOk, RequestsOk;
    var s' := AfterResolveConflict(s, w);
    WorkerIsOk(s, w);
    ResolveConflictMoves(s, w);
    UnchangedRows(s, s');
    ResolveConflictRows(s, w);
    OwnLocksStay(s, s', w);
    Assemble(s, s', w);
  }

  lemma SettleGrows(s: State, w: WorkerId)
    requires CanSettle(s, w)
    ensures Grows(s, AfterSettle(s, w), w)
  {
  }

  lemma SettleMoves(s: State, w: WorkerId)
    requires CanSettle(s, w) && WorkerOk(s, w, s.workers[w])
    ensures var s' := AfterSettle(s, w); Grows(s, s', w) && WorkerOk(s', w, s'.workers[w])
  {
    SettleGrows(s, w);
    hide Grows;
  }

  lemma SettleRows(s: State, w: WorkerId)
    requires Inv(s) && CanSettle(s, w)
    ensures NewKeysOk(s, AfterSettle(s, w))
  {
    assert WorkerOk(s, w, s.workers[w]);
  }

  lemma SettleKeeps(s: State, w: WorkerId)
    requires Inv(s) && CanSettle(s, w)
    ensures Inv(AfterSettle(s, w)) && Grows(s, AfterSettle(s, w), w)
  {
    hide Inv, WorkerOk, Grows, NewDecisionsOk, NewApprovalsOk, NewKeysOk, OwnLocksOk, NewHistoryOk, RequestsOk;
    var s' := AfterSettle(s, w);
    WorkerIsOk(s, w);
    SettleMoves(s, w);
    UnchangedRows(s, s');
    SettleRows(s, w);
    OwnLocksStay(s, s', w);
    Assemble(s, s', w);
  }

  lemma ReportMoves(s: State, w: WorkerId, transient: bool)
    requires CanReport(s, w) && WorkerOk(s, w, s.workers[w])
    ensures var s' := AfterReport(s, w, transient); Grows(s, s', w) && WorkerOk(s', w, s'.workers[w])
  {
  }

  lemma ReportRows(s: State, w: WorkerId, transient: bool)
    requires Inv(s) && CanReport(s, w)
    ensures RequestsOk(AfterReport(s, w, transient))
  {
    assert WorkerOk(s, w, s.workers[w]);
  }

  lemma ReportKeeps(s: State, w: WorkerId, transient: bool)
    requires Inv(s) && CanReport(s, w)
    ensures Inv(AfterReport(s, w, transient)) && Grows(s, AfterReport(s, w, transient), w)
  {
    hide Inv, WorkerOk, Grows, NewDecisionsOk, NewApprovalsOk, NewKeysOk, OwnLocksOk, NewHistoryOk, RequestsOk;
    var s' := AfterReport(s, w, transient);
    WorkerIsOk(s, w);
    ReportMoves(s, w, transient);
    UnchangedRows(s, s');
    ReportRows(s, w, transient);
    OwnLocksStay(s, s', w);
    Assemble(s, s', w);
  }

  lemma RefuseMoves(s: State, w: WorkerId)
    requires CanRefuse(s, w) && WorkerOk(s, w, s.workers[w])
    ensures var s' := AfterRefuse(s, w); Grows(s, s', w) && WorkerOk(s', w, s'.workers[w])
  {
  }

  lemma RefuseKeeps(s: State, w: WorkerId)
    requires Inv(s) && CanRefuse(s, w)
    ensures Inv(AfterRefuse(s, w)) && Grows(s, AfterRefuse(s, w), w)
  {
    hide Inv, WorkerOk, Grows, NewDecisionsOk, NewApprovalsOk, NewKeysOk, OwnLocksOk, NewHistoryOk, RequestsOk;
    var s' := AfterRefuse(s, w);
    WorkerIsOk(s, w);
    RefuseMoves(s, w);
    UnchangedRows(s, s');
    OwnLocksStay(s, s', w);
    Assemble(s, s', w);
  }

  lemma ProposeGrows(s: State, w: WorkerId, d: DecisionId, confidence: real)
    requires CanPropose(s, w, d, confidence) && WorkerOk(s, w, s.workers[w])
    ensures Grows(s, AfterPropose(s, w, d, confidence), w)
  {
  }

  lemma ProposeMoves(s: State, w: WorkerId, d: DecisionId, confidence: real)
    requires CanPropose(s, w, d, confidence) && WorkerOk(s, w, s.workers[w])
    ensures var s' := AfterPropose(s, w, d, confidence); Grows(s, s', w) && WorkerOk(s', w, s'.workers[w])
  {
    ProposeGrows(s, w, d, confidence);
    hide Grows;
  }

  lemma ProposeRows(s: State, w: WorkerId, d: DecisionId, confidence: real)
    requires Inv(s) && CanPropose(s, w, d, confidence)
    ensures NewDecisionsOk(s, AfterPropose(s, w, d, confidence))
  {
    assert WorkerOk(s, w, s.workers[w]);
  }

  lemma ProposeKeeps(s: State, w: WorkerId, d: DecisionId, confidence: real)
    requires Inv(s) && CanPropose(s, w, d, confidence)
    ensures Inv(AfterPropose(s, w, d, confidence)) && Grows(s, AfterPropose(s, w, d, confidence), w)
  {
    hide Inv, WorkerOk, Grows, NewDecisionsOk, NewApprovalsOk, NewKeysOk, OwnLocksOk, NewHistoryOk, RequestsOk;
    var s' := AfterPropose(s, w, d, confidence);
    WorkerIsOk(s, w);
    ProposeMoves(s, w, d, confidence);
    UnchangedRows(s, s');
    ProposeRows(s, w, d, confidence);
    OwnLocksStay(s, s', w);
    Assemble(s, s', w);
  }

  lemma AcquireGrows(s: State, w: WorkerId)
    requires CanAcquire(s, w)
    ensures Grows(s, AfterAcquire(s, w), w)
  {
  }

  lemma AcquireMoves(s: State, w: WorkerId)
    requires CanAcquire(s, w) && WorkerOk(s, w, s.workers[w])
    ensures var s' := AfterAcquire(s, w); Grows(s, s', w) && WorkerOk(s', w, s'.workers[w])
  {
    AcquireGrows(s, w);
    hide Grows;
  }

  lemma AcquireRows(s: State, w: WorkerId)
    requires Inv(s) && CanAcquire(s, w)
    ensures OwnLocksOk(AfterAcquire(s, w), w)
  {
    assert WorkerOk(s, w, s.workers[w]);
  }

  lemma AcquireKeeps(s: State, w: WorkerId)
    requires Inv(s) && CanAcquire(s, w)
    ensures Inv(AfterAcquire(s, w)) && Grows(s, AfterAcquire(s, w), w)
  {
    hide Inv, WorkerOk, Grows, NewDecisionsOk, NewApprovalsOk, NewKeysOk, OwnLocksOk, NewHistoryOk, RequestsOk;
    var s' := AfterAcquire(s, w);
    WorkerIsOk(s, w);
    AcquireMoves(s, w);
    UnchangedRows(s, s');
    AcquireRows(s, w);
    Assemble(s, s', w);
  }

  lemma TimeOutMoves(s: State, w: WorkerId)
    requires CanTimeOut(s, w) && WorkerOk(s, w, s.workers[w])
    ensures var s' := AfterTimeOut(s, w); Grows(s, s', w) && WorkerOk(s', w, s'.workers[w])
  {
  }

  lemma TimeOutKeeps(s: State, w: WorkerId)
    requires Inv(s) && CanTimeOut(s, w)
    ensures Inv(AfterTimeOut(s, w)) && Grows(s, AfterTimeOut(s, w), w)
  {
    hide Inv, WorkerOk, Grows, NewDecisionsOk, NewApprovalsOk, NewKeysOk, OwnLocksOk, NewHistoryOk, RequestsOk;
    var s' := AfterTimeOut(s, w);
    WorkerIsOk(s, w);
    TimeOutMoves(s, w);
    UnchangedRows(s, s');
    OwnLocksStay(s, s', w);
    Assemble(s, s', w);
  }

  lemma AssessGrows(s: State, w: WorkerId)
    requires CanAssess(s, w)
    ensures Grows(s, AfterAssess(s, w), w)
  {
    var k := s.workers[w];
    VerdictGrows(k, w, s.decisions[k.decision.value].confidence, CurrentValue(s.values, k.key.tenant, k.action));
    hide Verdict, CurrentValue, WorkerGrows;
  }

  lemma VerdictGrows(k: Worker, w: WorkerId, confidence: real, current: Option<real>)
    requires k.phase.Reading?
    ensures WorkerGrows(k, Verdict(k, w, confidence, current))
  {
    hide CriticApproves, ClassifyRisk;
  }

  lemma AssessMoves(s: State, w: WorkerId)
    requires CanAssess(s, w) && WorkerOk(s, w, s.workers[w])
    ensures var s' := AfterAssess(s, w); Grows(s, s', w) && WorkerOk(s', w, s'.workers[w])
  {
    AssessGrows(s, w);
    hide Grows;
  }

  lemma AssessKeeps(s: State, w: WorkerId)
    requires Inv(s) && CanAssess(s, w)
    ensures Inv(AfterAssess(s, w)) && Grows(s, AfterAssess(s, w), w)
  {
    hide Inv, WorkerOk, Grows, NewDecisionsOk, NewApprovalsOk, NewKeysOk, OwnLocksOk, NewHistoryOk, RequestsOk;
    var s' := AfterAssess(s, w);
    WorkerIsOk(s, w);
    AssessMoves(s, w);
    UnchangedRows(s, s');
    OwnLocksStay(s, s', w);
    Assemble(s, s', w);
  }

  lemma OneRequestStays(s: State, w: WorkerId, r: RowId)
    requires OneRequestEach(s.approvals) && CanRequestReview(s, w, r)
    ensures OneRequestEach(AfterRequestReview(s, w, r).approvals)
  {
  }

  lemma RequestReviewMoves(s: State, w: WorkerId, r: RowId)
    requires CanRequestReview(s, w, r) && WorkerOk(s, w, s.workers[w])
    ensures var s' := AfterRequestReview(s, w, r); Grows(s, s', w) && WorkerOk(s', w, s'.workers[w])
  {
  }

  lemma RequestReviewRows(s: State, w: WorkerId, r: RowId)
    requires Inv(s) && CanRequestReview(s, w, r)
    ensures NewApprovalsOk(s, AfterRequestReview(s, w, r))
  {
    assert WorkerOk(s, w, s.workers[w]);
    OneRequestStays(s, w, r);
  }

  lemma RequestReviewKeeps(s: State, w: WorkerId, r: RowId)
    requires Inv(s) && CanRequestReview(s, w, r)
    ensures Inv(AfterRequestReview(s, w, r)) && Grows(s, AfterRequestReview(s, w, r), w)
  {
    hide Inv, WorkerOk, Grows, NewDecisionsOk, NewApprovalsOk, NewKeysOk, OwnLocksOk, NewHistoryOk, RequestsOk;
    var s' := AfterRequestReview(s, w, r);
    WorkerIsOk(s, w);
    RequestReviewMoves(s, w, r);
    UnchangedRows(s, s');
    RequestReviewRows(s, w, r);
    OwnLocksStay(s, s', w);
    Assemble(s, s', w);
  }

  lemma TakeMoves(s: State, w: WorkerId)
    requires CanTake(s, w) && WorkerOk(s, w, s.workers[w])
    ensures var s' := AfterTake(s, w); Grows(s, s', w) && WorkerOk(s', w, s'.workers[w])
  {
  }

  lemma TakeKeeps(s: State, w: WorkerId)
    requires Inv(s) && CanTake(s, w)
    ensures Inv(AfterTake(s, w)) && Grows(s, AfterTake(s, w), w)
  {
    hide Inv, WorkerOk, Grows, NewDecisionsOk, NewApprovalsOk, NewKeysOk, OwnLocksOk, NewHistoryOk, RequestsOk;
    var s' := AfterTake(s, w);
    WorkerIsOk(s, w);
    TakeMoves(s, w);
    UnchangedRows(s, s');
    OwnLocksStay(s, s', w);
    Assemble(s, s', w);
  }

  lemma ObserveMoves(s: State, w: WorkerId)
    requires CanObserve(s, w) && WorkerOk(s, w, s.workers[w])
    ensures var s' := AfterObserve(s, w); Grows(s, s', w) && WorkerOk(s', w, s'.workers[w])
  {
  }

  lemma ObserveKeeps(s: State, w: WorkerId)
    requires Inv(s) && CanObserve(s, w)
    ensures Inv(AfterObserve(s, w)) && Grows(s, AfterObserve(s, w), w)
  {
    hide Inv, WorkerOk, Grows, NewDecisionsOk, NewApprovalsOk, NewKeysOk, OwnLocksOk, NewHistoryOk, RequestsOk;
    var s' := AfterObserve(s, w);
    WorkerIsOk(s, w);
    ObserveMoves(s, w);
    UnchangedRows(s, s');
    OwnLocksStay(s, s', w);
    Assemble(s, s', w);
  }

  lemma EvaluateMoves(s: State, w: WorkerId)
    requires CanEvaluate(s, w) && WorkerOk(s, w, s.workers[w])
    ensures var s' := AfterEvaluate(s, w); Grows(s, s', w) && WorkerOk(s', w, s'.workers[w])
  {
  }

  lemma EvaluateKeeps(s: State, w: WorkerId)
    requires Inv(s) && CanEvaluate(s, w)
    ensures Inv(AfterEvaluate(s, w)) && Grows(s, AfterEvaluate(s, w), w)
  {
    hide Inv, WorkerOk, Grows, NewDecisionsOk, NewApprovalsOk, NewKeysOk, OwnLocksOk, NewHistoryOk, RequestsOk;
    var s' := AfterEvaluate(s, w);
    WorkerIsOk(s, w);
    EvaluateMoves(s, w);
    UnchangedRows(s, s');
    OwnLocksStay(s, s', w);
    Assemble(s, s', w);
  }

  /** The new event is its worker's first. */
  lemma AppendEvents(s: State, w: WorkerId)
    requires Inv(s) && CanAppend(s, w)
    ensures OneEventEach(AfterAppend(s, w).events)
    ensures EventOk(AfterAppend(s, w), AppendedEvent(s, w))
  {
    assert WorkerOk(s, w, s.workers[w]);
    forall i | 0 <= i < |s.events| ensures s.events[i].worker != w {
      assert EventOk(s, s.events[i]);
    }
  }

  lemma AppendGrows(s: State, w: WorkerId)
    requires CanAppend(s, w)
    ensures Grows(s, AfterAppend(s, w), w)
  {
  }

  lemma AppendMoves(s: State, w: WorkerId)
    requires CanAppend(s, w) && WorkerOk(s, w, s.workers[w])
    ensures var s' := AfterAppend(s, w); Grows(s, s', w) && WorkerOk(s', w, s'.workers[w])
  {
    AppendGrows(s, w);
    hide Grows, CanApply, Applied, CurrentValue;
    var s' := AfterAppend(s, w);
    assert s'.events[|s.events|].worker == w;
  }

  lemma AppendRows(s: State, w: WorkerId)
    requires Inv(s) && CanAppend(s, w)
    ensures NewHistoryOk(s, AfterAppend(s, w))
  {
    AppendEvents(s, w);
  }

  lemma AppendKeeps(s: State, w: WorkerId)
    requires Inv(s) && CanAppend(s, w)
    ensures Inv(AfterAppend(s, w)) && Grows(s, AfterAppend(s, w), w)
  {
    hide Inv, WorkerOk, Grows, NewDecisionsOk, NewApprovalsOk, NewKeysOk, OwnLocksOk, NewHistoryOk, RequestsOk;
    var s' := AfterAppend(s, w);
    WorkerIsOk(s, w);
    AppendMoves(s, w);
    UnchangedRows(s, s');
    AppendRows(s, w);
    OwnLocksStay(s, s', w);
    Assemble(s, s', w);
  }

  lemma RecordGrows(s: State, w: WorkerId)
    requires CanRecord(s, w)
    ensures Grows(s, AfterRecord(s, w), w)
  {
  }

  lemma RecordMoves(s: State, w: WorkerId)
    requires CanRecord(s, w) && WorkerOk(s, w, s.workers[w])
    ensures var s' := AfterRecord(s, w); Grows(s, s', w) && WorkerOk(s', w, s'.workers[w])
  {
    RecordGrows(s, w);
    hide Grows;
  }

  lemma RecordLocks(s: State, w: WorkerId)
    requires Inv(s) && CanRecord(s, w)
    ensures OwnLocksOk(AfterRecord(s, w), w)
  {
    WorkerIsOk(s, w);
    assert PhaseOk(s, w, s.workers[w]);
    OwnLocksStay(s, AfterRecord(s, w), w);
  }

  lemma RecordRows(s: State, w: WorkerId)
    requires Inv(s) && CanRecord(s, w)
    ensures NewHistoryOk(s, AfterRecord(s, w))
  {
    assert WorkerOk(s, w, s.workers[w]);
  }

  lemma RecordKeeps(s: State, w: WorkerId)
    requires Inv(s) && CanRecord(s, w)
    ensures Inv(AfterRecord(s, w)) && Grows(s, AfterRecord(s, w), w)
  {
    hide Inv, WorkerOk, Grows, NewDecisionsOk, NewApprovalsOk, NewKeysOk, OwnLocksOk, NewHistoryOk, RequestsOk;
    var s' := AfterRecord(s, w);
    WorkerIsOk(s, w);
    RecordMoves(s, w);
    UnchangedRows(s, s');
    RecordRows(s, w);
    RecordLocks(s, w);
    Assemble(s, s', w);
  }

  lemma ReleaseGrows(s: State, w: WorkerId)
    requires CanRelease(s, w)
    ensures Grows(s, AfterRelease(s, w), w)
  {
  }

  lemma ReleaseMoves(s: State, w: WorkerId)
    requires CanRelease(s, w) && WorkerOk(s, w, s.workers[w])
    ensures var s' := AfterRelease(s, w); Grows(s, s', w) && WorkerOk(s', w, s'.workers[w])
  {
    ReleaseGrows(s, w);
    hide Grows;
  }

  lemma ReleaseKeeps(s: State, w: WorkerId)
    requires Inv(s) && CanRelease(s, w)
    ensures Inv(AfterRelease(s, w)) && Grows(s, AfterRelease(s, w), w)
  {
    hide Inv, WorkerOk, Grows, NewDecisionsOk, NewApprovalsOk, NewKeysOk, OwnLocksOk, NewHistoryOk, RequestsOk;
    var s' := AfterRelease(s, w);
    WorkerIsOk(s, w);
    ReleaseMoves(s, w);
    UnchangedRows(s, s');
    OwnLocksStay(s, s', w);
    Assemble(s, s', w);
  }

  lemma RaiseGrows(s: State, w: WorkerId)
    requires CanRaise(s, w)
    ensures Grows(s, AfterRaise(s, w), w)
  {
  }

  lemma RaiseMoves(s: State, w: WorkerId)
    requires CanRaise(s, w) && WorkerOk(s, w, s.workers[w])
    ensures var s' := AfterRaise(s, w); Grows(s, s', w) && WorkerOk(s', w, s'.workers[w])
  {
    RaiseGrows(s, w);
    hide Grows;
  }

  lemma RaiseKeeps(s: State, w: WorkerId)
    requires Inv(s) && CanRaise(s, w)
    ensures Inv(AfterRaise(s, w)) && Grows(s, AfterRaise(s, w), w)
  {
    hide Inv, WorkerOk, Grows, NewDecisionsOk, NewApprovalsOk, NewKeysOk, OwnLocksOk, NewHistoryOk, RequestsOk;
    var s' := AfterRaise(s, w);
    WorkerIsOk(s, w);
    RaiseMoves(s, w);
    UnchangedRows(s, s');
    OwnLocksStay(s, s', w);
    Assemble(s, s', w);
  }

  lemma CrashMoves(s: State, w: WorkerId)
    requires CanCrash(s, w) && WorkerOk(s, w, s.workers[w])
    ensures var s' := AfterCrash(s, w); Grows(s, s', w) && WorkerOk(s', w, s'.workers[w])
  {
  }

  lemma CrashKeeps(s: State, w: WorkerId)
    requires Inv(s) && CanCrash(s, w)
    ensures Inv(AfterCrash(s, w)) && Grows(s, AfterCrash(s, w), w)
  {
    hide Inv, WorkerOk, Grows, NewDecisionsOk, NewApprovalsOk, NewKeysOk, OwnLocksOk, NewHistoryOk, RequestsOk;
    var s' := AfterCrash(s, w);
    WorkerIsOk(s, w);
    CrashMoves(s, w);
    UnchangedRows(s, s');
    OwnLocksStay(s, s', w);
    Assemble(s, s', w);
  }

  lemma ExecuteApprovedGrows(s: State, w: WorkerId, tenant: int, r: RowId)
    requires CanExecuteApproved(s, w, tenant, r)
    ensures Grows(s, AfterExecuteApproved(s, w, tenant, r), w)
  {
  }

  lemma ExecuteApprovedMoves(s: State, w: WorkerId, tenant: int, r: RowId)
    requires Inv(s) && CanExecuteApproved(s, w, tenant, r)
    ensures var s' := AfterExecuteApproved(s, w, tenant, r); Grows(s, s', w) && MoverOk(s', w)
  {
    ExecuteApprovedGrows(s, w, tenant, r);
    FreshHoldsNothing(s, w);
    hide Grows, WorkersOk, HistoryOk, RequestsOk;
  }

  lemma ExecuteApprovedKeeps(s: State, w: WorkerId, tenant: int, r: RowId)
    requires Inv(s) && CanExecuteApproved(s, w, tenant, r)
    ensures Inv(AfterExecuteApproved(s, w, tenant, r)) && Grows(s, AfterExecuteApproved(s, w, tenant, r), w)
  {
    hide Inv, WorkerOk, Grows, NewDecisionsOk, NewApprovalsOk, NewKeysOk, OwnLocksOk, NewHistoryOk, RequestsOk, MoverOk;
    var s' := AfterExecuteApproved(s, w, tenant, r);
    ExecuteApprovedMoves(s, w, tenant, r);
    UnchangedRows(s, s');
    FreshLocksOk(s, s', w);
    Assemble(s, s', w);
  }

  lemma ResolveMoves(s: State, r: RowId, approve: bool, w: WorkerId)
    requires CanResolve(s, r) && (w in s.workers ==> WorkerOk(s, w, s.workers[w]))
    ensures var s' := AfterResolve(s, r, approve);
            Grows(s, s', w) && (w in s.workers ==> WorkerOk(s', w, s.workers[w]))
  {
  }

  /** A reviewer is no worker: any worker may stand in as the one that moved. */
  lemma ResolveKeeps(s: State, r: RowId, approve: bool)
    requires Inv(s) && CanResolve(s, r)
    ensures Inv(AfterResolve(s, r, approve)) && Grows(s, AfterResolve(s, r, approve), 0)
  {
    var s' := AfterResolve(s, r, approve);
    ResolveMoves(s, r, approve, 0);
    forall l | l in s'.locks && s'.locks[l] == 0 ensures LockOk(s', l, 0) {
      assert LockOk(s, l, s.locks[l]);
    }
    assert NewRowsOk(s, s', 0);
    Assemble(s, s', 0);
  }

  function Mover(move: Label): WorkerId { if move.Resolve? then 0 else move.w }

  ghost predicate Sound(s: State, s': State, w: WorkerId) { Inv(s') && (s' == s || Grows(s, s', w)) }

  lemma IntakeKeeps(s: State, move: Label)
    requires Inv(s) && IsIntake(move)
    ensures Sound(s, Step(s, move), Mover(move))
  {
    hide Inv, StepBookkeeping, StepDeciding, StepExecuting, Grows;
    match move
    case Submit(w, key, action, r) => if CanSubmit(s, w, key) { SubmitKeeps(s, w, key, action, r); }
    case InsertRequest(w) => if CanInsertRequest(s, w) { InsertRequestKeeps(s, w); }
    case LoseRace(w) => if CanLoseRace(s, w) { LoseRaceKeeps(s, w); }
    case Publish(w) => if CanPublish(s, w) { PublishKeeps(s, w); }
    case Deliver(w, m, fingerprint) => if CanDeliver(s, w, m) { DeliverKeeps(s, w, m, fingerprint); }
    case MarkProcessing(w, valid) => if CanMarkProcessing(s, w) { MarkProcessingKeeps(s, w, valid); }
    case Call(w, key, fingerprint, action) => if CanCall(s, w) { CallKeeps(s, w, key, fingerprint, action); }
    case Report(w, transient) => if CanReport(s, w) { ReportKeeps(s, w, transient); }
  }

  lemma BookkeepingKeeps(s: State, move: Label)
    requires Inv(s) && IsBookkeeping(move)
    ensures Sound(s, Step(s, move), Mover(move))
  {
    hide Inv, StepIntake, StepDeciding, StepExecuting, Grows;
    match move
    case Claim(w, now) => if CanClaim(s, w) { ClaimKeeps(s, w, now); }
    case Conflict(w, now) => if CanConflict(s, w) { ConflictKeeps(s, w, now); }
    case ResolveConflict(w) => if CanResolveConflict(s, w) { ResolveConflictKeeps(s, w); }
    case Settle(w) => if CanSettle(s, w) { SettleKeeps(s, w); }
    case Resolve(r, approve) => if CanResolve(s, r) { ResolveKeeps(s, r, approve); }
  }

  lemma DecidingKeeps(s: State, move: Label)
    requires Inv(s) && IsDeciding(move)
    ensures Sound(s, Step(s, move), Mover(move))
  {
    hide Inv, StepIntake, StepBookkeeping, StepExecuting, Grows;
    match move
    case Refuse(w) => if CanRefuse(s, w) { RefuseKeeps(s, w); }
    case Propose(w, d, c) => if CanPropose(s, w, d, c) { ProposeKeeps(s, w, d, c); }
    case Acquire(w) => if CanAcquire(s, w) { AcquireKeeps(s, w); }
    case TimeOut(w) => if CanTimeOut(s, w) { TimeOutKeeps(s, w); }
    case Assess(w) => if CanAssess(s, w) { AssessKeeps(s, w); }
    case RequestReview(w, r) => if CanRequestReview(s, w, r) { RequestReviewKeeps(s, w, r); }
    case ExecuteApproved(w, tenant, r) =>
      if CanExecuteApproved(s, w, tenant, r) { ExecuteApprovedKeeps(s, w, tenant, r); }
  }

  lemma ExecutingKeeps(s: State, move: Label)
    requires Inv(s) && IsExecuting(move)
    ensures Sound(s, Step(s, move), Mover(move))
  {
    hide Inv, StepIntake, StepBookkeeping, StepDeciding, Grows;
    match move
    case Take(w) => if CanTake(s, w) { TakeKeeps(s, w); }
    case Observe(w) => if CanObserve(s, w) { ObserveKeeps(s, w); }
    case Evaluate(w) => if CanEvaluate(s, w) { EvaluateKeeps(s, w); }
    case Append(w) => if CanAppend(s, w) { AppendKeeps(s, w); }
    case Record(w) => if CanRecord(s, w) { RecordKeeps(s, w); }
    case Release(w) => if CanRelease(s, w) { ReleaseKeeps(s, w); }
    case Raise(w) => if CanRaise(s, w) { RaiseKeeps(s, w); }
    case Crash(w) => if CanCrash(s, w) { CrashKeeps(s, w); }
  }

  lemma StepKeeps(s: State, move: Label)
    requires Inv(s)
    ensures Sound(s, Step(s, move), Mover(move))
  {
    hide Inv, Step, Sound;
    if IsIntake(move) {
      IntakeKeeps(s, move);
    } else if IsBookkeeping(move) {
      BookkeepingKeeps(s, move);
    } else if IsDeciding(move) {
      DecidingKeeps(s, move);
    } else {
      ExecutingKeeps(s, move);
    }
  }

  /** Every reachable state satisfies the invariant. */
  lemma {:induction false} RunKeeps(s: State, schedule: seq<Label>)
    requires Inv(s)
    ensures Inv(Run(s, schedule))
    decreases |schedule|
  {
    if schedule != [] {
      RunKeeps(s, schedule[..|schedule| - 1]);
      StepKeeps(Run(s, schedule[..|schedule| - 1]), schedule[|schedule| - 1]);
    }
  }
}
