/**
  The tool framework, the idempotency registry, the approval workflow, the queue handler and
  the submit endpoint as they run: methods that write the shared tables one transaction at a
  time, while everyone else does anything between two of them. Every such execution is a
  schedule of the protocol's state machine, so all that holds of its runs holds here.
 */
module ToolFramework {
  import opened Wrappers
  import opened Policy
  import opened Protocol
  import opened ProtocolInvariant
  import opened ProtocolTheorems
  import opened ProtocolHistory
  import opened ProtocolProgress
  import opened ProtocolRequests
  import opened ProtocolAudit
  import opened ProtocolReplays
  import Pricing

  /**
    What one call meets and cannot choose: what others do before its n-th transaction, the
    transaction at which an exception strikes it, and the figures and ids it is given.
   */
  datatype Circumstances = Circumstances(
    others: nat -> seq<Label>,
    fault: nat,
    confidence: real,
    decision: DecisionId,
    approval: RowId,
    now: int)

  /** A move of somebody else. */
  predicate Foreign(w: WorkerId, move: Label) { move.Resolve? || move.w != w }

  predicate AllForeign(w: WorkerId, moves: seq<Label>) { forall i | 0 <= i < |moves| :: Foreign(w, moves[i]) }

  ghost predicate Fair(w: WorkerId, luck: Circumstances) { forall n: nat :: AllForeign(w, luck.others(n)) }

  /** What nobody else can take from a worker: its own record and the locks it holds. */
  predicate KeepsOwn(s: State, t: State, w: WorkerId) {
    && w in s.workers && w in t.workers && t.workers[w] == s.workers[w]
    && (forall r | r in s.locks && s.locks[r] == w :: r in t.locks && t.locks[r] == w)
  }

  lemma GrowsKeepsOwn(s: State, t: State, mover: WorkerId, w: WorkerId)
    requires (t == s || Grows(s, t, mover)) && w != mover && w in s.workers
    ensures KeepsOwn(s, t, w)
  {
  }

  lemma ResolveKeepsOwn(s: State, r: RowId, approve: bool, w: WorkerId)
    requires w in s.workers
    ensures KeepsOwn(s, Step(s, Resolve(r, approve)), w)
  {
  }

  lemma ForeignKeepsOwn(s: State, w: WorkerId, move: Label)
    requires Inv(s) && w in s.workers && Foreign(w, move)
    ensures Inv(Step(s, move)) && KeepsOwn(s, Step(s, move), w)
  {
    StepKeeps(s, move);
    hide Step, Inv, Grows, KeepsOwn;
    if move.Resolve? {
      ResolveKeepsOwn(s, move.approval, move.approve, w);
    } else {
      GrowsKeepsOwn(s, Step(s, move), move.w, w);
    }
  }

  lemma {:induction false} ForeignersKeepOwn(s: State, w: WorkerId, moves: seq<Label>)
    requires Inv(s) && w in s.workers && AllForeign(w, moves)
    ensures Inv(Run(s, moves)) && KeepsOwn(s, Run(s, moves), w)
    decreases |moves|
  {
    hide Step, Inv, Foreign;
    if moves != [] {
      var fewer := moves[..|moves| - 1];
      assert Foreign(w, moves[|moves| - 1]);
      assert forall i | 0 <= i < |fewer| :: Foreign(w, fewer[i]) by {
        forall i | 0 <= i < |fewer| ensures Foreign(w, fewer[i]) { assert fewer[i] == moves[i]; }
      }
      ForeignersKeepOwn(s, w, fewer);
      ForeignKeepsOwn(Run(s, fewer), w, moves[|moves| - 1]);
    }
  }

  lemma {:induction false} RunKeepsInitial(s: State, moves: seq<Label>)
    requires Inv(s)
    ensures Run(s, moves).initial == s.initial
    decreases |moves|
  {
    if moves != [] {
      var fewer := moves[..|moves| - 1];
      RunKeepsInitial(s, fewer);
      RunKeeps(s, fewer);
      StepKeeps(Run(s, fewer), moves[|moves| - 1]);
      hide Inv, Step;
    }
  }

  /** A worker that an exception has hit. */
  function Interruption(k: Worker): Worker {
    k.(phase := if k.kind.Approver? then Done else Settling, outcome := Raised)
  }

  lemma ReadingCanAssess(prices: map<Slot, real>, trace: seq<Label>, s: State, w: WorkerId)
    requires LedTo(prices, trace, s) && w in s.workers && s.workers[w].phase.Reading?
    ensures CanAssess(s, w) && Holds(s, w, s.workers[w])
  {
    assert WorkerOk(s, w, s.workers[w]);
  }

  lemma WaiterHoldsNothing(prices: map<Slot, real>, trace: seq<Label>, s: State, w: WorkerId)
    requires LedTo(prices, trace, s) && w in s.workers && s.workers[w].phase.Locking?
    ensures !Holds(s, w, s.workers[w])
  {
    var r := Lock(s.workers[w]);
    if r in s.locks { assert LockOk(s, r, s.locks[r]); }
  }

  // ---------------------------------------------------------------- why a call answers what it answers

  /** `gate` is a moment within the part of the schedule made after `from`, just before a move. */
  predicate Within(from: seq<Label>, gate: seq<Label>, trace: seq<Label>) { from <= gate && gate < trace }

  /** A check of the code fails for the transaction this worker is at. */
  predicate CannotGoOn(s: State, w: WorkerId, luck: Circumstances)
    requires w in s.workers
  {
    var k := s.workers[w];
    match k.phase
    case Proposing => luck.decision in s.decisions || !(0.0 <= luck.confidence <= 1.0)
    case Locking => k.kind.Approver? && Lock(k) in s.locks
    case Requesting =>
      k.decision.None? || (luck.approval in s.approvals && !HasRequest(s, k.decision.value))
    case Taking =>
      k.decision.None? || k.decision.value !in s.decisions
      || !s.decisions[k.decision.value].cleared || !s.decisions[k.decision.value].status.Simulated?
    case Evaluating =>
      k.decision.None? || k.decision.value !in s.decisions || !s.decisions[k.decision.value].status.Executed?
    case Appending => k.decision.None? || !Applicable(s.values, k.key.tenant, k.action)
    case _ => false
  }

  /** The checks that can fail on the proposing path: ids already taken, a bad figure, a price no column holds. */
  predicate Refused(s: State, w: WorkerId, luck: Circumstances)
    requires w in s.workers
  {
    var k := s.workers[w];
    match k.phase
    case Proposing => luck.decision in s.decisions || !(0.0 <= luck.confidence <= 1.0)
    case Requesting => luck.approval in s.approvals
    case Appending => Overflows(k)
    case _ => false
  }

  /** No other worker can make a check of the proposing path fail. */
  lemma OnlyRefusalsStop(s: State, w: WorkerId, luck: Circumstances)
    requires Inv(s) && w in s.workers && !s.workers[w].kind.Approver? && CannotGoOn(s, w, luck)
    ensures Refused(s, w, luck)
  {
    var k := s.workers[w];
    assert WorkerOk(s, w, k);
    hide CanApply, Applicable;
    match k.phase
    case Taking => ProposerCanTake(s, w);
    case Appending =>
      ProposerCanAppend(s, w);
      ApplicableIff(s.values, k.key.tenant, k.action);
    case _ =>
  }

  /** An exception ends a step of this worker: one from outside, up to its n-th transaction, or a failed check. */
  predicate Stops(s: State, move: Label, w: WorkerId, kind: Kind, luck: Circumstances, n: nat) {
    && move == Raise(w) && w in s.workers && s.workers[w].kind == kind
    && (luck.fault <= n || CannotGoOn(s, w, luck))
  }

  ghost predicate Stopped(prices: map<Slot, real>, from: seq<Label>, gate: seq<Label>, trace: seq<Label>,
                          w: WorkerId, kind: Kind, luck: Circumstances, n: nat)
  {
    Within(from, gate, trace) && Stops(Reach(prices, gate), trace[|gate|], w, kind, luck, n)
  }

  /** What critic and classifier together decide. */
  function GateOutcome(action: Action, confidence: real, current: Option<real>): (o: Outcome)
    ensures o.BlockedByCritic? || o.PendingApproval? || o.DidExecute?
  {
    if !CriticApproves(action, current) then BlockedByCritic
    else if ClassifyRisk(action, Number(confidence), current).RequiresApproval() then PendingApproval
    else DidExecute
  }

  /** The last index at which an exception can strike one call. */
  const LAST_STEP := 10

  /** This transaction, made in this state, settles the answer of a call, and these are its reasons. */
  predicate Settles(s: State, move: Label, w: WorkerId, k: Worker, luck: Circumstances, outcome: Outcome) {
    var cleared := luck.confidence >= CONFIDENCE_THRESHOLD;
    match outcome
    case UnsupportedAction => move == Refuse(w) && IsMenuAdd(k.action)
    case HeldLowConfidence =>
      move == Propose(w, luck.decision, luck.confidence) && !IsMenuAdd(k.action) && !cleared
    case ConcurrentChange =>
      move == TimeOut(w) && !IsMenuAdd(k.action) && cleared && Lock(k) in s.locks && !Holds(s, w, k)
    case Raised =>
      move == Raise(w) && w in s.workers && (luck.fault <= LAST_STEP || Refused(s, w, luck))
    case _ =>
      && move == Assess(w) && !IsMenuAdd(k.action) && cleared && Holds(s, w, k)
      && outcome == GateOutcome(k.action, luck.confidence, CurrentValue(s.values, k.key.tenant, k.action))
  }

  /**
    The answer of `execute_tool_call` is the one its circumstances call for; `gate` is the
    schedule up to the transaction that settled it.
   */
  ghost predicate Justified(prices: map<Slot, real>, from: seq<Label>, gate: seq<Label>, trace: seq<Label>,
                            w: WorkerId, k: Worker, luck: Circumstances, outcome: Outcome)
  {
    Within(from, gate, trace) && Settles(Reach(prices, gate), trace[|gate|], w, k, luck, outcome)
  }

  lemma SettledHere(prices: map<Slot, real>, from: seq<Label>, here: seq<Label>, s: State, move: Label,
                    w: WorkerId, k: Worker, luck: Circumstances, outcome: Outcome)
    requires s == Reach(prices, here) && from <= here && Settles(s, move, w, k, luck, outcome)
    ensures Justified(prices, from, here, here + [move], w, k, luck, outcome)
  {
    hide Settles, Reach;
  }

  predicate SameRequest(k: Worker, k': Worker) { k'.kind == k.kind && k'.key == k.key && k'.action == k.action }

  lemma JustifiedWithin(prices: map<Slot, real>, from: seq<Label>, from': seq<Label>, gate: seq<Label>,
                        trace: seq<Label>, trace': seq<Label>,
                        w: WorkerId, k: Worker, k': Worker, luck: Circumstances, outcome: Outcome)
    requires Justified(prices, from', gate, trace, w, k, luck, outcome)
    requires from <= from' && trace <= trace' && SameRequest(k, k')
    ensures Justified(prices, from, gate, trace', w, k', luck, outcome)
  {
    hide Reach, Refused, CriticApproves, ClassifyRisk, CurrentValue;
  }

  lemma StoppedWithin(prices: map<Slot, real>, from: seq<Label>, from': seq<Label>, gate: seq<Label>,
                      trace: seq<Label>, w: WorkerId, kind: Kind, luck: Circumstances, n: nat, n': nat)
    requires Stopped(prices, from', gate, trace, w, kind, luck, n) && from <= from' && n <= n'
    ensures Stopped(prices, from, gate, trace, w, kind, luck, n')
  {
    hide Reach, CannotGoOn;
  }

  /** A proposing call that was stopped answers "raised", and rightly so. */
  lemma StoppedIsJustified(prices: map<Slot, real>, from: seq<Label>, from': seq<Label>, gate: seq<Label>,
                           trace: seq<Label>, w: WorkerId, k: Worker, luck: Circumstances, n: nat)
    requires Stopped(prices, from', gate, trace, w, k.kind, luck, n) && from <= from' && n <= LAST_STEP
    requires !k.kind.Approver?
    ensures Justified(prices, from, gate, trace, w, k, luck, Raised)
  {
    Reachable(prices, gate);
    hide Inv, Reach, CannotGoOn, Refused;
    if luck.fault > n { OnlyRefusalsStop(Reach(prices, gate), w, luck); }
  }

  /**
    What a call with a key answers: its own result where its insert went in, else what the row
    it found calls for. `opening` is the schedule up to the insert or the read.
   */
  ghost predicate Resolved(prices: map<Slot, real>, from: seq<Label>, opening: seq<Label>, gate: seq<Label>,
                           trace: seq<Label>, w: WorkerId, k: Worker, luck: Circumstances, outcome: Outcome)
  {
    var s := Reach(prices, opening);
    if k.key !in s.keys then
      && Within(from, opening, trace) && trace[|opening|] == Claim(w, luck.now)
      && Justified(prices, opening, gate, trace, w, k, luck, outcome)
    else
      && Within(from, opening, trace) && trace[|opening|] == Conflict(w, luck.now)
      && outcome == ConflictOutcome(k.fingerprint, s.keys[k.key], IsStale(s.keys[k.key], luck.now))
  }

  lemma OpensWithin(prices: map<Slot, real>, from: seq<Label>, opening: seq<Label>, gate: seq<Label>,
                    trace: seq<Label>, w: WorkerId, k: Worker, luck: Circumstances, outcome: Outcome)
    requires Resolved(prices, from, opening, gate, trace, w, k, luck, outcome)
    ensures from <= opening < trace
  {
    hide Reach, Justified;
  }

  lemma ResolvedWithin(prices: map<Slot, real>, from: seq<Label>, from': seq<Label>, opening: seq<Label>,
                       gate: seq<Label>, trace: seq<Label>, trace': seq<Label>,
                       w: WorkerId, k: Worker, k': Worker, luck: Circumstances, outcome: Outcome)
    requires Resolved(prices, from', opening, gate, trace, w, k, luck, outcome)
    requires from <= from' && trace <= trace' && SameRequest(k, k') && k'.fingerprint == k.fingerprint
    ensures Resolved(prices, from, opening, gate, trace', w, k', luck, outcome)
  {
    hide Reach, Justified;
    if k.key !in Reach(prices, opening).keys {
      JustifiedWithin(prices, opening, opening, gate, trace, trace', w, k, k', luck, outcome);
    }
  }

  lemma KeptRecord(s: State, t: State, w: WorkerId)
    requires KeepsOwn(s, t, w)
    ensures w in s.workers && w in t.workers && t.workers[w] == s.workers[w]
  {
  }

  function Changed(k: Worker, w: WorkerId): Worker {
    k.(phase := if k.kind.Approver? then Releasing else Recording(ExecutedRow(k, w)), appended := true,
       outcome := DidExecute)
  }

  /** What a call is set on once the gates have spoken. */
  function Planned(k: Worker): Outcome {
    if k.phase.Recording? then k.outcome else if k.phase.Requesting? then PendingApproval else DidExecute
  }

  lemma VerdictPlans(k: Worker, w: WorkerId, confidence: real, current: Option<real>)
    requires k.phase.Reading?
    ensures var k' := Verdict(k, w, confidence, current);
            && Planned(k') == GateOutcome(k.action, confidence, current)
            && SameRequest(k, k') && k'.decision == k.decision && k'.fingerprint == k.fingerprint
            && (k'.phase.Recording? || k'.phase.Requesting? || k'.phase.Taking?)
  {
    hide CriticApproves, ClassifyRisk;
  }

  /** A call that answers "executed" has exactly one event behind its decision. */
  lemma ExecutedOnce(prices: map<Slot, real>, trace: seq<Label>, s: State, w: WorkerId)
    requires LedTo(prices, trace, s) && w in s.workers && (s.workers[w].outcome.DidExecute? || s.workers[w].appended)
    ensures s.workers[w].decision.Some? && EventsFor(s.events, s.workers[w].decision.value) == 1
    ensures exists e | e in s.events ::
              e.decision == s.workers[w].decision.value && e.action == s.workers[w].action
              && e.tenant == s.workers[w].key.tenant
    ensures match s.workers[w].kind
            case Approver(r) => r in s.approvals && s.approvals[r].decision == s.workers[w].decision.value
            case _ => true
  {
    assert WorkerOk(s, w, s.workers[w]);
    AppendedHasOneEvent(s, w);
    var i :| 0 <= i < |s.events| && s.events[i].worker == w;
    assert EventOk(s, s.events[i]) && s.events[i] in s.events;
  }

  lemma SubmittedRowStays(prices: map<Slot, real>, trace: seq<Label>, s: State, w: WorkerId)
    requires LedTo(prices, trace, s) && w in s.workers && s.workers[w].phase.Publishing? && s.workers[w].kind.Submitter?
    ensures s.workers[w].kind.submitted in s.requests && Asks(s.requests[s.workers[w].kind.submitted], s.workers[w])
  {
    assert WorkerOk(s, w, s.workers[w]);
  }

  lemma SettlingOwns(prices: map<Slot, real>, trace: seq<Label>, s: State, w: WorkerId)
    requires LedTo(prices, trace, s) && w in s.workers && s.workers[w].phase.Settling? && !s.workers[w].kind.Approver?
    ensures s.workers[w].owned && s.workers[w].key in s.keys
  {
    assert WorkerOk(s, w, s.workers[w]);
  }

  lemma HandledRowStays(prices: map<Slot, real>, trace: seq<Label>, s: State, w: WorkerId)
    requires LedTo(prices, trace, s) && w in s.workers && s.workers[w].kind.Handler?
    ensures s.workers[w].kind.request in s.requests
  {
    HandlerHasTheKey(s, w, s.workers[w].kind.request);
  }

  lemma AnswerIsLogged(prices: map<Slot, real>, trace: seq<Label>, s: State, w: WorkerId)
    requires LedTo(prices, trace, s) && w in s.workers && s.workers[w].phase.Settling? && !s.workers[w].kind.Approver?
    ensures RowOf(s.workers[w], w).Some? ==> RowOf(s.workers[w], w).value in s.log
  {
    AnswersAreLogged(prices, trace);
    assert Audited(s, w);
  }

  /** The schedule has led to this state. */
  ghost predicate LedTo(prices: map<Slot, real>, trace: seq<Label>, s: State) {
    s == Reach(prices, trace) && Inv(s)
  }

  lemma OneMore(prices: map<Slot, real>, trace: seq<Label>, s: State, move: Label)
    requires LedTo(prices, trace, s)
    ensures LedTo(prices, trace + [move], Step(s, move))
  {
    hide Inv, Step;
    assert (trace + [move])[..|trace|] == trace;
    Reachable(prices, trace + [move]);
  }

  function AsOutcome(decided: Pricing.Outcome): Outcome {
    match decided
    case HeldLowConfidence => HeldLowConfidence
    case BlockedByCritic => BlockedByCritic
    case PendingApproval => PendingApproval
    case Executed => DidExecute
  }

  /** The gates of the pricing pipeline are the confidence gate and the verdict of the protocol. */
  lemma GatesAgree(s: State, w: WorkerId, d: DecisionId, confidence: real, current: Option<real>)
    requires CanPropose(s, w, d, confidence)
    ensures var k := AfterPropose(s, w, d, confidence).workers[w];
            AsOutcome(Pricing.Decide(k.action, confidence, current))
            == if k.phase.Recording? then k.outcome else Planned(Verdict(k, w, confidence, current))
  {
    hide CriticApproves, ClassifyRisk;
  }

  /**
    A call that neither waits in vain nor is stopped answers what those gates decide for its
    action, its confidence and the value read under its lock.
   */
  lemma AnswersAreDecided(s: State, move: Label, w: WorkerId, k: Worker, luck: Circumstances, outcome: Outcome)
    requires Settles(s, move, w, k, luck, outcome)
    requires outcome.HeldLowConfidence? || outcome.BlockedByCritic? || outcome.PendingApproval? || outcome.DidExecute?
    ensures outcome == AsOutcome(Pricing.Decide(k.action, luck.confidence,
                                                CurrentValue(s.values, k.key.tenant, k.action)))
  {
    hide CriticApproves, ClassifyRisk, CurrentValue;
  }

  // ---------------------------------------------------------------- answers, by the figures

  /** The price in force that an action would move. */
  function InForce(values: map<Slot, real>, tenant: int, action: Action): Option<real> {
    match action
    case PriceChange(item, _) =>
      if MenuPrice(tenant, item) in values then Some(values[MenuPrice(tenant, item)]) else None
    case SupplierSwitch(ingredient, _) =>
      if IngredientPrice(tenant, ingredient) in values then Some(values[IngredientPrice(tenant, ingredient)]) else None
    case _ => None
  }

  /** Within the hard bounds, given the price in force. */
  predicate Bounded(action: Action, current: Option<real>) {
    match action
    case PriceChange(_, p) => Comparable(p, current) && 0.7 * current.value <= p.value <= 1.3 * current.value
    case SupplierSwitch(_, p) => Comparable(p, current) && p.value <= 1.5 * current.value
    case StaffingChange(delta) => FewHeads(delta)
    case MenuSwap(_, _) => true
  }

  /** Small enough, and confident enough, to run without a human. */
  predicate RunsAlone(action: Action, confidence: real, current: Option<real>) {
    && action.PriceChange? && Comparable(action.newPrice, current) && 0.8 <= confidence <= 1.0
    && 0.9 * current.value <= action.newPrice.value <= 1.1 * current.value
  }

  /** The outcome table of `execute_tool_call`, for the prices in force under the lock. */
  predicate ByTheFigures(values: map<Slot, real>, tenant: int, action: Action, confidence: real, outcome: Outcome) {
    var current := InForce(values, tenant, action);
    var add := action.MenuSwap? && action.change == "add";
    match outcome
    case UnsupportedAction => add
    case HeldLowConfidence => !add && confidence < 0.5
    case ConcurrentChange => !add && confidence >= 0.5
    case BlockedByCritic => confidence >= 0.5 && !Bounded(action, current)
    case PendingApproval =>
      !add && confidence >= 0.5 && Bounded(action, current) && !RunsAlone(action, confidence, current)
    case DidExecute => Bounded(action, current) && RunsAlone(action, confidence, current)
    case Raised => true
    case _ => false
  }

  lemma SettledByTheFigures(s: State, move: Label, w: WorkerId, k: Worker, luck: Circumstances, outcome: Outcome)
    requires Settles(s, move, w, k, luck, outcome)
    ensures ByTheFigures(s.values, k.key.tenant, k.action, luck.confidence, outcome)
  {
    var current := CurrentValue(s.values, k.key.tenant, k.action);
    CriticByTheFigures(k.action, current);
    ApprovalByTheFigures(k.action, luck.confidence, current);
    hide CriticApproves, ClassifyRisk, Comparable, FewHeads;
  }

  /** No staffing or menu change runs by itself; a bounded one waits for a reviewer. */
  lemma StaffAndMenuNeedAReviewer(values: map<Slot, real>, tenant: int, action: Action, confidence: real,
                                  outcome: Outcome)
    requires ByTheFigures(values, tenant, action, confidence, outcome) && (action.StaffingChange? || action.MenuSwap?)
    ensures !outcome.DidExecute? && (action.MenuSwap? ==> !outcome.BlockedByCritic?)
    ensures action.StaffingChange? && outcome.BlockedByCritic? ==> !FewHeads(action.headcountDelta)
    ensures action.StaffingChange? && outcome.PendingApproval? ==> FewHeads(action.headcountDelta)
  {
  }

  // ---------------------------------------------------------------- answers, by the row found

  /** What a call with this fingerprint answers for the row it found: no reuse, replay, wait, or give up. */
  predicate AnswersRow(row: KeyRow, fingerprint: int, now: int, outcome: Outcome) {
    var young := row.status.InProgress? && now - row.createdAt <= 300;
    && (row.fingerprint != fingerprint ==> outcome.Raised?)
    && (row.fingerprint == fingerprint && row.status.Completed? ==> outcome == Replayed(row.result))
    && (row.fingerprint == fingerprint && young ==> outcome.RequestInProgress?)
    && (row.fingerprint == fingerprint && !row.status.Completed? && !young ==> outcome.PreviousIncomplete?)
  }

  /** The key has a completed row of this fingerprint. */
  predicate CompletedFor(keys: map<Key, KeyRow>, key: Key, fingerprint: int) {
    key in keys && keys[key].status.Completed? && keys[key].fingerprint == fingerprint
  }

  predicate IsApproved(approvals: map<RowId, ApprovalRow>, tenant: int, r: RowId) {
    r in approvals && approvals[r].tenant == tenant && approvals[r].status.Approved?
  }

  predicate IsQueued(requests: map<RowId, WorkRow>, m: Message) {
    m.request in requests && requests[m.request].key.tenant == m.tenant && requests[m.request].status.Queued?
  }

  lemma ConflictAnswersRow(row: KeyRow, fingerprint: int, now: int)
    ensures AnswersRow(row, fingerprint, now, ConflictOutcome(fingerprint, row, IsStale(row, now)))
  {
  }

  lemma RestOfRun(prices: map<Slot, real>, from: seq<Label>, trace: seq<Label>)
    requires from <= trace
    ensures Reach(prices, trace) == Run(Reach(prices, from), trace[|from|..])
  {
    hide Run;
    assert from + trace[|from|..] == trace;
    RunConcat(Start(prices), from, trace[|from|..]);
  }

  lemma KeyStaysThere(prices: map<Slot, real>, from: seq<Label>, start: State, opening: seq<Label>, key: Key)
    requires LedTo(prices, from, start) && from <= opening && key in start.keys
    ensures key in Reach(prices, opening).keys
  {
    RestOfRun(prices, from, opening);
    RunAdvances(start, opening[|from|..]);
    hide Run, Inv;
  }

  /** A call that finds its key completed all along gives back what was stored before it came. */
  lemma GivesBackWhatWasStored(prices: map<Slot, real>, from: seq<Label>, start: State, opening: seq<Label>,
                               trace: seq<Label>, t: State, w: WorkerId, key: Key, now: int)
    requires LedTo(prices, from, start) && LedTo(prices, trace, t) && from <= opening < trace
    requires w in t.workers && w !in start.workers && t.workers[w].key == key && !t.workers[w].kind.Approver?
    requires CompletedFor(start.keys, key, t.workers[w].fingerprint) && !Abandoned(start, trace[|from|..], key)
    requires key in Reach(prices, opening).keys ==>
               AnswersRow(Reach(prices, opening).keys[key], t.workers[w].fingerprint, now, t.workers[w].outcome)
    ensures t.workers[w].phase.Done? ==> t.workers[w].outcome == Replayed(start.keys[key].result)
  {
    KeyStaysThere(prices, from, start, opening, key);
    RestOfRun(prices, from, trace);
    LaterCallsReplay(start, trace[|from|..], key, w);
    hide Inv, Abandoned, Reach, Run;
    assert SameCall(t.workers[w], key, start.keys[key]);
    assert Repeats(t.workers[w], start.keys[key]);
  }

  datatype ResolveError = NoSuchRequest | AlreadyResolved

  class Database {
    var keys: map<Key, KeyRow>
    var decisions: map<DecisionId, DecisionRow>
    var approvals: map<RowId, ApprovalRow>
    var events: seq<AgentEvent>
    var log: seq<LogRow>
    var values: map<Slot, real>
    var requests: map<RowId, WorkRow>
    var published: set<Message>
    var workers: map<WorkerId, Worker>     // where each call stands, and its local variables
    var locks: map<Resource, WorkerId>

    const prices: map<Slot, real>
    ghost var trace: seq<Label>

    constructor (prices: map<Slot, real>)
      ensures Valid() && trace == [] && this.prices == prices
    {
      this.prices := prices;
      keys, decisions, approvals, events, log := map[], map[], map[], [], [];
      values, requests, published, workers, locks := prices, map[], {}, map[], map[];
      trace := [];
      new;
      Reachable(prices, []);
    }

    function View(): State
      reads this
    {
      State(keys, decisions, approvals, events, log, prices, values, requests, published, workers, locks)
    }

    /** The tables are what the schedule executed so far leads to. */
    ghost predicate Valid()
      reads this
    {
      LedTo(prices, trace, View())
    }

    // -------------------------------------------------------------- idempotency keys

    /** The insert of `claim` that finds no row for the key. */
    method InsertKey(w: WorkerId, now: int)
      requires Valid() && CanClaim(View(), w)
      modifies `keys, `workers, `trace
      ensures Valid() && View() == AfterClaim(old(View()), w, now) && trace == old(trace) + [Claim(w, now)]
    {
      hide LedTo, StepIntake, StepDeciding, StepExecuting;
      var k := workers[w];
      keys := keys[k.key := KeyRow(k.fingerprint, InProgress, NoOutcome, now, w)];
      workers := workers[w := k.(phase := Proposing, owned := true)];
      OneMore(prices, trace, old(View()), Claim(w, now));
      trace := trace + [Claim(w, now)];
    }

    /** The read of `claim` when the key has a row. */
    method ReadKey(w: WorkerId, now: int)
      requires Valid() && CanConflict(View(), w)
      modifies `workers, `trace
      ensures Valid() && View() == AfterConflict(old(View()), w, now) && trace == old(trace) + [Conflict(w, now)]
    {
      hide LedTo, StepIntake, StepDeciding, StepExecuting;
      var k := workers[w];
      var row := keys[k.key];
      var stale := row.status.InProgress? && now - row.createdAt > STALE_AFTER;
      workers := workers[w := k.(phase := Conflicted(row, stale))];
      OneMore(prices, trace, old(View()), Conflict(w, now));
      trace := trace + [Conflict(w, now)];
    }

    /** The rest of `claim`: a stale row is marked failed, and what was read is answered. */
    method AnswerConflict(w: WorkerId)
      requires Valid() && CanResolveConflict(View(), w)
      modifies `keys, `workers, `trace
      ensures Valid() && View() == AfterResolveConflict(old(View()), w) && trace == old(trace) + [ResolveConflict(w)]
    {
      hide LedTo, StepIntake, StepDeciding, StepExecuting;
      var k := workers[w];
      var seen, status := k.phase.seen, k.phase.seen.status;
      if k.phase.stale {
        if k.key in keys { keys := keys[k.key := keys[k.key].(status := Failed, result := NoOutcome)]; }
        if status.InProgress? { status := Failed; }
      }
      var answer := PreviousIncomplete;
      if seen.fingerprint != k.fingerprint {
        answer := Raised;
      } else if status.Completed? {
        answer := Replayed(seen.result);
      } else if status.InProgress? {
        answer := RequestInProgress;
      }
      workers := workers[w := k.(phase := AfterKey(k), outcome := answer)];
      OneMore(prices, trace, old(View()), ResolveConflict(w));
      trace := trace + [ResolveConflict(w)];
    }

    /** `complete` and `fail`: a compare-and-set on the row still being in progress. */
    method FinishKey(w: WorkerId)
      requires Valid() && CanSettle(View(), w)
      modifies `keys, `workers, `trace
      ensures Valid() && View() == AfterSettle(old(View()), w) && trace == old(trace) + [Settle(w)]
    {
      hide LedTo, StepIntake, StepDeciding, StepExecuting;
      var k := workers[w];
      if k.key in keys && keys[k.key].status.InProgress? {
        keys := keys[k.key := keys[k.key].(status := if k.outcome.Raised? then Failed else Completed,
                                           result := k.outcome)];
      }
      assert keys == Finish(old(keys), k.key, k.outcome);
      workers := workers[w := k.(phase := AfterKey(k))];
      OneMore(prices, trace, old(View()), Settle(w));
      trace := trace + [Settle(w)];
    }

    // -------------------------------------------------------------- decisions

    /** MENU_SWAP add is answered before anything is proposed. */
    method RefuseMenuAdd(w: WorkerId)
      requires Valid() && CanRefuse(View(), w)
      modifies `workers, `trace
      ensures Valid() && View() == AfterRefuse(old(View()), w) && trace == old(trace) + [Refuse(w)]
    {
      hide LedTo, StepIntake, StepBookkeeping, StepExecuting;
      workers := workers[w := workers[w].(phase := Recording(LogRow(None, w, false, None, false)),
                                          outcome := UnsupportedAction)];
      OneMore(prices, trace, old(View()), Refuse(w));
      trace := trace + [Refuse(w)];
    }

    /** `propose_and_simulate`: the decision is stored with the status its confidence earns. */
    method ProposeDecision(w: WorkerId, d: DecisionId, confidence: real)
      requires Valid() && CanPropose(View(), w, d, confidence)
      modifies `decisions, `workers, `trace
      ensures Valid() && View() == AfterPropose(old(View()), w, d, confidence)
              && trace == old(trace) + [Propose(w, d, confidence)]
    {
      hide LedTo, StepIntake, StepBookkeeping, StepExecuting;
      var k := workers[w];
      var cleared := confidence >= CONFIDENCE_THRESHOLD;
      var status := if cleared then Simulated else Held;
      decisions := decisions[d := DecisionRow(k.key.tenant, k.action, confidence, cleared, status, w, None)];
      if cleared {
        workers := workers[w := k.(phase := Locking, decision := Some(d))];
      } else {
        workers := workers[w := k.(phase := Recording(LogRow(Some(d), w, false, None, false)), decision := Some(d),
                                   outcome := HeldLowConfidence)];
      }
      OneMore(prices, trace, old(View()), Propose(w, d, confidence));
      trace := trace + [Propose(w, d, confidence)];
    }

    /** The advisory lock of `_serialized_state_change`. */
    method AcquireLock(w: WorkerId)
      requires Valid() && CanAcquire(View(), w)
      modifies `locks, `workers, `trace
      ensures Valid() && View() == AfterAcquire(old(View()), w) && trace == old(trace) + [Acquire(w)]
    {
      hide LedTo, StepIntake, StepBookkeeping, StepExecuting;
      var k := workers[w];
      locks := locks[Lock(k) := w];
      workers := workers[w := k.(phase := if k.kind.Approver? then Taking else Reading)];
      OneMore(prices, trace, old(View()), Acquire(w));
      trace := trace + [Acquire(w)];
    }

    /** ToolBusyError on the proposing path. */
    method GiveUpLock(w: WorkerId)
      requires Valid() && CanTimeOut(View(), w)
      modifies `workers, `trace
      ensures Valid() && View() == AfterTimeOut(old(View()), w) && trace == old(trace) + [TimeOut(w)]
    {
      hide LedTo, StepIntake, StepBookkeeping, StepExecuting;
      var k := workers[w];
      workers := workers[w := k.(phase := Recording(LogRow(k.decision, w, true, None, false)),
                                 outcome := ConcurrentChange)];
      OneMore(prices, trace, old(View()), TimeOut(w));
      trace := trace + [TimeOut(w)];
    }

    /** Baseline, critic and risk, under the lock. */
    method AssessAction(w: WorkerId)
      requires Valid() && CanAssess(View(), w)
      modifies `workers, `trace
      ensures Valid() && View() == AfterAssess(old(View()), w) && trace == old(trace) + [Assess(w)]
    {
      hide LedTo, StepIntake, StepBookkeeping, StepExecuting;
      var k := workers[w];
      var current := CurrentValue(values, k.key.tenant, k.action);
      if !CriticApproves(k.action, current) {
        workers := workers[w := k.(current := current,
                                   phase := Recording(LogRow(k.decision, w, true, Some(false), false)),
                                   outcome := BlockedByCritic)];
      } else if ClassifyRisk(k.action, Number(decisions[k.decision.value].confidence), current).RequiresApproval() {
        workers := workers[w := k.(current := current, phase := Requesting)];
      } else {
        workers := workers[w := k.(current := current, phase := Taking)];
      }
      OneMore(prices, trace, old(View()), Assess(w));
      trace := trace + [Assess(w)];
    }

    /** `ApprovalWorkflow.request`. */
    method AskReviewer(w: WorkerId, r: RowId)
      requires Valid() && CanRequestReview(View(), w, r)
      modifies `approvals, `workers, `trace
      ensures Valid() && View() == AfterRequestReview(old(View()), w, r) && trace == old(trace) + [RequestReview(w, r)]
    {
      hide LedTo, StepIntake, StepBookkeeping, StepExecuting;
      var k := workers[w];
      if !HasRequest(View(), k.decision.value) {
        approvals := approvals[r := ApprovalRow(k.key.tenant, k.decision.value, Pending)];
      }
      workers := workers[w := k.(phase := Recording(LogRow(k.decision, w, true, Some(true), false)), asked := true,
                                 outcome := PendingApproval)];
      OneMore(prices, trace, old(View()), RequestReview(w, r));
      trace := trace + [RequestReview(w, r)];
    }

    /** `execute_and_observe`, phase 1: the row-locked claim of the decision. */
    method TakeDecision(w: WorkerId)
      requires Valid() && CanTake(View(), w)
      modifies `decisions, `workers, `trace
      ensures Valid() && View() == AfterTake(old(View()), w) && trace == old(trace) + [Take(w)]
    {
      hide LedTo, StepIntake, StepBookkeeping, StepDeciding;
      var k := workers[w];
      var d := k.decision.value;
      decisions := decisions[d := decisions[d].(status := Executed, executor := Some(w))];
      workers := workers[w := k.(phase := Observing)];
      OneMore(prices, trace, old(View()), Take(w));
      trace := trace + [Take(w)];
    }

    /** Phase 2, outside any transaction. */
    method ObserveOutcome(w: WorkerId)
      requires Valid() && CanObserve(View(), w)
      modifies `workers, `trace
      ensures Valid() && View() == AfterObserve(old(View()), w) && trace == old(trace) + [Observe(w)]
    {
      hide LedTo, StepIntake, StepBookkeeping, StepDeciding;
      workers := workers[w := workers[w].(phase := Evaluating)];
      OneMore(prices, trace, old(View()), Observe(w));
      trace := trace + [Observe(w)];
    }

    /** Phase 3. */
    method EvaluateDecision(w: WorkerId)
      requires Valid() && CanEvaluate(View(), w)
      modifies `decisions, `workers, `trace
      ensures Valid() && View() == AfterEvaluate(old(View()), w) && trace == old(trace) + [Evaluate(w)]
    {
      hide LedTo, StepIntake, StepBookkeeping, StepDeciding;
      var k := workers[w];
      var d := k.decision.value;
      decisions := decisions[d := decisions[d].(status := Evaluated)];
      workers := workers[w := k.(phase := Appending)];
      OneMore(prices, trace, old(View()), Evaluate(w));
      trace := trace + [Evaluate(w)];
    }

    /** `_apply_state_change`: the event and the price it moves, in one transaction. */
    method AppendChange(w: WorkerId)
      requires Valid() && CanAppend(View(), w)
      modifies `events, `values, `workers, `trace
      ensures Valid() && View() == AfterAppend(old(View()), w) && trace == old(trace) + [Append(w)]
    {
      hide LedTo, StepIntake, StepBookkeeping, StepDeciding, Applied, CanApply, CurrentValue;
      var k := workers[w];
      events := events + [AgentEvent(k.decision.value, w, k.key.tenant, k.action,
                                     CurrentValue(values, k.key.tenant, k.action))];
      values := Applied(values, k.key.tenant, k.action);
      workers := workers[w := k.(phase := if k.kind.Approver? then Releasing else Recording(ExecutedRow(k, w)),
                                 appended := true, outcome := DidExecute)];
      OneMore(prices, trace, old(View()), Append(w));
      trace := trace + [Append(w)];
    }

    /** `_log`. */
    method RecordRow(w: WorkerId)
      requires Valid() && CanRecord(View(), w)
      modifies `log, `workers, `trace
      ensures Valid() && View() == AfterRecord(old(View()), w) && trace == old(trace) + [Record(w)]
    {
      hide LedTo, StepIntake, StepBookkeeping, StepDeciding;
      var k := workers[w];
      log := log + [k.phase.row];
      var holding := Lock(k) in locks && locks[Lock(k)] == w;
      workers := workers[w := k.(phase := if k.kind.Approver? then Done else if holding then Releasing else Settling)];
      OneMore(prices, trace, old(View()), Record(w));
      trace := trace + [Record(w)];
    }

    /** The end of the guard session. */
    method ReleaseLock(w: WorkerId)
      requires Valid() && CanRelease(View(), w)
      modifies `locks, `workers, `trace
      ensures Valid() && View() == AfterRelease(old(View()), w) && trace == old(trace) + [Release(w)]
    {
      hide LedTo, StepIntake, StepBookkeeping, StepDeciding;
      var k := workers[w];
      locks := Freed(locks, w);
      var next := if !k.kind.Approver? then Settling else if k.appended then Recording(ExecutedRow(k, w)) else Done;
      workers := workers[w := k.(phase := next)];
      OneMore(prices, trace, old(View()), Release(w));
      trace := trace + [Release(w)];
    }

    /** An exception: the guard session ends, and with it the lock. */
    method RaiseException(w: WorkerId)
      requires Valid() && CanRaise(View(), w)
      modifies `locks, `workers, `trace
      ensures Valid() && View() == AfterRaise(old(View()), w) && trace == old(trace) + [Raise(w)]
    {
      hide LedTo, StepIntake, StepBookkeeping, StepDeciding;
      var k := workers[w];
      locks := Freed(locks, w);
      workers := workers[w := k.(phase := if k.kind.Approver? then Done else Settling, outcome := Raised)];
      OneMore(prices, trace, old(View()), Raise(w));
      trace := trace + [Raise(w)];
    }

    // -------------------------------------------------------------- requests, messages, reviewers

    /** First read of `submit_action`. */
    method StartSubmit(w: WorkerId, key: Key, action: Action, request: RowId)
      requires Valid() && CanSubmit(View(), w, key)
      modifies `workers, `trace
      ensures Valid() && View() == AfterSubmit(old(View()), w, key, action, request)
              && trace == old(trace) + [Submit(w, key, action, request)]
    {
      hide LedTo, StepBookkeeping, StepDeciding, StepExecuting;
      workers := workers[w := NewWorker(Submitter(request), key, 0, action, Submitting)];
      OneMore(prices, trace, old(View()), Submit(w, key, action, request));
      trace := trace + [Submit(w, key, action, request)];
    }

    method InsertWorkRequest(w: WorkerId)
      requires Valid() && CanInsertRequest(View(), w)
      modifies `requests, `workers, `trace
      ensures Valid() && View() == AfterInsertRequest(old(View()), w) && trace == old(trace) + [InsertRequest(w)]
    {
      hide LedTo, StepBookkeeping, StepDeciding, StepExecuting;
      var k := workers[w];
      requests := requests[k.kind.submitted := WorkRow(k.key, k.action, Queued)];
      workers := workers[w := k.(phase := Publishing)];
      OneMore(prices, trace, old(View()), InsertRequest(w));
      trace := trace + [InsertRequest(w)];
    }

    /** The insert that violates the unique constraint. */
    method LoseInsert(w: WorkerId)
      requires Valid() && CanLoseRace(View(), w)
      modifies `workers, `trace
      ensures Valid() && View() == AfterLoseRace(old(View()), w) && trace == old(trace) + [LoseRace(w)]
    {
      hide LedTo, StepBookkeeping, StepDeciding, StepExecuting;
      workers := workers[w := workers[w].(phase := Done)];
      OneMore(prices, trace, old(View()), LoseRace(w));
      trace := trace + [LoseRace(w)];
    }

    method PublishMessage(w: WorkerId)
      requires Valid() && CanPublish(View(), w)
      modifies `published, `workers, `trace
      ensures Valid() && View() == AfterPublish(old(View()), w) && trace == old(trace) + [Publish(w)]
    {
      hide LedTo, StepBookkeeping, StepDeciding, StepExecuting;
      var k := workers[w];
      published := published + {Message(k.key.tenant, k.kind.submitted)};
      workers := workers[w := k.(phase := Done)];
      OneMore(prices, trace, old(View()), Publish(w));
      trace := trace + [Publish(w)];
    }

    /** First read of `process_message`. */
    method FetchRequest(w: WorkerId, message: Message, fingerprint: int)
      requires Valid() && CanDeliver(View(), w, message)
      modifies `workers, `trace
      ensures Valid() && View() == AfterDeliver(old(View()), w, message, fingerprint)
              && trace == old(trace) + [Deliver(w, message, fingerprint)]
    {
      hide LedTo, StepBookkeeping, StepDeciding, StepExecuting;
      var row := requests[message.request];
      workers := workers[w := NewWorker(Handler(message.request), row.key, fingerprint, row.action, Fetched)];
      OneMore(prices, trace, old(View()), Deliver(w, message, fingerprint));
      trace := trace + [Deliver(w, message, fingerprint)];
    }

    method StartProcessing(w: WorkerId, valid: bool)
      requires Valid() && CanMarkProcessing(View(), w)
      modifies `requests, `workers, `trace
      ensures Valid() && View() == AfterMarkProcessing(old(View()), w, valid)
              && trace == old(trace) + [MarkProcessing(w, valid)]
    {
      hide LedTo, StepBookkeeping, StepDeciding, StepExecuting;
      var k := workers[w];
      var r := k.kind.request;
      if r in requests { requests := requests[r := requests[r].(status := Processing)]; }
      workers := workers[w := k.(phase := if valid then Claiming else Reporting,
                                 outcome := if valid then NoOutcome else InvalidRequest)];
      OneMore(prices, trace, old(View()), MarkProcessing(w, valid));
      trace := trace + [MarkProcessing(w, valid)];
    }

    /** Step 5 of `process_message`; a transient failure leaves the row in processing. */
    method ReportOutcome(w: WorkerId, transient: bool)
      requires Valid() && CanReport(View(), w)
      modifies `requests, `workers, `trace
      ensures Valid() && View() == AfterReport(old(View()), w, transient)
              && trace == old(trace) + [Report(w, transient)]
    {
      hide LedTo, StepBookkeeping, StepDeciding, StepExecuting;
      var k := workers[w];
      var r := k.kind.request;
      if !(k.outcome.Raised? && transient) && r in requests {
        requests := requests[r := requests[r].(status := if k.outcome.Reports() then Finished else Unsuccessful)];
      }
      workers := workers[w := k.(phase := Done)];
      OneMore(prices, trace, old(View()), Report(w, transient));
      trace := trace + [Report(w, transient)];
    }

    /** `ApprovalWorkflow.resolve`: a compare-and-set on PENDING. */
    method ResolveRequest(r: RowId, approve: bool)
      requires Valid() && CanResolve(View(), r)
      modifies `approvals, `trace
      ensures Valid() && View() == AfterResolve(old(View()), r, approve) && trace == old(trace) + [Resolve(r, approve)]
    {
      hide LedTo, StepIntake, StepDeciding, StepExecuting;
      approvals := approvals[r := approvals[r].(status := if approve then Approved else Rejected)];
      OneMore(prices, trace, old(View()), Resolve(r, approve));
      trace := trace + [Resolve(r, approve)];
    }

    /** `execute_approved_tool_call` up to its lock. */
    method StartApproved(w: WorkerId, tenant: int, r: RowId)
      requires Valid() && CanExecuteApproved(View(), w, tenant, r)
      modifies `workers, `trace
      ensures Valid() && View() == AfterExecuteApproved(old(View()), w, tenant, r)
              && trace == old(trace) + [ExecuteApproved(w, tenant, r)]
    {
      hide LedTo, StepIntake, StepBookkeeping, StepExecuting;
      var d := approvals[r].decision;
      workers := workers[w := NewWorker(Approver(r), Key(tenant, ""), 0, decisions[d].action,
                                        Locking).(decision := Some(d))];
      OneMore(prices, trace, old(View()), ExecuteApproved(w, tenant, r));
      trace := trace + [ExecuteApproved(w, tenant, r)];
    }

    method StartCall(w: WorkerId, key: Key, fingerprint: int, action: Action)
      requires Valid() && CanCall(View(), w)
      modifies `workers, `trace
      ensures Valid() && View() == AfterCall(old(View()), w, key, fingerprint, action)
      ensures trace == old(trace) + [Call(w, key, fingerprint, action)]
    {
      hide LedTo, StepBookkeeping, StepDeciding, StepExecuting;
      workers := workers[w := NewWorker(Caller, key, fingerprint, action, Claiming)];
      OneMore(prices, trace, old(View()), Call(w, key, fingerprint, action));
      trace := trace + [Call(w, key, fingerprint, action)];
    }

    // -------------------------------------------------------------- what happens in between

    method Store(s: State)
      requires s.initial == prices
      modifies `keys, `decisions, `approvals, `events, `log, `values, `requests, `published, `workers, `locks
      ensures View() == s
    {
      keys, decisions, approvals, events, log := s.keys, s.decisions, s.approvals, s.events, s.log;
      values, requests, published, workers, locks := s.values, s.requests, s.published, s.workers, s.locks;
    }

    /** Everyone else moves; a worker's own record and locks stay as they are. */
    method Others(w: WorkerId, moves: seq<Label>)
      requires Valid() && w in workers && AllForeign(w, moves)
      modifies this
      ensures Valid() && KeepsOwn(old(View()), View(), w) && old(trace) <= trace
      ensures DecisionsAdvance(old(decisions), decisions)
    {
      hide Step, Foreign, KeepsOwn, DecisionsAdvance;
      ForeignersKeepOwn(View(), w, moves);
      RunAdvances(View(), moves);
      RunKeepsInitial(View(), moves);
      RunConcat(Start(prices), trace, moves);
      Store(Run(View(), moves));
      trace := trace + moves;
    }

    /** Before a transaction: others move, and an exception may come instead of it. */
    method Interrupted(w: WorkerId, luck: Circumstances, n: nat) returns (raised: bool, ghost gate: seq<Label>)
      requires Valid() && Fair(w, luck) && w in workers && Raises(workers[w].phase)
      modifies this
      ensures Valid() && w in workers && old(trace) <= trace && raised == (luck.fault == n)
      ensures !raised ==> KeepsOwn(old(View()), View(), w) && DecisionsAdvance(old(decisions), decisions)
      ensures raised ==> workers[w] == Interruption(old(workers)[w])
                         && Stopped(prices, old(trace), gate, trace, w, old(workers)[w].kind, luck, n)
    {
      hide LedTo, DecisionsAdvance, CannotGoOn, Reach;
      Others(w, luck.others(n));
      raised, gate := luck.fault == n, trace;
      if raised {
        ViewIsReached();
        RaiseException(w);
      }
    }

    lemma ViewIsReached()
      requires Valid()
      ensures View() == Reach(prices, trace)
    {
    }

    /** An exception the code raises on a failed check. */
    method Abort(w: WorkerId, luck: Circumstances) returns (ghost gate: seq<Label>)
      requires Valid() && w in workers && Raises(workers[w].phase) && CannotGoOn(View(), w, luck)
      modifies this
      ensures Valid() && w in workers && workers[w] == Interruption(old(workers)[w]) && old(trace) <= trace
      ensures Stopped(prices, old(trace), gate, trace, w, old(workers)[w].kind, luck, 0)
    {
      hide LedTo, CannotGoOn, Reach;
      gate := trace;
      ViewIsReached();
      RaiseException(w);
    }

    // -------------------------------------------------------------- the tool framework

    /**
      Write the log row, and leave the guard session if this call is inside one. The outcome
      logged was settled by the transaction after `decided`.
     */
    method LogAndLeave(w: WorkerId, luck: Circumstances, n: nat, ghost from: seq<Label>, ghost decided: seq<Label>,
                       ghost was: Worker)
      returns (outcome: Outcome, ghost gate: seq<Label>)
      requires Valid() && Fair(w, luck) && w in workers && workers[w].phase.Recording? && !workers[w].kind.Approver?
      requires n < LAST_STEP && from <= trace && SameRequest(was, workers[w])
      requires Justified(prices, from, decided, trace, w, was, luck, workers[w].outcome)
      modifies this
      ensures Valid() && Answered(w, old(workers)[w], outcome) && old(trace) <= trace
      ensures Justified(prices, from, gate, trace, w, was, luck, outcome)
    {
      hide LedTo, Reach, CannotGoOn, Justified, DecisionsAdvance, Stopped, KeepsOwn;
      ghost var start, k := trace, View();
      var raised;
      raised, gate := Interrupted(w, luck, n);
      if raised {
        StoppedIsJustified(prices, from, start, gate, trace, w, was, luck, n);
        return Raised, gate;
      }
      KeptRecord(k, View(), w);
      ghost var settled := workers[w].outcome;
      RecordRow(w);
      outcome, gate := Leave(w, luck, n + 1, from, was);
      if outcome == settled {
        JustifiedWithin(prices, from, from, decided, start, trace, w, was, was, luck, outcome);
        gate := decided;
      }
    }

    /** The end of the `with` block, if this call is in one: the guard session commits or fails. */
    method Leave(w: WorkerId, luck: Circumstances, n: nat, ghost from: seq<Label>, ghost was: Worker)
      returns (outcome: Outcome, ghost gate: seq<Label>)
      requires Valid() && Fair(w, luck) && w in workers && !workers[w].kind.Approver?
      requires workers[w].phase.Releasing? || workers[w].phase.Settling?
      requires n <= LAST_STEP && from <= trace && SameRequest(was, workers[w])
      modifies this
      ensures Valid() && Answered(w, old(workers)[w], outcome) && old(trace) <= trace
      ensures outcome == old(workers)[w].outcome
              || (outcome.Raised? && Justified(prices, from, gate, trace, w, was, luck, Raised))
    {
      hide LedTo, Reach, CannotGoOn, Justified, DecisionsAdvance, Stopped, KeepsOwn;
      ghost var start, k := trace, View();
      gate := [];
      if workers[w].phase.Releasing? {
        var raised;
        raised, gate := Interrupted(w, luck, n);
        if raised {
          StoppedIsJustified(prices, from, start, gate, trace, w, was, luck, n);
          return Raised, gate;
        }
        KeptRecord(k, View(), w);
        ReleaseLock(w);
      } else {
        Others(w, luck.others(n));
        KeptRecord(k, View(), w);
      }
      return workers[w].outcome, gate;
    }

    /** A proposing call is over but for its key: same call, and its outcome is the one returned. */
    predicate Answered(w: WorkerId, was: Worker, outcome: Outcome)
      reads this
    {
      && w in workers && workers[w].phase.Settling? && workers[w].outcome == outcome
      && workers[w].kind == was.kind && workers[w].key == was.key
      && workers[w].fingerprint == was.fingerprint && workers[w].action == was.action
    }

    /** `execute_and_observe`, phase 1; it raises unless the decision is there, cleared and SIMULATED. */
    method ClaimDecision(w: WorkerId, luck: Circumstances, n: nat) returns (done: bool, ghost gate: seq<Label>)
      requires Valid() && Fair(w, luck) && w in workers && workers[w].phase.Taking? && workers[w].decision.Some?
      modifies this
      ensures Valid() && w in workers && old(trace) <= trace
      ensures workers[w] == if done then old(workers)[w].(phase := Observing) else Interruption(old(workers)[w])
      ensures !done ==> Stopped(prices, old(trace), gate, trace, w, old(workers)[w].kind, luck, n)
    {
      hide LedTo, DecisionsAdvance, Stopped, Reach;
      var raised;
      ghost var from, kind := trace, workers[w].kind;
      raised, gate := Interrupted(w, luck, n);
      if raised { return false, gate; }
      var d := workers[w].decision.value;
      if d !in decisions || !decisions[d].cleared || !decisions[d].status.Simulated? {
        ghost var here := trace;
        gate := Abort(w, luck);
        StoppedWithin(prices, from, here, gate, trace, w, kind, luck, 0, n);
        return false, gate;
      }
      TakeDecision(w);
      return true, gate;
    }

    /** Phase 2: observe the outcome, outside any transaction. */
    method Observed(w: WorkerId, luck: Circumstances, n: nat) returns (done: bool, ghost gate: seq<Label>)
      requires Valid() && Fair(w, luck) && w in workers && workers[w].phase.Observing?
      modifies this
      ensures Valid() && w in workers && old(trace) <= trace
      ensures workers[w] == if done then old(workers)[w].(phase := Evaluating) else Interruption(old(workers)[w])
      ensures !done ==> Stopped(prices, old(trace), gate, trace, w, old(workers)[w].kind, luck, n)
    {
      hide LedTo, DecisionsAdvance, CannotGoOn;
      var raised;
      raised, gate := Interrupted(w, luck, n);
      if raised { return false, gate; }
      ObserveOutcome(w);
      return true, gate;
    }

    /** Phase 3: store the evaluation; it raises unless the decision is still EXECUTED. */
    method StoreEvaluation(w: WorkerId, luck: Circumstances, n: nat) returns (done: bool, ghost gate: seq<Label>)
      requires Valid() && Fair(w, luck) && w in workers && workers[w].phase.Evaluating? && workers[w].decision.Some?
      modifies this
      ensures Valid() && w in workers && old(trace) <= trace
      ensures workers[w] == if done then old(workers)[w].(phase := Appending) else Interruption(old(workers)[w])
      ensures !done ==> Stopped(prices, old(trace), gate, trace, w, old(workers)[w].kind, luck, n)
    {
      hide LedTo, DecisionsAdvance, Stopped, Reach;
      var raised;
      ghost var from, kind := trace, workers[w].kind;
      raised, gate := Interrupted(w, luck, n);
      if raised { return false, gate; }
      var d := workers[w].decision.value;
      if d !in decisions || !decisions[d].status.Executed? {
        ghost var here := trace;
        gate := Abort(w, luck);
        StoppedWithin(prices, from, here, gate, trace, w, kind, luck, 0, n);
        return false, gate;
      }
      EvaluateDecision(w);
      return true, gate;
    }

    /** `_apply_state_change`; it raises where there is no event to append or the store refuses it. */
    method ApplyStateChange(w: WorkerId, luck: Circumstances, n: nat) returns (done: bool, ghost gate: seq<Label>)
      requires Valid() && Fair(w, luck) && w in workers && workers[w].phase.Appending? && workers[w].decision.Some?
      modifies this
      ensures Valid() && w in workers && old(trace) <= trace
      ensures workers[w] == if done then Changed(old(workers)[w], w) else Interruption(old(workers)[w])
      ensures !done ==> Stopped(prices, old(trace), gate, trace, w, old(workers)[w].kind, luck, n)
    {
      hide LedTo, DecisionsAdvance, Stopped, Reach, CanApply, Applicable, Applied, CurrentValue;
      var raised;
      ghost var from, kind := trace, workers[w].kind;
      raised, gate := Interrupted(w, luck, n);
      if raised { return false, gate; }
      ApplicableIff(values, workers[w].key.tenant, workers[w].action);
      if !CanApply(values, workers[w].key.tenant, workers[w].action) {
        ghost var here := trace;
        gate := Abort(w, luck);
        StoppedWithin(prices, from, here, gate, trace, w, kind, luck, 0, n);
        return false, gate;
      }
      AppendChange(w);
      return true, gate;
    }

    /** `execute_and_observe`: its three phases. */
    method ExecuteAndObserve(w: WorkerId, luck: Circumstances, n: nat) returns (done: bool, ghost gate: seq<Label>)
      requires Valid() && Fair(w, luck) && w in workers && workers[w].phase.Taking? && workers[w].decision.Some?
      modifies this
      ensures Valid() && w in workers && old(trace) <= trace
      ensures workers[w] == if done then old(workers)[w].(phase := Appending) else Interruption(old(workers)[w])
      ensures !done ==> Stopped(prices, old(trace), gate, trace, w, old(workers)[w].kind, luck, n + 2)
    {
      hide LedTo, Stopped, Fair;
      ghost var kind, from := workers[w].kind, trace;
      done, gate := ClaimDecision(w, luck, n);
      if !done {
        StoppedWithin(prices, from, from, gate, trace, w, kind, luck, n, n + 2);
        return;
      }
      ghost var here := trace;
      done, gate := Observed(w, luck, n + 1);
      if !done {
        StoppedWithin(prices, from, here, gate, trace, w, kind, luck, n + 1, n + 2);
        return;
      }
      here := trace;
      done, gate := StoreEvaluation(w, luck, n + 2);
      if !done { StoppedWithin(prices, from, here, gate, trace, w, kind, luck, n + 2, n + 2); }
    }

    /** Both calls of the block that changes state: `execute_and_observe`, then `_apply_state_change`. */
    method ExecuteAndApply(w: WorkerId, luck: Circumstances, n: nat) returns (done: bool, ghost gate: seq<Label>)
      requires Valid() && Fair(w, luck) && w in workers && workers[w].phase.Taking? && workers[w].decision.Some?
      modifies this
      ensures Valid() && w in workers && old(trace) <= trace
      ensures workers[w] == if done then Changed(old(workers)[w], w) else Interruption(old(workers)[w])
      ensures !done ==> Stopped(prices, old(trace), gate, trace, w, old(workers)[w].kind, luck, n + 3)
    {
      hide LedTo, Stopped, Fair;
      ghost var kind, from := workers[w].kind, trace;
      done, gate := ExecuteAndObserve(w, luck, n);
      if !done {
        StoppedWithin(prices, from, from, gate, trace, w, kind, luck, n + 2, n + 3);
        return;
      }
      ghost var here := trace;
      done, gate := ApplyStateChange(w, luck, n + 3);
      if !done { StoppedWithin(prices, from, here, gate, trace, w, kind, luck, n + 3, n + 3); }
    }

    /** `execute_tool_call`. */
    method ExecuteToolCall(w: WorkerId, luck: Circumstances) returns (outcome: Outcome, ghost gate: seq<Label>)
      requires Valid() && Fair(w, luck) && w in workers && workers[w].phase.Proposing? && !workers[w].kind.Approver?
      modifies this
      ensures Valid() && Answered(w, old(workers)[w], outcome) && old(trace) <= trace
      ensures Justified(prices, old(trace), gate, trace, w, old(workers)[w], luck, outcome)
      ensures old(trace) <= gate < trace
              && ByTheFigures(Reach(prices, gate).values, workers[w].key.tenant, workers[w].action, luck.confidence,
                              outcome)
      ensures RowOf(workers[w], w).Some? ==> RowOf(workers[w], w).value in log
      ensures outcome.PendingApproval? ==>
                workers[w].decision.Some? && HasRequest(View(), workers[w].decision.value)
    {
      hide LedTo, Reach, Settles, Stopped, RowOf, ByTheFigures, HasRequest;
      ghost var k := workers[w];
      outcome, gate := RunToolCall(w, luck);
      SettledByTheFigures(Reach(prices, gate), trace[|gate|], w, k, luck, outcome);
      AnswerIsLogged(prices, trace, View(), w);
      if outcome.PendingApproval? { RequestIsOnFile(w); }
    }

    lemma RequestIsOnFile(w: WorkerId)
      requires Valid() && w in workers && workers[w].outcome.PendingApproval?
      ensures workers[w].decision.Some? && HasRequest(View(), workers[w].decision.value)
    {
      ReviewsAreFiled(prices, trace, w);
    }

    /** The call itself. */
    method RunToolCall(w: WorkerId, luck: Circumstances) returns (outcome: Outcome, ghost gate: seq<Label>)
      requires Valid() && Fair(w, luck) && w in workers && workers[w].phase.Proposing? && !workers[w].kind.Approver?
      modifies this
      ensures Valid() && Answered(w, old(workers)[w], outcome) && old(trace) <= trace
      ensures Justified(prices, old(trace), gate, trace, w, old(workers)[w], luck, outcome)
    {
      hide LedTo, Reach, Refused, DecisionsAdvance, Lock, KeepsOwn, Justified, Stopped;
      ghost var k := workers[w];
      var raised;
      raised, gate := Interrupted(w, luck, 0);
      if raised {
        StoppedIsJustified(prices, old(trace), old(trace), gate, trace, w, k, luck, 0);
        return Raised, gate;
      }
      KeptRecord(old(View()), View(), w);
      ghost var here := trace;
      if IsMenuAdd(workers[w].action) {
        outcome, gate := Unsupported(w, luck);
        JustifiedWithin(prices, old(trace), here, gate, trace, trace, w, k, k, luck, outcome);
        return;
      }
      outcome, gate := ProposeAndRun(w, luck);
      JustifiedWithin(prices, old(trace), here, gate, trace, trace, w, k, k, luck, outcome);
    }

    /** Every other action: propose, hold what is not confident enough, and run the rest under the lock. */
    method ProposeAndRun(w: WorkerId, luck: Circumstances) returns (outcome: Outcome, ghost gate: seq<Label>)
      requires Valid() && Fair(w, luck) && w in workers && workers[w].phase.Proposing? && !workers[w].kind.Approver?
      requires !IsMenuAdd(workers[w].action)
      modifies this
      ensures Valid() && Answered(w, old(workers)[w], outcome) && old(trace) <= trace
      ensures Justified(prices, old(trace), gate, trace, w, old(workers)[w], luck, outcome)
    {
      hide LedTo, Reach, Refused, DecisionsAdvance, Lock, KeepsOwn, Justified, Stopped;
      ghost var k, from := workers[w], trace;
      if luck.decision in decisions || !(0.0 <= luck.confidence <= 1.0) {
        gate := Abort(w, luck);
        StoppedIsJustified(prices, from, from, gate, trace, w, k, luck, 0);
        return Raised, gate;
      }
      ViewIsReached();
      if luck.confidence < CONFIDENCE_THRESHOLD {
        SettledHere(prices, from, from, View(), Propose(w, luck.decision, luck.confidence), w, k, luck,
                    HeldLowConfidence);
      }
      ProposeDecision(w, luck.decision, luck.confidence);
      if workers[w].phase.Recording? {
        outcome, gate := LogAndLeave(w, luck, 1, from, from, k);
        return;
      }
      ghost var here, k' := trace, workers[w];
      outcome, gate := Serialized(w, luck);
      JustifiedWithin(prices, from, here, gate, trace, trace, w, k', k, luck, outcome);
    }

    /** MENU_SWAP add: logged and refused. */
    method Unsupported(w: WorkerId, luck: Circumstances) returns (outcome: Outcome, ghost gate: seq<Label>)
      requires Valid() && Fair(w, luck) && CanRefuse(View(), w) && !workers[w].kind.Approver?
      modifies this
      ensures Valid() && Answered(w, old(workers)[w], outcome) && old(trace) <= trace
      ensures Justified(prices, old(trace), gate, trace, w, old(workers)[w], luck, outcome)
    {
      hide LedTo, Reach, Justified;
      ghost var k, here := workers[w], trace;
      ViewIsReached();
      SettledHere(prices, here, here, View(), Refuse(w), w, k, luck, UnsupportedAction);
      RefuseMenuAdd(w);
      outcome, gate := LogAndLeave(w, luck, 1, here, here, k);
    }

    /** The `with _serialized_state_change` block of `execute_tool_call`. */
    method Serialized(w: WorkerId, luck: Circumstances) returns (outcome: Outcome, ghost gate: seq<Label>)
      requires Valid() && Fair(w, luck) && w in workers && workers[w].phase.Locking? && !workers[w].kind.Approver?
      requires Proposed(w, luck)
      modifies this
      ensures Valid() && Answered(w, old(workers)[w], outcome) && old(trace) <= trace
      ensures Justified(prices, old(trace), gate, trace, w, old(workers)[w], luck, outcome)
    {
      hide LedTo, Reach, Refused, Lock, KeepsOwn, CannotGoOn, Justified, Stopped;
      ghost var k := workers[w];
      var raised;
      raised, gate := Interrupted(w, luck, 3);
      if raised {
        StoppedIsJustified(prices, old(trace), old(trace), gate, trace, w, k, luck, 3);
        return Raised, gate;
      }
      KeptRecord(old(View()), View(), w);
      ghost var here := trace;
      if Lock(workers[w]) in locks {
        ViewIsReached();
        WaiterHoldsNothing(prices, trace, View(), w);
        SettledHere(prices, old(trace), here, View(), TimeOut(w), w, k, luck, ConcurrentChange);
        GiveUpLock(w);
        outcome, gate := LogAndLeave(w, luck, 4, old(trace), here, k);
        return;
      }
      AcquireLock(w);
      here := trace;
      ghost var k' := workers[w];
      outcome, gate := Assessed(w, luck);
      JustifiedWithin(prices, old(trace), here, gate, trace, trace, w, k', k, luck, outcome);
    }

    /** The stored decision of this call, which cleared the confidence gate. */
    predicate Proposed(w: WorkerId, luck: Circumstances)
      reads this
    {
      && w in workers && workers[w].decision == Some(luck.decision) && !IsMenuAdd(workers[w].action)
      && luck.confidence >= CONFIDENCE_THRESHOLD
      && luck.decision in decisions && decisions[luck.decision].confidence == luck.confidence
    }

    /** From the baseline read on. */
    method Assessed(w: WorkerId, luck: Circumstances) returns (outcome: Outcome, ghost gate: seq<Label>)
      requires Valid() && Fair(w, luck) && w in workers && workers[w].phase.Reading? && !workers[w].kind.Approver?
      requires Proposed(w, luck)
      modifies this
      ensures Valid() && Answered(w, old(workers)[w], outcome) && old(trace) <= trace
      ensures Justified(prices, old(trace), gate, trace, w, old(workers)[w], luck, outcome)
    {
      hide LedTo, Reach, Refused, CannotGoOn, CriticApproves, ClassifyRisk, CurrentValue, KeepsOwn, Lock, Justified,
           Stopped, Planned, Verdict, GateOutcome;
      ghost var k := workers[w];
      var raised;
      raised, gate := Interrupted(w, luck, 4);
      if raised {
        StoppedIsJustified(prices, old(trace), old(trace), gate, trace, w, k, luck, 4);
        return Raised, gate;
      }
      KeptRecord(old(View()), View(), w);
      ghost var here, current := trace, CurrentValue(values, k.key.tenant, k.action);
      ViewIsReached();
      ReadingCanAssess(prices, trace, View(), w);
      SettledHere(prices, old(trace), here, View(), Assess(w), w, k, luck,
                  GateOutcome(k.action, luck.confidence, current));
      AssessAction(w);
      VerdictPlans(k, w, luck.confidence, current);
      outcome, gate := Conclude(w, luck, old(trace), here, k);
    }

    /** What the verdict of critic and classifier leads to, still under the lock. */
    method Conclude(w: WorkerId, luck: Circumstances, ghost from: seq<Label>, ghost assessed: seq<Label>,
                    ghost was: Worker)
      returns (outcome: Outcome, ghost gate: seq<Label>)
      requires Valid() && Fair(w, luck) && w in workers && workers[w].decision.Some? && !workers[w].kind.Approver?
      requires workers[w].phase.Recording? || workers[w].phase.Requesting? || workers[w].phase.Taking?
      requires from <= trace && SameRequest(was, workers[w])
      requires Justified(prices, from, assessed, trace, w, was, luck, Planned(workers[w]))
      modifies this
      ensures Valid() && Answered(w, old(workers)[w], outcome) && old(trace) <= trace
      ensures Justified(prices, from, gate, trace, w, was, luck, outcome)
    {
      hide LedTo, Reach, Refused, Justified, KeepsOwn, DecisionsAdvance, Stopped, Fair;
      ghost var here := trace;
      if workers[w].phase.Recording? {
        outcome, gate := LogAndLeave(w, luck, 5, from, assessed, was);
      } else if workers[w].phase.Requesting? {
        var raised;
        raised, gate := Interrupted(w, luck, 5);
        if raised {
          StoppedIsJustified(prices, from, here, gate, trace, w, was, luck, 5);
          return Raised, gate;
        }
        KeptRecord(old(View()), View(), w);
        if luck.approval in approvals && !HasRequest(View(), workers[w].decision.value) {
          here := trace;
          gate := Abort(w, luck);
          StoppedIsJustified(prices, from, here, gate, trace, w, was, luck, 0);
          return Raised, gate;
        }
        AskReviewer(w, luck.approval);
        JustifiedWithin(prices, from, from, assessed, here, trace, w, was, was, luck, PendingApproval);
        outcome, gate := LogAndLeave(w, luck, 6, from, assessed, was);
      } else {
        var done;
        done, gate := ExecuteAndApply(w, luck, 5);
        if !done {
          StoppedIsJustified(prices, from, here, gate, trace, w, was, luck, 8);
          return Raised, gate;
        }
        JustifiedWithin(prices, from, from, assessed, here, trace, w, was, was, luck, DidExecute);
        outcome, gate := LogAndLeave(w, luck, 9, from, assessed, was);
      }
    }

    // -------------------------------------------------------------- idempotent and approved calls

    /** `execute_tool_call_idempotent`; `around` is what others do before and after the call it wraps. */
    method ExecuteToolCallIdempotent(w: WorkerId, luck: Circumstances, around: Circumstances)
      returns (outcome: Outcome, ghost opening: seq<Label>, ghost gate: seq<Label>)
      requires Valid() && Fair(w, luck) && Fair(w, around)
      requires w in workers && workers[w].phase.Claiming? && !workers[w].kind.Approver?
      modifies this
      ensures Valid() && w in workers && workers[w].phase == AfterKey(old(workers)[w]) && old(trace) <= trace
      ensures workers[w].kind == old(workers)[w].kind && workers[w].outcome == outcome
      ensures workers[w].key == old(workers)[w].key && workers[w].action == old(workers)[w].action
      ensures workers[w].fingerprint == old(workers)[w].fingerprint
      ensures Resolved(prices, old(trace), opening, gate, trace, w, old(workers)[w], luck, outcome)
      ensures old(workers)[w].key !in Reach(prices, opening).keys ==>
                && OwnKey(w, old(workers)[w].key) && !keys[old(workers)[w].key].status.InProgress?
                && (Filled(w) || Abandoned(Start(prices), trace, workers[w].key))
      ensures var found := Reach(prices, opening).keys;
              workers[w].key in found ==>
                AnswersRow(found[workers[w].key], workers[w].fingerprint, luck.now, outcome)
      ensures outcome.DidExecute? ==> Carried(w)
    {
      hide LedTo, Reach, EventsFor, Justified, KeepsOwn, DecisionsAdvance, OwnKey, Filled, Abandoned, AnswersRow;
      ghost var k := workers[w];
      Others(w, around.others(0));
      KeptRecord(old(View()), View(), w);
      opening, gate := trace, [];
      ViewIsReached();
      if workers[w].key !in keys {
        InsertKey(w, luck.now);
        ghost var here, k' := trace, workers[w];
        outcome, gate := OwnCall(w, luck, around);
        JustifiedWithin(prices, opening, here, gate, trace, trace, w, k', k, luck, outcome);
      } else {
        outcome := ForeignKey(w, luck, around);
      }
      if outcome.DidExecute? { ExecutedOnce(prices, trace, View(), w); }
    }

    /** One event, of this call's decision, its action and its tenant. */
    ghost predicate Carried(w: WorkerId)
      reads this
    {
      && w in workers && workers[w].decision.Some? && EventsFor(events, workers[w].decision.value) == 1
      && exists e | e in events ::
           e.decision == workers[w].decision.value && e.action == workers[w].action && e.tenant == workers[w].key.tenant
    }

    /** `claim` where the key has a row: read it, and answer from what was read. */
    method ForeignKey(w: WorkerId, luck: Circumstances, around: Circumstances) returns (outcome: Outcome)
      requires Valid() && Fair(w, around) && CanConflict(View(), w)
      modifies this
      ensures Valid() && w in workers && workers[w].phase == AfterKey(old(workers)[w])
      ensures old(trace) + [Conflict(w, luck.now)] <= trace
      ensures workers[w].outcome == outcome && SameRequest(old(workers)[w], workers[w])
      ensures workers[w].fingerprint == old(workers)[w].fingerprint
      ensures var row := old(keys)[old(workers)[w].key];
              && outcome == ConflictOutcome(old(workers)[w].fingerprint, row, IsStale(row, luck.now))
              && AnswersRow(row, old(workers)[w].fingerprint, luck.now, outcome)
    {
      hide LedTo, Reach, KeepsOwn, DecisionsAdvance;
      ConflictAnswersRow(keys[workers[w].key], workers[w].fingerprint, luck.now);
      ReadKey(w, luck.now);
      ghost var was := View();
      Others(w, around.others(1));
      KeptRecord(was, View(), w);
      AnswerConflict(w);
      return workers[w].outcome;
    }

    /** The call of a worker that owns its key, and the end of the key. */
    method OwnCall(w: WorkerId, luck: Circumstances, around: Circumstances)
      returns (outcome: Outcome, ghost gate: seq<Label>)
      requires Valid() && Fair(w, luck) && Fair(w, around)
      requires w in workers && workers[w].phase.Proposing? && !workers[w].kind.Approver?
      modifies this
      ensures Valid() && w in workers && workers[w].phase == AfterKey(old(workers)[w]) && old(trace) <= trace
      ensures workers[w].outcome == outcome && SameRequest(old(workers)[w], workers[w])
      ensures workers[w].fingerprint == old(workers)[w].fingerprint
      ensures Justified(prices, old(trace), gate, trace, w, old(workers)[w], luck, outcome)
      ensures OwnKey(w, workers[w].key) && !keys[workers[w].key].status.InProgress?
      ensures Filled(w) || Abandoned(Start(prices), trace, workers[w].key)
    {
      hide LedTo, Reach, Justified, KeepsOwn, DecisionsAdvance, Abandoned;
      ghost var k := workers[w];
      outcome, gate := ExecuteToolCall(w, luck);
      ghost var was, there := View(), trace;
      Others(w, around.others(1));
      KeptRecord(was, View(), w);
      SettlingOwns(prices, trace, View(), w);
      RowIsWaiting(w);
      if AwaitsOwner(View(), workers[w].key) { SettlingFills(View(), w); }
      ghost var before := trace;
      FinishKey(w);
      assert trace[..|trace| - 1] == before;
      AbandonedEarlier(Start(prices), trace, workers[w].key);
      JustifiedWithin(prices, old(trace), old(trace), gate, there, trace, w, k, k, luck, outcome);
      OwnKeyHoldsOutcome(w, k.key);
    }

    /** The row of this call's key holds what this call answered. */
    ghost predicate Filled(w: WorkerId)
      reads this
    {
      && w in workers && workers[w].key in keys && keys[workers[w].key].result == workers[w].outcome
      && keys[workers[w].key].status == (if workers[w].outcome.Raised? then Failed else Completed)
      && keys[workers[w].key].fingerprint == workers[w].fingerprint
    }

    lemma RowIsWaiting(w: WorkerId)
      requires Valid() && w in workers && workers[w].phase.Settling? && !workers[w].kind.Approver?
      ensures AwaitsOwner(View(), workers[w].key) || Abandoned(Start(prices), trace, workers[w].key)
      ensures workers[w].key in keys ==> keys[workers[w].key].fingerprint == workers[w].fingerprint
    {
      RowWaitsForOwner(prices, trace, w);
      assert WorkerOk(View(), w, View().workers[w]);
    }

    /** The row this call inserted for its key: completed, it holds this call's own result. */
    ghost predicate OwnKey(w: WorkerId, key: Key)
      reads this
    {
      && w in workers && key in keys && keys[key].owner == w
      && (keys[key].status.Completed? ==> keys[key].result == workers[w].outcome && !workers[w].outcome.Raised?)
    }

    lemma OwnKeyHoldsOutcome(w: WorkerId, key: Key)
      requires Valid() && w in workers && workers[w].owned && workers[w].key == key
      ensures OwnKey(w, key)
    {
      assert WorkerOk(View(), w, View().workers[w]);
      CompletedHoldsOutcome(prices, trace);
    }

    /** `execute_tool_call_idempotent` as any caller may use it. */
    method CallTool(w: WorkerId, key: Key, fingerprint: int, action: Action, luck: Circumstances, around: Circumstances)
      returns (outcome: Outcome, ghost opening: seq<Label>, ghost gate: seq<Label>)
      requires Valid() && Fair(w, luck) && Fair(w, around) && w !in workers
      modifies this
      ensures Valid() && w in workers && workers[w].phase.Done? && workers[w].outcome == outcome
      ensures workers[w].key == key && workers[w].action == action && workers[w].fingerprint == fingerprint
      ensures old(trace) <= trace
      ensures Resolved(prices, old(trace), opening, gate, trace, w, workers[w], luck, outcome)
      ensures key !in Reach(prices, opening).keys ==> Filled(w) || Abandoned(Start(prices), trace, key)
      ensures key in Reach(prices, opening).keys ==>
                AnswersRow(Reach(prices, opening).keys[key], fingerprint, luck.now, outcome)
      ensures CompletedFor(old(keys), key, fingerprint) && !Abandoned(old(View()), trace[|old(trace)|..], key) ==>
                outcome == Replayed(old(keys)[key].result)
      ensures outcome.DidExecute? ==> Carried(w)
    {
      hide LedTo, Reach, Resolved, EventsFor, Filled, Abandoned, AnswersRow, Carried;
      ghost var start, from := View(), trace;
      StartCall(w, key, fingerprint, action);
      ghost var here, k := trace, workers[w];
      outcome, opening, gate := ExecuteToolCallIdempotent(w, luck, around);
      ResolvedWithin(prices, from, here, opening, gate, trace, trace, w, k, workers[w], luck, outcome);
      if CompletedFor(start.keys, key, fingerprint) && !Abandoned(start, trace[|from|..], key) {
        OpensWithin(prices, from, opening, gate, trace, w, workers[w], luck, outcome);
        GivesBackWhatWasStored(prices, from, start, opening, trace, View(), w, key, luck.now);
      }
    }

    /** `ApprovalWorkflow.resolve`: no such request, already resolved, or now resolved for good. */
    method ResolveApproval(tenant: int, r: RowId, approve: bool) returns (result: Result<ApprovalStatus, ResolveError>)
      requires Valid()
      modifies `approvals, `trace
      ensures Valid()
      ensures var own := r in old(approvals) && old(approvals)[r].tenant == tenant;
              result == if !own then Failure(NoSuchRequest)
                        else if !old(approvals)[r].status.Pending? then Failure(AlreadyResolved)
                        else Success(if approve then Approved else Rejected)
      ensures result.Failure? ==> approvals == old(approvals) && trace == old(trace)
      ensures result.Success? ==>
                r in approvals && approvals[r] == old(approvals)[r].(status := result.value)
                && forall q | q in old(approvals) && q != r :: q in approvals && approvals[q] == old(approvals)[q]
    {
      hide LedTo;
      if r !in approvals || approvals[r].tenant != tenant { return Failure(NoSuchRequest); }
      if !approvals[r].status.Pending? { return Failure(AlreadyResolved); }
      ResolveRequest(r, approve);
      return Success(approvals[r].status);
    }

    /** `execute_approved_tool_call`; it raises unless the request is approved and its lock is free. */
    method ExecuteApprovedToolCall(w: WorkerId, tenant: int, approval: RowId, luck: Circumstances)
      returns (executed: bool, ghost gate: seq<Label>)
      requires Valid() && Fair(w, luck) && w !in workers
      modifies this
      ensures Valid() && old(trace) <= trace
      ensures executed ==> w in workers && workers[w].phase.Done? && workers[w].appended
                           && workers[w].kind == Approver(approval) && approval in approvals
                           && workers[w].decision == Some(approvals[approval].decision) && Carried(w)
      ensures if IsApproved(old(approvals), tenant, approval)
                 && old(approvals)[approval].decision in old(decisions)
                 && old(decisions)[old(approvals)[approval].decision].tenant == tenant
              then executed || Stopped(prices, old(trace), gate, trace, w, Approver(approval), luck, 6)
              else !executed && View() == old(View())
    {
      hide LedTo, Lock, EventsFor, Reach, Stopped;
      executed, gate := false, [];
      if approval !in approvals || approvals[approval].tenant != tenant || !approvals[approval].status.Approved? {
        return;
      }
      var d := approvals[approval].decision;
      if d !in decisions || decisions[d].tenant != tenant { return; }
      StartApproved(w, tenant, approval);
      ghost var here := trace;
      executed, gate := RunApproved(w, luck);
      if executed {
        ExecutedOnce(prices, trace, View(), w);
      } else {
        StoppedWithin(prices, old(trace), here, gate, trace, w, Approver(approval), luck, 6, 6);
      }
    }

    /** The approved call from its lock on. */
    method RunApproved(w: WorkerId, luck: Circumstances) returns (executed: bool, ghost gate: seq<Label>)
      requires Valid() && Fair(w, luck) && w in workers && workers[w].kind.Approver?
      requires workers[w].phase.Locking? && workers[w].decision.Some?
      modifies this
      ensures Valid() && w in workers && workers[w].phase.Done? && workers[w].kind == old(workers)[w].kind
              && old(trace) <= trace
      ensures if executed then workers[w].appended
              else Stopped(prices, old(trace), gate, trace, w, old(workers)[w].kind, luck, 6)
    {
      hide LedTo, Lock, Reach, Stopped, KeepsOwn, DecisionsAdvance;
      ghost var from, kind := trace, workers[w].kind;
      executed := false;
      var raised;
      raised, gate := Interrupted(w, luck, 0);
      if raised {
        StoppedWithin(prices, from, from, gate, trace, w, kind, luck, 0, 6);
        return;
      }
      KeptRecord(old(View()), View(), w);
      ghost var here := trace;
      if Lock(workers[w]) in locks {
        gate := Abort(w, luck);
        StoppedWithin(prices, from, here, gate, trace, w, kind, luck, 0, 6);
        return;
      }
      AcquireLock(w);
      here := trace;
      executed, gate := ExecuteAndApply(w, luck, 1);
      if executed {
        here := trace;
        executed, gate := Logged(w, luck);
        if !executed { StoppedWithin(prices, from, here, gate, trace, w, kind, luck, 6, 6); }
      } else {
        StoppedWithin(prices, from, here, gate, trace, w, kind, luck, 4, 6);
      }
    }

    /** The approved path logs after its lock is gone. */
    method Logged(w: WorkerId, luck: Circumstances) returns (logged: bool, ghost gate: seq<Label>)
      requires Valid() && Fair(w, luck) && w in workers && workers[w].kind.Approver?
      requires workers[w].phase.Releasing? && workers[w].appended
      modifies this
      ensures Valid() && w in workers && workers[w].phase.Done? && workers[w].kind == old(workers)[w].kind
      ensures old(trace) <= trace && workers[w].appended
      ensures !logged ==> Stopped(prices, old(trace), gate, trace, w, old(workers)[w].kind, luck, 6)
    {
      hide LedTo, Lock, Reach, Stopped, KeepsOwn, DecisionsAdvance;
      ghost var from, was, kind := trace, View(), workers[w].kind;
      var raised;
      raised, gate := Interrupted(w, luck, 5);
      if raised {
        StoppedWithin(prices, from, from, gate, trace, w, kind, luck, 5, 6);
        return false, gate;
      }
      KeptRecord(was, View(), w);
      ReleaseLock(w);
      ghost var here := trace;
      was := View();
      raised, gate := Interrupted(w, luck, 6);
      if raised {
        StoppedWithin(prices, from, here, gate, trace, w, kind, luck, 6, 6);
        return false, gate;
      }
      KeptRecord(was, View(), w);
      RecordRow(w);
      return true, gate;
    }

    // -------------------------------------------------------------- worker and API

    /** `process_message`: true deletes the message, false leaves it to be delivered again. */
    method ProcessMessage(w: WorkerId, message: Message, fingerprint: int, valid: bool, transient: bool,
                          luck: Circumstances, around: Circumstances)
      returns (delete: bool, ghost opening: seq<Label>, ghost gate: seq<Label>)
      requires Valid() && Fair(w, luck) && Fair(w, around) && w !in workers
      modifies this
      ensures Valid() && old(trace) <= trace
      ensures !IsQueued(old(requests), message) ==> delete && View() == old(View())
      ensures IsQueued(old(requests), message) ==>
        && w in workers && workers[w].phase.Done? && workers[w].kind == Handler(message.request)
        && Asks(old(requests)[message.request], workers[w]) && workers[w].fingerprint == fingerprint
        && delete == !(transient && workers[w].outcome.Raised?)
        && (delete ==> message.request in requests
                       && requests[message.request].status
                          == if workers[w].outcome.Reports() then Finished else Unsuccessful)
        && (if valid then Resolved(prices, old(trace), opening, gate, trace, w, workers[w], luck, workers[w].outcome)
            else workers[w].outcome == InvalidRequest)
    {
      hide LedTo, Reach, Resolved;
      delete, opening, gate := true, [], [];
      var r := message.request;
      if r !in requests || requests[r].key.tenant != message.tenant { return; }
      if !requests[r].status.Queued? { return; }
      FetchRequest(w, message, fingerprint);
      ghost var here, k := trace, workers[w];
      opening, gate := HandleRequest(w, valid, luck, around);
      ghost var there := trace;
      delete := CloseRequest(w, transient, around);
      if valid {
        ResolvedWithin(prices, old(trace), here, opening, gate, there, trace, w, k, workers[w], luck,
                       workers[w].outcome);
      }
    }

    /** Steps 1 to 4 of `process_message`. */
    method HandleRequest(w: WorkerId, valid: bool, luck: Circumstances, around: Circumstances)
      returns (ghost opening: seq<Label>, ghost gate: seq<Label>)
      requires Valid() && Fair(w, luck) && Fair(w, around)
      requires w in workers && workers[w].phase.Fetched? && workers[w].kind.Handler?
      modifies this
      ensures Valid() && w in workers && workers[w].phase.Reporting? && old(trace) <= trace
      ensures SameRequest(old(workers)[w], workers[w]) && workers[w].fingerprint == old(workers)[w].fingerprint
      ensures if valid then Resolved(prices, old(trace), opening, gate, trace, w, old(workers)[w], luck,
                                     workers[w].outcome)
              else workers[w].outcome.InvalidRequest?
    {
      hide LedTo, Reach, Resolved, KeepsOwn, DecisionsAdvance, EventsFor;
      opening, gate := [], [];
      ghost var k, from := workers[w], trace;
      Others(w, around.others(2));
      KeptRecord(old(View()), View(), w);
      StartProcessing(w, valid);
      if valid {
        ghost var here, k' := trace, workers[w];
        var outcome;
        outcome, opening, gate := ExecuteToolCallIdempotent(w, luck, around);
        ResolvedWithin(prices, from, here, opening, gate, trace, trace, w, k', k, luck, outcome);
      }
    }

    /** Step 5 of `process_message`; true if the message may go. */
    method CloseRequest(w: WorkerId, transient: bool, around: Circumstances) returns (delete: bool)
      requires Valid() && Fair(w, around) && w in workers && workers[w].phase.Reporting? && workers[w].kind.Handler?
      modifies this
      ensures Valid() && w in workers && workers[w] == old(workers)[w].(phase := Done) && old(trace) <= trace
      ensures delete == !(transient && workers[w].outcome.Raised?)
      ensures delete ==>
                var r := workers[w].kind.request;
                r in requests && requests[r].status == if workers[w].outcome.Reports() then Finished else Unsuccessful
    {
      hide LedTo, KeepsOwn, DecisionsAdvance;
      Others(w, around.others(3));
      KeptRecord(old(View()), View(), w);
      HandledRowStays(prices, trace, View(), w);
      delete := !(workers[w].outcome.Raised? && transient);
      ReportOutcome(w, transient);
    }

    /** The message goes out after the commit, whatever happens in between. */
    method PublishRequest(w: WorkerId, luck: Circumstances)
      requires Valid() && Fair(w, luck) && CanPublish(View(), w)
      modifies this
      ensures Valid() && old(trace) <= trace
      ensures var k := old(workers)[w];
              && Message(k.key.tenant, k.kind.submitted) in published
              && k.kind.submitted in requests && Asks(requests[k.kind.submitted], k)
    {
      hide LedTo, KeepsOwn, DecisionsAdvance, Step;
      ghost var was := View();
      Others(w, luck.others(1));
      KeptRecord(was, View(), w);
      SubmittedRowStays(prices, trace, View(), w);
      PublishMessage(w);
    }

    /**
      `submit_action`: one row per key, and the message only after the row is committed; `opening`
      is the schedule up to the insert.
     */
    method SubmitAction(w: WorkerId, key: Key, action: Action, request: RowId, luck: Circumstances)
      returns (accepted: bool, ghost opening: seq<Label>)
      requires Valid() && Fair(w, luck) && w !in workers
      modifies this
      ensures Valid() && old(trace) <= trace
      ensures accepted ==>
                && Message(key.tenant, request) in published && request in requests
                && requests[request].key == key && requests[request].action == action
      ensures KeyTaken(old(View()), key) ==> !accepted && View() == old(View())
      ensures !KeyTaken(old(View()), key) ==>
                && old(trace) <= opening <= trace
                && (accepted <==> request !in Reach(prices, opening).requests
                                  && forall r | r in Reach(prices, opening).requests ::
                                       Reach(prices, opening).requests[r].key != key)
    {
      hide LedTo, Reach, KeepsOwn, DecisionsAdvance, Step;
      opening := trace;
      if KeyTaken(View(), key) { return false, opening; }
      StartSubmit(w, key, action, request);
      ghost var was := View();
      Others(w, luck.others(0));
      KeptRecord(was, View(), w);
      opening := trace;
      ViewIsReached();
      if KeyTaken(View(), key) || request in requests {
        LoseInsert(w);
        return false, opening;
      }
      InsertWorkRequest(w);
      PublishRequest(w, luck);
      return true, opening;
    }
  }
}
