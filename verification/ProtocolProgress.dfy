/**
  Liveness of the execution protocol: no stuck worker, bounded calls.
 */
module ProtocolProgress {
  import opened Wrappers
  import opened Policy
  import opened Columns
  import opened Protocol
  import opened ProtocolInvariant

  /** A worker that wants a resource lock another worker has. */
  predicate Waits(s: State, w: WorkerId) {
    w in s.workers && s.workers[w].phase.Locking? && Lock(s.workers[w]) in s.locks
  }

  lemma Above(ids: set<int>) returns (id: int)
    ensures forall x | x in ids :: x < id
    decreases |ids|
  {
    if x :| x in ids {
      var rest := Above(ids - {x});
      id := if rest > x then rest else x + 1;
      forall y | y in ids ensures y < id { assert y == x || y in ids - {x}; }
    } else {
      id := 0;
    }
  }

  /** A step of its own, other than raising, timing out or crashing, is open to the worker. */
  ghost predicate CanAdvance(s: State, w: WorkerId) {
    || CanInsertRequest(s, w) || CanLoseRace(s, w) || CanPublish(s, w)
    || CanMarkProcessing(s, w) || CanClaim(s, w) || CanConflict(s, w) || CanResolveConflict(s, w)
    || CanRefuse(s, w) || (exists d :: CanPropose(s, w, d, CONFIDENCE_THRESHOLD))
    || CanAcquire(s, w) || CanAssess(s, w) || (exists r :: CanRequestReview(s, w, r))
    || CanTake(s, w) || CanObserve(s, w) || CanEvaluate(s, w) || CanAppend(s, w)
    || CanRecord(s, w) || CanRelease(s, w) || CanSettle(s, w) || CanReport(s, w)
  }

  lemma FreshRows(s: State, w: WorkerId)
    requires Inv(s) && w in s.workers
    requires s.workers[w].phase.Proposing? || s.workers[w].phase.Requesting?
    ensures CanAdvance(s, w)
  {
    assert WorkerOk(s, w, s.workers[w]);
    if s.workers[w].phase.Proposing? {
      var d := Above(s.decisions.Keys);
      assert d !in s.decisions;
      assert CanRefuse(s, w) || CanPropose(s, w, d, CONFIDENCE_THRESHOLD);
    } else {
      var r := Above(s.approvals.Keys);
      assert r !in s.approvals;
      assert CanRequestReview(s, w, r);
    }
  }

  lemma TakenBy(s: State, d: DecisionId)
    requires Inv(s) && d in s.decisions && s.decisions[d].proposer in s.workers
    ensures var row := s.decisions[d];
            row.executor.None? || row.executor == Some(row.proposer) || s.workers[row.proposer].asked
  {
    var row := s.decisions[d];
    assert DecisionOk(s, row, d);
    if row.executor.Some? {
      var x := row.executor.value;
      assert WorkerOk(s, x, s.workers[x]);
      if s.workers[x].kind.Approver? {
        assert ApprovalOk(s, s.approvals[s.workers[x].kind.approval]);
      }
    }
  }

  /** Nobody else can take the decision of a proposer that is about to execute it. */
  lemma ProposerCanTake(s: State, w: WorkerId)
    requires Inv(s) && w in s.workers && s.workers[w].phase.Taking? && !s.workers[w].kind.Approver?
    ensures CanTake(s, w)
  {
    var k := s.workers[w];
    assert WorkerOk(s, w, k);
    TakenBy(s, k.decision.value);
    assert DecisionOk(s, s.decisions[k.decision.value], k.decision.value);
  }

  /** A new price too large for its column: the event store refuses the event. */
  predicate Overflows(k: Worker) {
    && k.phase.Appending? && k.action.PriceChange? && k.action.newPrice.Number?
    && Cents(k.action.newPrice.value) >= COLUMN_LIMIT
  }

  lemma ProposerCanAppend(s: State, w: WorkerId)
    requires Inv(s) && w in s.workers && s.workers[w].phase.Appending? && !s.workers[w].kind.Approver?
    ensures CanAppend(s, w) <==> !Overflows(s.workers[w])
  {
    var k := s.workers[w];
    assert WorkerOk(s, w, k);
    AutonomousExactly(k.action, Number(s.decisions[k.decision.value].confidence), k.current);
  }

  /** A change that can be made: of an entity that is there, to a figure its column holds; an item only removed. */
  predicate Applicable(values: map<Slot, real>, tenant: int, action: Action) {
    match action
    case PriceChange(item, Number(v)) => MenuPrice(tenant, item) in values && v >= 0.0 && Cents(v) < COLUMN_LIMIT
    case SupplierSwitch(ingredient, Number(v)) =>
      IngredientPrice(tenant, ingredient) in values && v >= 0.0 && Cents(v) < COLUMN_LIMIT
    case MenuSwap(item, change) => change == "remove" && MenuPrice(tenant, item) in values
    case StaffingChange(_) => true
    case _ => false
  }

  lemma ApplicableIff(values: map<Slot, real>, tenant: int, action: Action)
    ensures CanApply(values, tenant, action) <==> Applicable(values, tenant, action)
  {
    hide Cents;
  }

  /**
    A check turns the execution away: the approved path finds its decision taken, or a change
    that cannot be applied; the proposing path only a price that its column cannot hold.
   */
  predicate TurnedAway(s: State, w: WorkerId)
    requires w in s.workers
  {
    var k := s.workers[w];
    || (k.kind.Approver? && k.phase.Taking? && k.decision.Some? && k.decision.value in s.decisions
        && !s.decisions[k.decision.value].status.Simulated?)
    || (k.kind.Approver? && k.phase.Appending? && !Applicable(s.values, k.key.tenant, k.action))
    || (!k.kind.Approver? && Overflows(k))
  }

  lemma ApproverCanGoOn(s: State, w: WorkerId)
    requires Inv(s) && w in s.workers && s.workers[w].kind.Approver?
    requires s.workers[w].phase.Taking? || s.workers[w].phase.Appending?
    ensures CanTake(s, w) || CanAppend(s, w) <==> !TurnedAway(s, w)
  {
    ApplicableIff(s.values, s.workers[w].key.tenant, s.workers[w].action);
    hide CanApply, Applicable;
    var k := s.workers[w];
    assert WorkerOk(s, w, k);
    assert DecisionOk(s, s.decisions[k.decision.value], k.decision.value);
  }

  lemma LockingAdvances(s: State, w: WorkerId)
    requires w in s.workers && s.workers[w].phase.Locking?
    ensures CanAdvance(s, w) <==> !Waits(s, w)
    ensures !TurnedAway(s, w)
  {
  }

  lemma OthersAdvance(s: State, w: WorkerId)
    requires Inv(s) && w in s.workers && !s.workers[w].phase.Done?
    requires var p := s.workers[w].phase;
             !p.Proposing? && !p.Requesting? && !p.Taking? && !p.Appending? && !p.Locking?
    ensures CanAdvance(s, w) && !Waits(s, w) && !TurnedAway(s, w)
  {
    assert WorkerOk(s, w, s.workers[w]);
    hide Inv, WorkersOk, CanApply, Applicable, KeyTaken;
  }

  /** At the two checks, nothing but taking or appending is open. */
  lemma OnlyTheCheck(s: State, w: WorkerId)
    requires w in s.workers && (s.workers[w].phase.Taking? || s.workers[w].phase.Appending?)
    ensures CanAdvance(s, w) <==> CanTake(s, w) || CanAppend(s, w)
    ensures !Waits(s, w) && CanRaise(s, w)
  {
    hide CanApply, Applicable;
  }

  /**
    In every reachable state a worker that is not done can take its next step exactly when it
    neither waits for a lock nor is turned away by a check; and one that is turned away raises.
   */
  lemma NoWorkerIsStuck(prices: map<Slot, real>, schedule: seq<Label>, w: WorkerId)
    ensures var s := Run(Start(prices), schedule);
      w in s.workers && !s.workers[w].phase.Done? ==>
        && (CanAdvance(s, w) <==> !Waits(s, w) && !TurnedAway(s, w))
        && (TurnedAway(s, w) ==> CanRaise(s, w))
  {
    StartKeeps(prices);
    RunKeeps(Start(prices), schedule);
    var s := Run(Start(prices), schedule);
    hide Run, Inv, CanAdvance, CanApply, Applicable;
    if w in s.workers && !s.workers[w].phase.Done? {
      var p := s.workers[w].phase;
      if p.Proposing? || p.Requesting? {
        FreshRows(s, w);
      } else if p.Taking? || p.Appending? {
        OnlyTheCheck(s, w);
        if s.workers[w].kind.Approver? {
          ApproverCanGoOn(s, w);
        } else if p.Taking? {
          ProposerCanTake(s, w);
        } else {
          ProposerCanAppend(s, w);
        }
      } else if p.Locking? {
        LockingAdvances(s, w);
      } else {
        OthersAdvance(s, w);
      }
    }
  }

  /** Two calls that want the same thing of one tenant: an item's price, a menu item, an ingredient, or its staff. */
  predicate Contend(k: Worker, x: Worker) {
    k.key.tenant == x.key.tenant &&
    match (k.action, x.action)
    case (PriceChange(item, _), PriceChange(other, _)) => item == other
    case (MenuSwap(item, _), MenuSwap(other, _)) => item == other
    case (SupplierSwitch(ingredient, _), SupplierSwitch(other, _)) => ingredient == other
    case (StaffingChange(_), StaffingChange(_)) => true
    case _ => false
  }

  lemma ContendIff(k: Worker, x: Worker)
    ensures Lock(k) == Lock(x) <==> Contend(k, x)
  {
  }

  /** A call waits exactly while another one that contends with it holds its lock; no other call is in its way. */
  lemma WaitsIff(prices: map<Slot, real>, schedule: seq<Label>, w: WorkerId)
    ensures var s := Run(Start(prices), schedule);
      w in s.workers && s.workers[w].phase.Locking? ==>
        (Waits(s, w) <==> exists x | x in s.workers ::
                            x != w && Contend(s.workers[w], s.workers[x]) && Holds(s, x, s.workers[x]))
  {
    StartKeeps(prices);
    RunKeeps(Start(prices), schedule);
    var s := Run(Start(prices), schedule);
    hide Run, WorkersOk, HistoryOk, RequestsOk, Contend, Lock;
    if w in s.workers && s.workers[w].phase.Locking? {
      if Waits(s, w) {
        var x := s.locks[Lock(s.workers[w])];
        assert LockOk(s, Lock(s.workers[w]), x);
        ContendIff(s.workers[w], s.workers[x]);
        assert x in s.workers && Holds(s, x, s.workers[x]);
      }
      forall x | x in s.workers && Contend(s.workers[w], s.workers[x]) && Holds(s, x, s.workers[x])
        ensures Waits(s, w)
      {
        ContendIff(s.workers[w], s.workers[x]);
      }
    }
  }

  /** How many labels of a schedule actually move a worker. */
  function Turns(s: State, schedule: seq<Label>, w: WorkerId): nat
    decreases |schedule|
  {
    if schedule == [] then 0
    else
      var before := schedule[..|schedule| - 1];
      Turns(s, before, w)
      + if w in Run(s, before).workers && w in Run(s, schedule).workers
           && Run(s, schedule).workers[w] != Run(s, before).workers[w] then 1 else 0
  }

  /** A step that moves a worker uses up one of its remaining ones. */
  lemma TurnCosts(s: State, move: Label, w: WorkerId)
    requires Inv(s) && w in s.workers
    ensures w in Step(s, move).workers
    ensures Step(s, move).workers[w] == s.workers[w]
            || Remaining(Step(s, move).workers[w]) < Remaining(s.workers[w])
  {
    StepKeeps(s, move);
    hide Step, Inv, Remaining, TablesGrow, LocksKept;
  }

  lemma RemainingIsBounded(k: Worker)
    ensures Remaining(k) <= 18
  {
  }

  /** Every call is over after at most 18 steps of its own, however long others keep running. */
  lemma {:induction false} CallsAreBounded(s: State, schedule: seq<Label>, w: WorkerId)
    requires Inv(s) && w in s.workers
    ensures w in Run(s, schedule).workers
    ensures Turns(s, schedule, w) + Remaining(Run(s, schedule).workers[w]) <= Remaining(s.workers[w]) <= 18
    decreases |schedule|
  {
    hide Step, Inv, Remaining;
    RemainingIsBounded(s.workers[w]);
    if schedule != [] {
      var before, last := schedule[..|schedule| - 1], schedule[|schedule| - 1];
      CallsAreBounded(s, before, w);
      RunKeeps(s, before);
      TurnCosts(Run(s, before), last, w);
    }
  }
}
