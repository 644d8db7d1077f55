/**
  What becomes of work requests under any delivery schedule: one row per key, at most one event
  per request, and exactly when a request is left in processing for good.
 */
module ProtocolRequests {
  import opened Wrappers
  import opened Policy
  import opened Protocol
  import opened ProtocolInvariant
  import opened ProtocolTheorems
  import opened ProtocolHistory

  /** Published messages name committed rows; a tenant's key has one row. */
  lemma EveryMessageNamesARow(prices: map<Slot, real>, schedule: seq<Label>)
    ensures var s := Run(Start(prices), schedule);
      && OneRowPerKey(s.requests)
      && PublishedOk(s.requests, s.published)
  {
    StartKeeps(prices);
    RunKeeps(Start(prices), schedule);
  }

  /** The event executes a decision that a handler of this request proposed. */
  predicate CausedBy(s: State, e: AgentEvent, r: RowId) {
    && e.decision in s.decisions && s.decisions[e.decision].proposer in s.workers
    && s.workers[s.decisions[e.decision].proposer].kind == Handler(r)
  }

  /**
    However often its message is delivered, and whoever approves what it proposed, a request
    causes at most one event.
   */
  lemma AtMostOneEventPerRequest(prices: map<Slot, real>, schedule: seq<Label>, r: RowId)
    ensures var s := Reach(prices, schedule);
            forall i, j | 0 <= i < |s.events| && 0 <= j < |s.events| ::
              CausedBy(s, s.events[i], r) && CausedBy(s, s.events[j], r) ==> i == j
  {
    AtMostOncePerKey(prices, schedule);
    Reachable(prices, schedule);
    hide Inv, Run;
    var s := Reach(prices, schedule);
    forall i, j | 0 <= i < |s.events| && 0 <= j < |s.events|
                  && CausedBy(s, s.events[i], r) && CausedBy(s, s.events[j], r)
      ensures i == j
    {
      HandlerHasTheKey(s, s.decisions[s.events[i].decision].proposer, r);
      HandlerHasTheKey(s, s.decisions[s.events[j].decision].proposer, r);
    }
  }

  lemma HandlerHasTheKey(s: State, w: WorkerId, r: RowId)
    requires Inv(s) && w in s.workers && s.workers[w].kind == Handler(r)
    ensures r in s.requests && Asks(s.requests[r], s.workers[w])
  {
    assert WorkerOk(s, w, s.workers[w]);
  }

  // ------------------------------------------------------------ left in processing

  predicate Handles(s: State, w: WorkerId, r: RowId) {
    w in s.workers && s.workers[w].kind == Handler(r) && !s.workers[w].phase.Done?
  }

  ghost predicate Attended(s: State, r: RowId) { exists w :: Handles(s, w, r) }

  ghost predicate Stuck(s: State, r: RowId) {
    r in s.requests && s.requests[r].status.Processing? && !Attended(s, r)
  }

  lemma StuckStep(s: State, s': State, w: WorkerId, r: RowId)
    requires Stuck(s, r) && Grows(s, s', w)
    ensures Stuck(s', r)
  {
    assert !Handles(s, w, r);
    forall x ensures !Handles(s', x, r) {
      assert !Handles(s, x, r);
      if x in s.workers && x != w { assert s'.workers[x] == s.workers[x]; }
    }
  }

  /** A stuck request stays in processing under every schedule, redelivery of its message included. */
  lemma {:induction false} StuckForever(s: State, schedule: seq<Label>, r: RowId)
    requires Inv(s) && Stuck(s, r)
    ensures Stuck(Run(s, schedule), r)
    decreases |schedule|
  {
    hide Inv, Stuck, Step, Grows;
    if schedule != [] {
      var before, last := schedule[..|schedule| - 1], schedule[|schedule| - 1];
      StuckForever(s, before, r);
      RunKeeps(s, before);
      StepKeeps(Run(s, before), last);
      if Run(s, schedule) != Run(s, before) { StuckStep(Run(s, before), Run(s, schedule), Mover(last), r); }
    }
  }

  /** The two ways of ending a handler that write no status. */
  predicate LeavesProcessing(k: Worker, move: Label) {
    move.Crash? || (move.Report? && move.transient && k.outcome.Raised?)
  }

  /** The step takes the handler of a request to its end. */
  predicate EndsHandler(s: State, move: Label, r: RowId) {
    && !move.Resolve? && Handles(s, move.w, r) && move.w in Step(s, move).workers
    && Step(s, move).workers[move.w].phase.Done?
  }

  lemma HandlersEndBy(s: State, move: Label, r: RowId)
    requires EndsHandler(s, move, r)
    ensures move.Crash? || (move.Report? && CanReport(s, move.w))
  {
    if IsIntake(move) {
      hide StepBookkeeping, StepDeciding, StepExecuting;
    } else if IsBookkeeping(move) {
      hide StepIntake, StepDeciding, StepExecuting;
    } else if IsDeciding(move) {
      DecidingEndsNoHandler(s, move, r);
    } else {
      ExecutingEndsByCrash(s, move, r);
    }
  }

  lemma DecidingEndsNoHandler(s: State, move: Label, r: RowId)
    requires IsDeciding(move)
    ensures !EndsHandler(s, move, r)
  {
    hide StepIntake, StepBookkeeping, StepExecuting;
  }

  lemma ExecutingEndsByCrash(s: State, move: Label, r: RowId)
    requires IsExecuting(move) && EndsHandler(s, move, r)
    ensures move.Crash?
  {
    hide StepIntake, StepBookkeeping, StepDeciding, Freed, Applied, CanApply;
  }

  lemma CrashKeepsRequests(s: State, w: WorkerId)
    ensures Step(s, Crash(w)).requests == s.requests
  {
    hide StepIntake, StepBookkeeping, StepDeciding, Freed;
  }

  lemma ReportWrites(s: State, w: WorkerId, transient: bool)
    requires CanReport(s, w)
    ensures Step(s, Report(w, transient)) == AfterReport(s, w, transient)
  {
    hide StepBookkeeping, StepDeciding, StepExecuting, AfterReport;
  }

  /**
    The step that ends the handler of a request in processing leaves it there exactly when the
    handler crashed or reports an exception it takes to be transient; otherwise the request ends
    as its outcome says.
   */
  lemma LeftInProcessingIff(s: State, move: Label, r: RowId)
    requires Inv(s) && r in s.requests && s.requests[r].status.Processing? && EndsHandler(s, move, r)
    ensures r in Step(s, move).requests
    ensures Step(s, move).requests[r].status.Processing? <==> LeavesProcessing(s.workers[move.w], move)
    ensures !LeavesProcessing(s.workers[move.w], move) ==>
              Step(s, move).requests[r].status == if s.workers[move.w].outcome.Reports() then Finished else Unsuccessful
  {
    HandlersEndBy(s, move, r);
    hide Inv, Step;
    if move.Crash? {
      CrashKeepsRequests(s, move.w);
    } else {
      ReportWrites(s, move.w, move.transient);
    }
  }

  /**
    A request becomes stuck exactly when the last handler of a request in processing ends in one
    of those two ways.
   */
  lemma BecomesStuckIff(s: State, move: Label, r: RowId)
    requires Inv(s) && !Stuck(s, r)
    ensures Stuck(Step(s, move), r)
            <==> r in s.requests && s.requests[r].status.Processing? && EndsHandler(s, move, r)
                 && LeavesProcessing(s.workers[move.w], move)
                 && (forall x | x != move.w :: !Handles(s, x, r))
  {
    hide Step, Inv, Stuck;
    if Stuck(Step(s, move), r) {
      StuckByAnEnd(s, move, r);
    } else if r in s.requests && s.requests[r].status.Processing? && EndsHandler(s, move, r)
              && LeavesProcessing(s.workers[move.w], move) && (forall x | x != move.w :: !Handles(s, x, r)) {
      EndOfTheLast(s, move, r);
    }
  }

  lemma StuckByAnEnd(s: State, move: Label, r: RowId)
    requires Inv(s) && !Stuck(s, r) && Stuck(Step(s, move), r)
    ensures r in s.requests && s.requests[r].status.Processing? && EndsHandler(s, move, r)
    ensures LeavesProcessing(s.workers[move.w], move)
    ensures forall x | x != move.w :: !Handles(s, x, r)
  {
    var s' := Step(s, move);
    StepKeeps(s, move);
    hide Step, Inv, EndsHandler, Handles, Grows;
    NewlyProcessing(s, move, r);
    StuckNeedsAnEnd(s, s', Mover(move), r);
    NobodyElse(s, s', Mover(move), r);
    if move.Resolve? {
      ResolveKeepsWorkers(s, move);
      SameHandlers(s, s', r);
    } else {
      EndOfHandler(s, move, r);
      LeftInProcessingIff(s, move, r);
    }
  }

  lemma SameHandlers(s: State, s': State, r: RowId)
    requires s'.workers == s.workers
    ensures Attended(s, r) <==> Attended(s', r)
  {
    if w :| Handles(s, w, r) { assert Handles(s', w, r); }
    if w :| Handles(s', w, r) { assert Handles(s, w, r); }
  }

  lemma EndOfTheLast(s: State, move: Label, r: RowId)
    requires Inv(s) && r in s.requests && s.requests[r].status.Processing? && EndsHandler(s, move, r)
    requires LeavesProcessing(s.workers[move.w], move) && (forall x | x != move.w :: !Handles(s, x, r))
    ensures Stuck(Step(s, move), r)
  {
    var s' := Step(s, move);
    StepKeeps(s, move);
    LeftInProcessingIff(s, move, r);
    hide Step, Inv, Grows;
    if Attended(s', r) {
      var x :| Handles(s', x, r);
      StillHandles(s, s', move.w, x, r);
    }
  }

  lemma EndOfHandler(s: State, move: Label, r: RowId)
    requires !move.Resolve? && Handles(s, move.w, r) && move.w in Step(s, move).workers
    requires Step(s, move).workers[move.w].phase.Done?
    ensures EndsHandler(s, move, r)
  {
    hide Step;
  }

  lemma StillHandles(s: State, s': State, w: WorkerId, x: WorkerId, r: RowId)
    requires Grows(s, s', w) && w in s.workers && Handles(s', x, r) && !Handles(s', w, r)
    ensures x != w && Handles(s, x, r)
  {
  }

  lemma NobodyElse(s: State, s': State, w: WorkerId, r: RowId)
    requires Grows(s, s', w) && !Attended(s', r)
    ensures forall x | x != w :: !Handles(s, x, r)
  {
    forall x | x != w ensures !Handles(s, x, r) { assert !Handles(s', x, r); }
  }

  /** Whoever moves a request to processing is its live handler. */
  lemma NewlyProcessing(s: State, move: Label, r: RowId)
    requires r in Step(s, move).requests && Step(s, move).requests[r].status.Processing?
    ensures (r in s.requests && s.requests[r].status.Processing?) || Attended(Step(s, move), r)
  {
    if IsIntake(move) {
      hide StepBookkeeping, StepDeciding, StepExecuting;
      if move.MarkProcessing? && CanMarkProcessing(s, move.w) && s.workers[move.w].kind.request == r {
        assert Handles(Step(s, move), move.w, r);
      }
    } else if IsBookkeeping(move) {
      hide StepIntake, StepDeciding, StepExecuting;
    } else if IsDeciding(move) {
      DecidingKeepsRequests(s, move);
    } else {
      ExecutingKeepsRequests(s, move);
    }
  }

  lemma DecidingKeepsRequests(s: State, move: Label)
    requires IsDeciding(move)
    ensures Step(s, move).requests == s.requests
  {
    hide StepIntake, StepBookkeeping, StepExecuting;
  }

  lemma ExecutingKeepsRequests(s: State, move: Label)
    requires IsExecuting(move)
    ensures Step(s, move).requests == s.requests
  {
    hide StepIntake, StepBookkeeping, StepDeciding, Freed, Applied, CanApply;
  }

  lemma StuckNeedsAnEnd(s: State, s': State, w: WorkerId, r: RowId)
    requires Grows(s, s', w) && Attended(s, r) && !Attended(s', r)
    ensures Handles(s, w, r) && w in s'.workers && s'.workers[w].phase.Done?
  {
    var x :| Handles(s, x, r);
    assert !Handles(s', x, r);
  }

  // ------------------------------------------------------------ a request that gets stuck

  const REQUEST := 10
  const MESSAGE := Message(0, REQUEST)

  const SUBMISSION: seq<Label> := [Submit(1, KEY, MENU_ADD, REQUEST), InsertRequest(1), Publish(1)]
  const PICKUP: seq<Label> := [Deliver(2, MESSAGE, 7), MarkProcessing(2, true), Claim(2, 0)]
  const FAILURE: seq<Label> := [Raise(2), Settle(2), Report(2, true)]

  lemma RunThree(s: State, a: Label, b: Label, c: Label)
    ensures Run(s, [a, b, c]) == Step(Step(Step(s, a), b), c)
  {
    hide Step;
    assert [a, b, c] == [a] + [b, c];
    RunFirst(s, a, [b, c]);
    RunTwo(Step(s, a), b, c);
  }

  predicate Waiting(s: State) {
    && REQUEST in s.requests && s.requests[REQUEST] == WorkRow(KEY, MENU_ADD, Queued)
    && s.workers.Keys == {1} && s.workers[1].kind == Submitter(REQUEST) && s.keys == map[] && s.locks == map[]
    && MESSAGE in s.published
  }

  predicate PickedUp(s: State) {
    && REQUEST in s.requests && s.requests[REQUEST].status == Processing
    && s.workers.Keys == {1, 2} && s.workers[1].kind == Submitter(REQUEST)
    && s.workers[2].kind == Handler(REQUEST) && s.workers[2].phase.Proposing? && s.workers[2].key == KEY
  }

  lemma SubmissionIsQueued(s: State)
    requires s == Start(map[])
    ensures Waiting(Run(s, SUBMISSION))
  {
    hide StepBookkeeping, StepDeciding, StepExecuting;
    RunThree(s, SUBMISSION[0], SUBMISSION[1], SUBMISSION[2]);
    var s1 := Step(s, SUBMISSION[0]);
    assert s1 == AfterSubmit(s, 1, KEY, MENU_ADD, REQUEST);
    var s2 := Step(s1, SUBMISSION[1]);
    assert s2 == AfterInsertRequest(s1, 1);
  }

  lemma PickupIsClaimed(s: State)
    requires Waiting(s)
    ensures PickedUp(Run(s, PICKUP))
  {
    hide StepDeciding, StepExecuting;
    RunThree(s, PICKUP[0], PICKUP[1], PICKUP[2]);
    var s1 := Step(s, PICKUP[0]);
    assert s1 == AfterDeliver(s, 2, MESSAGE, 7);
    var s2 := Step(s1, PICKUP[1]);
    assert s2 == AfterMarkProcessing(s1, 2, true);
    assert Step(s2, PICKUP[2]) == AfterClaim(s2, 2, 0);
  }

  /** The handler has raised; it has its key to settle, then its request to report. */
  predicate Failing(s: State, phase: Phase) {
    && REQUEST in s.requests && s.requests[REQUEST].status == Processing
    && s.workers.Keys == {1, 2} && s.workers[1].kind == Submitter(REQUEST)
    && s.workers[2].kind == Handler(REQUEST) && s.workers[2].phase == phase && s.workers[2].outcome.Raised?
  }

  lemma RaisedIsFailing(s: State)
    requires PickedUp(s)
    ensures Failing(Step(s, Raise(2)), Settling)
  {
    hide StepIntake, StepBookkeeping, StepDeciding, Freed;
    assert CanRaise(s, 2);
  }

  lemma SettledIsFailing(s: State)
    requires Failing(s, Settling)
    ensures Failing(Step(s, Settle(2)), Reporting)
  {
    hide StepIntake, StepDeciding, StepExecuting, Finish;
    assert CanSettle(s, 2);
  }

  lemma ReportedIsStuck(s: State)
    requires Failing(s, Reporting)
    ensures Stuck(Step(s, Report(2, true)), REQUEST)
  {
    hide StepBookkeeping, StepDeciding, StepExecuting;
    assert CanReport(s, 2);
    forall w ensures !Handles(Step(s, Report(2, true)), w, REQUEST) { }
  }

  lemma FailureLeavesIt(s: State)
    requires PickedUp(s)
    ensures Stuck(Run(s, FAILURE), REQUEST)
  {
    hide Step, Failing, PickedUp, Stuck;
    RunThree(s, FAILURE[0], FAILURE[1], FAILURE[2]);
    RaisedIsFailing(s);
    SettledIsFailing(Step(s, FAILURE[0]));
    ReportedIsStuck(Step(Step(s, FAILURE[0]), FAILURE[1]));
  }

  /** Submitted, published, delivered, claimed; then one transient exception: nobody will ever finish it. */
  lemma TransientFailureIsNeverRetried(more: seq<Label>)
    ensures MESSAGE in Run(Start(map[]), SUBMISSION).published
    ensures Stuck(Run(Start(map[]), SUBMISSION + PICKUP + FAILURE + more), REQUEST)
  {
    hide Step, Stuck, Inv;
    var start, all := Start(map[]), SUBMISSION + PICKUP + FAILURE;
    SubmissionIsQueued(start);
    RunConcat(start, SUBMISSION, PICKUP);
    PickupIsClaimed(Run(start, SUBMISSION));
    RunConcat(start, SUBMISSION + PICKUP, FAILURE);
    FailureLeavesIt(Run(start, SUBMISSION + PICKUP));
    StartKeeps(map[]);
    RunKeeps(start, all);
    StuckForever(Run(start, all), more, REQUEST);
    RunConcat(start, all, more);
  }
}
