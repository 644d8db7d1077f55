/**
  What an idempotency key is for: the call that wins it leaves its outcome in the row, and every
  later call of the same request gets that outcome back.
 */
module ProtocolReplays {
  import opened Wrappers
  import opened Policy
  import opened Protocol
  import opened ProtocolInvariant
  import opened ProtocolTheorems
  import opened ProtocolHistory

  // ---------------------------------------------------------------- the row waits for its owner

  /** A call that has its key and is not settled yet. */
  predicate AtWork(s: State, w: WorkerId) {
    w in s.workers && !s.workers[w].kind.Approver? && Working(s.workers[w].phase)
  }

  predicate AwaitsOwner(s: State, key: Key) { key in s.keys && s.keys[key].status.InProgress? }

  /** Nobody but its owner, or the write of a stale read, moves a row that is in progress. */
  lemma OthersSpareTheRow(s: State, move: Label, w: WorkerId)
    requires Inv(s) && AtWork(s, w) && (move.Resolve? || move.w != w) && AwaitsOwner(s, s.workers[w].key)
    ensures AwaitsOwner(Step(s, move), s.workers[w].key) || AbandonsKey(s, move, s.workers[w].key)
  {
    hide Step;
    assert WorkerOk(s, w, s.workers[w]);
    if move.Claim? || move.ResolveConflict? {
      ClaimsSpareTheRow(s, move, s.workers[w].key);
    } else if move.Settle? {
      if CanSettle(s, move.w) { assert WorkerOk(s, move.w, s.workers[move.w]); }
      hide Inv, WorkerOk;
      SettlesOwnRow(s, move.w, s.workers[w].key);
    } else {
      OthersKeepKeys(s, move);
    }
  }

  lemma ClaimsSpareTheRow(s: State, move: Label, key: Key)
    requires (move.Claim? || move.ResolveConflict?) && AwaitsOwner(s, key)
    ensures AwaitsOwner(Step(s, move), key) || AbandonsKey(s, move, key)
  {
    hide StepIntake, StepDeciding, StepExecuting, ConflictOutcome;
  }

  lemma SettlesOwnRow(s: State, w: WorkerId, key: Key)
    requires AwaitsOwner(s, key) && (CanSettle(s, w) ==> s.workers[w].key != key)
    ensures AwaitsOwner(Step(s, Settle(w)), key)
  {
    hide StepIntake, StepDeciding, StepExecuting;
  }

  /** Work begins with the insert; from then on until the settling this worker's steps leave all keys alone. */
  predicate WorksOn(s: State, t: State, w: WorkerId) {
    AtWork(t, w) ==>
      || t == s
      || AwaitsOwner(t, t.workers[w].key)
      || (AtWork(s, w) && t.workers[w].key == s.workers[w].key && t.keys == s.keys)
  }

  lemma MoverWorksOn(s: State, move: Label)
    requires Inv(s) && !move.Resolve?
    ensures WorksOn(s, Step(s, move), move.w)
  {
    if move.Claim? {
      ClaimBeginsWork(s, move.w, move.now);
      hide Step, Inv, AwaitsOwner;
    } else if IsBookkeeping(move) {
      ConflictIsNoWork(s, move);
      hide Step, Inv, AwaitsOwner, AtWork;
    } else {
      OthersKeepKeys(s, move);
      StepKeeps(s, move);
      hide Step, Inv, AwaitsOwner, TablesGrow, LocksKept, Remaining;
      if IsIntake(move) {
        IntakeIsNoWork(s, move);
      } else if move.ExecuteApproved? || move.Crash? {
        NoCallAtWork(s, move);
      } else {
        WorkIsNeeded(s, move);
      }
    }
  }

  lemma ClaimBeginsWork(s: State, w: WorkerId, now: int)
    ensures Step(s, Claim(w, now)) == s
            || (w in Step(s, Claim(w, now)).workers
                && AwaitsOwner(Step(s, Claim(w, now)), Step(s, Claim(w, now)).workers[w].key))
  {
    hide StepIntake, StepDeciding, StepExecuting;
  }

  lemma ConflictIsNoWork(s: State, move: Label)
    requires move.Conflict? || move.ResolveConflict? || move.Settle?
    ensures Step(s, move) == s || !AtWork(Step(s, move), move.w)
  {
    hide StepIntake, StepDeciding, StepExecuting, ConflictOutcome, Finish, Abandon, IsStale;
  }

  lemma IntakeIsNoWork(s: State, move: Label)
    requires IsIntake(move)
    ensures Step(s, move) == s || !AtWork(Step(s, move), move.w)
  {
    hide StepBookkeeping, StepDeciding, StepExecuting, KeyTaken, SetStatus;
  }

  lemma NoCallAtWork(s: State, move: Label)
    requires move.ExecuteApproved? || move.Crash?
    ensures Step(s, move) == s || !AtWork(Step(s, move), move.w)
  {
    hide StepIntake, StepBookkeeping;
  }

  /** Deciding and executing take a worker that is at work already. */
  lemma WorkIsNeeded(s: State, move: Label)
    requires !IsIntake(move) && !IsBookkeeping(move) && !move.ExecuteApproved? && !move.Crash?
    ensures Step(s, move) == s || (move.w in s.workers && Working(s.workers[move.w].phase))
  {
    hide StepIntake, StepBookkeeping, AfterRefuse, AfterPropose, AfterAcquire, AfterTimeOut, AfterAssess,
         AfterRequestReview, AfterTake, AfterObserve, AfterEvaluate, AfterAppend, AfterRecord, AfterRelease, AfterRaise,
         CanApply;
  }

  /** In every reachable state the row of a call at work is in progress, unless a stale write has hit it. */
  lemma {:induction false} RowWaitsForOwner(prices: map<Slot, real>, schedule: seq<Label>, w: WorkerId)
    ensures var s := Reach(prices, schedule);
            AtWork(s, w) ==>
              AwaitsOwner(s, s.workers[w].key) || Abandoned(Start(prices), schedule, s.workers[w].key)
    decreases |schedule|
  {
    hide Step, Inv, AtWork, AwaitsOwner, AbandonsKey;
    if schedule == [] {
      NobodyAtWork(prices, w);
    } else {
      var before, last := schedule[..|schedule| - 1], schedule[|schedule| - 1];
      var s, t := Reach(prices, before), Reach(prices, schedule);
      RowWaitsForOwner(prices, before, w);
      Reachable(prices, before);
      if AtWork(t, w) {
        OneMoreStepOfWork(s, last, w);
        AbandonedEarlier(Start(prices), schedule, t.workers[w].key);
      }
    }
  }

  lemma OneMoreStepOfWork(s: State, move: Label, w: WorkerId)
    requires Inv(s) && AtWork(Step(s, move), w)
    ensures w in Step(s, move).workers
    ensures var key := Step(s, move).workers[w].key;
            || AwaitsOwner(Step(s, move), key) || AbandonsKey(s, move, key)
            || (AtWork(s, w) && w in s.workers && s.workers[w].key == key && !AwaitsOwner(s, key))
  {
    hide Step, Inv, AwaitsOwner, AbandonsKey;
    if !move.Resolve? && move.w == w {
      MoverWorksOn(s, move);
      SameKeysWait(s, Step(s, move), Step(s, move).workers[w].key);
    } else {
      OthersKept(s, move, w);
      if AwaitsOwner(s, s.workers[w].key) { OthersSpareTheRow(s, move, w); }
    }
  }

  lemma SameKeysWait(s: State, t: State, key: Key)
    ensures t.keys == s.keys ==> (AwaitsOwner(t, key) <==> AwaitsOwner(s, key))
  {
  }

  lemma NobodyAtWork(prices: map<Slot, real>, w: WorkerId)
    ensures !AtWork(Reach(prices, []), w)
  {
  }

  /** What a call leaves in its row when it settles: its outcome, or that it failed. */
  lemma SettlingFills(s: State, w: WorkerId)
    requires CanSettle(s, w) && AwaitsOwner(s, s.workers[w].key)
    ensures var row := AfterSettle(s, w).keys[s.workers[w].key];
            && row.result == s.workers[w].outcome
            && row.status == (if s.workers[w].outcome.Raised? then Failed else Completed)
            && row.fingerprint == s.keys[s.workers[w].key].fingerprint
  {
  }

  // ---------------------------------------------------------------- a row is as old as its claim

  predicate ClaimedIn(schedule: seq<Label>, w: WorkerId, now: int) {
    exists i | 0 <= i < |schedule| :: schedule[i] == Claim(w, now)
  }

  lemma NewRowIsClaimed(s: State, move: Label, key: Key)
    requires key in Step(s, move).keys && key !in s.keys
    ensures move.Claim? && Step(s, move).keys[key].owner == move.w && Step(s, move).keys[key].createdAt == move.now
  {
    if move.Claim? || move.ResolveConflict? || move.Settle? {
      hide StepIntake, StepDeciding, StepExecuting, ConflictOutcome;
    } else {
      OthersKeepKeys(s, move);
      hide Step;
    }
  }

  /** Every row was inserted by its owner, and is dated by the clock of that insert. */
  lemma {:induction false} RowsAreClaimed(prices: map<Slot, real>, schedule: seq<Label>, key: Key)
    ensures var s := Reach(prices, schedule);
            key in s.keys ==> ClaimedIn(schedule, s.keys[key].owner, s.keys[key].createdAt)
    decreases |schedule|
  {
    hide Step, Inv, KeysGrow;
    if schedule != [] {
      var before, last := schedule[..|schedule| - 1], schedule[|schedule| - 1];
      var s, t := Reach(prices, before), Reach(prices, schedule);
      RowsAreClaimed(prices, before, key);
      if key in t.keys && key !in s.keys {
        NewRowIsClaimed(s, last, key);
      } else if key in t.keys {
        Reachable(prices, before);
        RowIsAsOld(s, last, key);
        var i :| 0 <= i < |before| && before[i] == Claim(s.keys[key].owner, s.keys[key].createdAt);
        assert schedule[i] == before[i];
      }
    }
  }

  lemma RowIsAsOld(s: State, move: Label, key: Key)
    requires Inv(s) && key in s.keys
    ensures var t := Step(s, move);
            key in t.keys && t.keys[key].owner == s.keys[key].owner && t.keys[key].createdAt == s.keys[key].createdAt
  {
    RunOne(s, move);
    RunAdvances(s, [move]);
    hide Step, Inv, Run, DecisionsAdvance, ApprovalsGrow;
  }

  // ---------------------------------------------------------------- and later calls get it back

  /** A call of a request whose row is completed: it will answer from the row, or has done so, or died before. */
  predicate Repeats(k: Worker, row: KeyRow) {
    && !k.owned && k.decision.None?
    && match k.phase
       case Submitting => k.outcome.NoOutcome?
       case Publishing => k.outcome.NoOutcome?
       case Fetched => k.outcome.NoOutcome?
       case Claiming => k.outcome.NoOutcome?
       case Conflicted(seen, stale) => k.outcome.NoOutcome? && seen == row && !stale
       case Reporting => k.outcome.InvalidRequest? || k.outcome == Replayed(row.result)
       case Done => k.outcome.NoOutcome? || k.outcome.InvalidRequest? || k.outcome == Replayed(row.result)
       case _ => false
  }

  predicate SameCall(k: Worker, key: Key, row: KeyRow) {
    k.key == key && k.fingerprint == row.fingerprint && !k.kind.Approver?
  }

  predicate RepeatsIfSame(s: State, w: WorkerId, key: Key, row: KeyRow) {
    w in s.workers && SameCall(s.workers[w], key, row) ==> Repeats(s.workers[w], row)
  }

  lemma MoverRepeats(s: State, move: Label, key: Key)
    requires !move.Resolve? && key in s.keys && s.keys[key].status.Completed?
    requires RepeatsIfSame(s, move.w, key, s.keys[key])
    ensures RepeatsIfSame(Step(s, move), move.w, key, s.keys[key])
  {
    hide Step, RepeatsIfSame;
    if IsIntake(move) {
      IntakeRepeats(s, move, key);
    } else if IsBookkeeping(move) {
      BookkeepingRepeats(s, move, key);
    } else if IsDeciding(move) {
      DecidingRepeats(s, move, key);
    } else {
      ExecutingRepeats(s, move, key);
    }
  }

  lemma IntakeRepeats(s: State, move: Label, key: Key)
    requires IsIntake(move) && key in s.keys && RepeatsIfSame(s, move.w, key, s.keys[key])
    ensures RepeatsIfSame(Step(s, move), move.w, key, s.keys[key])
  {
    hide StepBookkeeping, StepDeciding, StepExecuting, KeyTaken, SetStatus;
  }

  lemma BookkeepingRepeats(s: State, move: Label, key: Key)
    requires IsBookkeeping(move) && !move.Resolve? && key in s.keys && s.keys[key].status.Completed?
    requires RepeatsIfSame(s, move.w, key, s.keys[key])
    ensures RepeatsIfSame(Step(s, move), move.w, key, s.keys[key])
  {
    hide StepIntake, StepDeciding, StepExecuting, Finish, Abandon;
  }

  lemma DecidingRepeats(s: State, move: Label, key: Key)
    requires IsDeciding(move) && key in s.keys && RepeatsIfSame(s, move.w, key, s.keys[key])
    ensures RepeatsIfSame(Step(s, move), move.w, key, s.keys[key])
  {
    hide StepIntake, StepBookkeeping, StepExecuting, CriticApproves, ClassifyRisk, CurrentValue;
  }

  lemma ExecutingRepeats(s: State, move: Label, key: Key)
    requires IsExecuting(move) && key in s.keys && RepeatsIfSame(s, move.w, key, s.keys[key])
    ensures RepeatsIfSame(Step(s, move), move.w, key, s.keys[key])
  {
    hide StepIntake, StepBookkeeping, StepDeciding, Freed, Applied, CanApply, CurrentValue;
  }

  /**
    Once a key is completed, no call that comes later with its fingerprint runs anything: each
    answers the stored result, unless it dies first or a stale write hits the key.
   */
  lemma {:induction false} LaterCallsReplay(s: State, schedule: seq<Label>, key: Key, w: WorkerId)
    requires Inv(s) && key in s.keys && s.keys[key].status.Completed? && w !in s.workers
    requires !Abandoned(s, schedule, key)
    ensures RepeatsIfSame(Run(s, schedule), w, key, s.keys[key])
    decreases |schedule|
  {
    hide Step, Inv, AbandonsKey, Repeats;
    if schedule != [] {
      var before, last := schedule[..|schedule| - 1], schedule[|schedule| - 1];
      AbandonedEarlier(s, schedule, key);
      LaterCallsReplay(s, before, key, w);
      CompletedSurvivesRunIff(s, before, key);
      RunKeeps(s, before);
      if !last.Resolve? && last.w == w {
        hide RepeatsIfSame;
        MoverRepeats(Run(s, before), last, key);
      } else {
        OthersKept(Run(s, before), last, w);
      }
    }
  }

  /**
    The law of the key: what the call that won a key has answered, every later call of the same
    request answers, unless a stale write hits the key in between.
   */
  lemma AnswersAreRepeated(prices: map<Slot, real>, before: seq<Label>, after: seq<Label>, v: WorkerId, w: WorkerId)
    requires var s := Reach(prices, before);
             && v in s.workers && s.workers[v].owned && w !in s.workers
             && s.workers[v].key in s.keys && s.keys[s.workers[v].key].status.Completed?
             && !Abandoned(s, after, s.workers[v].key)
    ensures var s, t := Reach(prices, before), Reach(prices, before + after);
            && !s.workers[v].outcome.Raised?
            && (w in t.workers && t.workers[w].key == s.workers[v].key && !t.workers[w].kind.Approver?
                && t.workers[w].fingerprint == s.workers[v].fingerprint ==>
                  && !t.workers[w].owned && t.workers[w].decision.None?
                  && (t.workers[w].outcome.NoOutcome? || t.workers[w].outcome.InvalidRequest?
                      || t.workers[w].outcome == Replayed(s.workers[v].outcome)))
  {
    Reachable(prices, before);
    var s := Reach(prices, before);
    assert WorkerOk(s, v, s.workers[v]);
    CompletedHoldsOutcome(prices, before);
    assert HoldsOutcome(s, s.keys[s.workers[v].key]);
    hide Inv, WorkerOk, ResultsOk, Abandoned;
    RunConcat(Start(prices), before, after);
    LaterCallsReplay(s, after, s.workers[v].key, w);
  }
}
