/**
  The audit log tells what became of every call: whatever a call of the proposing path answers
  after its decision, other than an exception, its log row says the same.
 */
module ProtocolAudit {
  import opened Wrappers
  import opened Policy
  import opened Protocol
  import opened ProtocolInvariant
  import opened ProtocolTheorems
  import opened ProtocolHistory

  /** The row `_log` writes for an outcome: which gates were passed, and whether anything ran. */
  function RowOf(k: Worker, w: WorkerId): Option<LogRow> {
    match k.outcome
    case UnsupportedAction => Some(LogRow(None, w, false, None, false))
    case HeldLowConfidence => Some(LogRow(k.decision, w, false, None, false))
    case ConcurrentChange => Some(LogRow(k.decision, w, true, None, false))
    case BlockedByCritic => Some(LogRow(k.decision, w, true, Some(false), false))
    case PendingApproval => Some(LogRow(k.decision, w, true, Some(true), false))
    case DidExecute => Some(LogRow(k.decision, w, true, Some(true), true))
    case _ => None
  }

  /** From the log row on, until the call is over or dies. */
  predicate HasLogged(p: Phase) { p.Releasing? || p.Settling? || p.Reporting? }

  predicate Audited(s: State, w: WorkerId) {
    w in s.workers && !s.workers[w].kind.Approver? ==>
      var k := s.workers[w];
      && (k.phase.Recording? ==> RowOf(k, w) == Some(k.phase.row))
      && (HasLogged(k.phase) && RowOf(k, w).Some? ==> RowOf(k, w).value in s.log)
  }

  ghost predicate AllAudited(s: State) { forall w :: Audited(s, w) }

  lemma MoverAudited(s: State, move: Label)
    requires !move.Resolve? && Audited(s, move.w)
    ensures Audited(Step(s, move), move.w)
  {
    hide Step, Audited;
    if IsIntake(move) {
      IntakeAudited(s, move);
    } else if IsBookkeeping(move) {
      BookkeepingAudited(s, move);
    } else if IsDeciding(move) {
      DecidingAudited(s, move);
    } else {
      ExecutingAudited(s, move);
    }
  }

  lemma IntakeAudited(s: State, move: Label)
    requires IsIntake(move) && Audited(s, move.w)
    ensures Audited(Step(s, move), move.w)
  {
    hide StepBookkeeping, StepDeciding, StepExecuting, KeyTaken, SetStatus;
  }

  lemma BookkeepingAudited(s: State, move: Label)
    requires IsBookkeeping(move) && !move.Resolve? && Audited(s, move.w)
    ensures Audited(Step(s, move), move.w)
  {
    hide StepIntake, StepDeciding, StepExecuting, Finish, Abandon;
  }

  lemma DecidingAudited(s: State, move: Label)
    requires IsDeciding(move) && Audited(s, move.w)
    ensures Audited(Step(s, move), move.w)
  {
    hide StepIntake, StepBookkeeping, StepExecuting, CriticApproves, ClassifyRisk, CurrentValue;
  }

  lemma ExecutingAudited(s: State, move: Label)
    requires IsExecuting(move) && Audited(s, move.w)
    ensures Audited(Step(s, move), move.w)
  {
    hide StepIntake, StepBookkeeping, StepDeciding, Freed, Applied, CanApply, CurrentValue;
  }

  lemma OtherAudited(s: State, s': State, x: WorkerId)
    requires Audited(s, x) && s.log <= s'.log
    requires x in s'.workers ==> x in s.workers && s'.workers[x] == s.workers[x]
    ensures Audited(s', x)
  {
  }

  lemma StepAudits(s: State, move: Label)
    requires Inv(s) && AllAudited(s)
    ensures AllAudited(Step(s, move))
  {
    var s' := Step(s, move);
    hide Step, Inv, Audited;
    LogGrows(s, move);
    forall w ensures Audited(s', w) {
      assert Audited(s, w);
      if !move.Resolve? && move.w == w {
        MoverAudited(s, move);
      } else {
        OthersKept(s, move, w);
        OtherAudited(s, s', w);
      }
    }
  }

  /**
    In every reachable state, a call that has come past its log row and answers executed,
    pending, blocked, held, busy or unsupported has the row that says so in the audit log.
   */
  lemma {:induction false} AnswersAreLogged(prices: map<Slot, real>, schedule: seq<Label>)
    ensures AllAudited(Run(Start(prices), schedule))
    decreases |schedule|
  {
    hide Step, Audited, Inv;
    if schedule == [] {
      NothingToAudit(prices);
    } else {
      var before := schedule[..|schedule| - 1];
      AnswersAreLogged(prices, before);
      StartKeeps(prices);
      RunKeeps(Start(prices), before);
      StepAudits(Run(Start(prices), before), schedule[|schedule| - 1]);
    }
  }

  lemma NothingToAudit(prices: map<Slot, real>)
    ensures AllAudited(Start(prices))
  {
  }

  // ---------------------------------------------------------------- requests to reviewers

  /** A call that has sent its decision to a reviewer has its request on file. */
  ghost predicate Filed(s: State, w: WorkerId) {
    Asked(s, w) ==> s.workers[w].decision.Some? && HasRequest(s, s.workers[w].decision.value)
  }

  predicate Asked(s: State, w: WorkerId) { w in s.workers && s.workers[w].asked }

  /** No step but the request itself makes a call one that has asked. */
  predicate AsksNobody(s: State, t: State, w: WorkerId) { Asked(t, w) ==> Asked(s, w) }

  lemma OnlyRequestAsks(s: State, move: Label)
    requires !move.Resolve? && !move.RequestReview?
    ensures AsksNobody(s, Step(s, move), move.w)
  {
    hide Step, AsksNobody;
    if IsIntake(move) {
      IntakeAsksNobody(s, move);
    } else if IsBookkeeping(move) {
      BookkeepingAsksNobody(s, move);
    } else if IsDeciding(move) {
      DecidingAsksNobody(s, move);
    } else {
      ExecutingAsksNobody(s, move);
    }
  }

  lemma IntakeAsksNobody(s: State, move: Label)
    requires IsIntake(move)
    ensures AsksNobody(s, Step(s, move), move.w)
  {
    hide StepBookkeeping, StepDeciding, StepExecuting, KeyTaken, SetStatus;
  }

  lemma BookkeepingAsksNobody(s: State, move: Label)
    requires IsBookkeeping(move) && !move.Resolve?
    ensures AsksNobody(s, Step(s, move), move.w)
  {
    hide StepIntake, StepDeciding, StepExecuting, Finish, Abandon;
  }

  lemma DecidingAsksNobody(s: State, move: Label)
    requires IsDeciding(move) && !move.RequestReview?
    ensures AsksNobody(s, Step(s, move), move.w)
  {
    hide StepIntake, StepBookkeeping, StepExecuting, CriticApproves, ClassifyRisk, CurrentValue;
  }

  lemma ExecutingAsksNobody(s: State, move: Label)
    requires IsExecuting(move)
    ensures AsksNobody(s, Step(s, move), move.w)
  {
    hide StepIntake, StepBookkeeping, StepDeciding, Freed, Applied, CanApply, CurrentValue;
  }

  lemma RequestIsFiled(s: State, w: WorkerId, r: RowId)
    requires Filed(s, w)
    ensures Filed(Step(s, RequestReview(w, r)), w)
  {
    hide StepIntake, StepBookkeeping, StepExecuting;
    if CanRequestReview(s, w, r) {
      var t, d := AfterRequestReview(s, w, r), s.workers[w].decision.value;
      if HasRequest(s, d) {
        var q :| q in s.approvals && s.approvals[q].decision == d;
        assert q in t.approvals && t.approvals[q].decision == d;
      } else {
        assert r in t.approvals && t.approvals[r].decision == d;
      }
    }
  }

  lemma RequestStays(s: State, t: State, d: DecisionId)
    requires ApprovalsGrow(s.approvals, t.approvals) && HasRequest(s, d)
    ensures HasRequest(t, d)
  {
    var q :| q in s.approvals && s.approvals[q].decision == d;
    assert q in t.approvals && t.approvals[q].decision == d;
  }

  lemma StaysFiled(s: State, t: State, w: WorkerId)
    requires Filed(s, w) && AsksNobody(s, t, w) && ApprovalsGrow(s.approvals, t.approvals)
    requires w in s.workers && w in t.workers && s.workers[w].decision.Some? ==>
               t.workers[w].decision == s.workers[w].decision
    ensures Filed(t, w)
  {
    hide HasRequest, ApprovalsGrow;
    if w in s.workers && s.workers[w].asked { RequestStays(s, t, s.workers[w].decision.value); }
  }

  lemma KeptApprovals(s: State, move: Label)
    requires Inv(s)
    ensures ApprovalsGrow(s.approvals, Step(s, move).approvals)
  {
    RunOne(s, move);
    RunAdvances(s, [move]);
    hide Step, Inv, Run, KeysGrow, DecisionsAdvance, ApprovalsGrow;
  }

  lemma KeptDecision(s: State, move: Label)
    requires Inv(s) && !move.Resolve? && move.w in s.workers && s.workers[move.w].decision.Some?
    ensures move.w in Step(s, move).workers && Step(s, move).workers[move.w].decision == s.workers[move.w].decision
  {
    StepKeeps(s, move);
    hide Step, Inv, TablesGrow, LocksKept, Remaining;
  }

  lemma StepFiles(s: State, move: Label, w: WorkerId)
    requires Inv(s) && Filed(s, w)
    ensures Filed(Step(s, move), w)
  {
    hide Step, Inv, Filed, ApprovalsGrow;
    KeptApprovals(s, move);
    if !move.Resolve? && move.w == w {
      if w in s.workers && s.workers[w].decision.Some? { KeptDecision(s, move); }
      if move.RequestReview? {
        RequestIsFiled(s, w, move.approval);
      } else {
        OnlyRequestAsks(s, move);
        StaysFiled(s, Step(s, move), w);
      }
    } else {
      OthersKept(s, move, w);
      assert AsksNobody(s, Step(s, move), w);
      StaysFiled(s, Step(s, move), w);
    }
  }

  /** In every reachable state, "pending approval" is answered only with the request on file. */
  lemma ReviewsAreFiled(prices: map<Slot, real>, schedule: seq<Label>, w: WorkerId)
    ensures var s := Reach(prices, schedule);
            w in s.workers && s.workers[w].outcome.PendingApproval? ==>
              s.workers[w].decision.Some? && HasRequest(s, s.workers[w].decision.value)
  {
    AskedIsFiled(prices, schedule, w);
    Reachable(prices, schedule);
    var s := Reach(prices, schedule);
    if w in s.workers { assert WorkerOk(s, w, s.workers[w]); }
    hide Inv, Reach, HasRequest;
  }

  lemma {:induction false} AskedIsFiled(prices: map<Slot, real>, schedule: seq<Label>, w: WorkerId)
    ensures Filed(Reach(prices, schedule), w)
    decreases |schedule|
  {
    hide Step, Filed, Inv;
    if schedule == [] {
      NothingFiled(prices, w);
    } else {
      var before := schedule[..|schedule| - 1];
      AskedIsFiled(prices, before, w);
      Reachable(prices, before);
      StepFiles(Run(Start(prices), before), schedule[|schedule| - 1], w);
    }
  }

  lemma NothingFiled(prices: map<Slot, real>, w: WorkerId)
    ensures Filed(Start(prices), w)
  {
  }
}
