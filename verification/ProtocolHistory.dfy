/**
  Two-state facts of the execution protocol: what a step, and so a run, can never undo;
  and when a completed result survives.
 */
module ProtocolHistory {
  import opened Wrappers
  import opened Policy
  import opened Protocol
  import opened ProtocolInvariant

  predicate DecisionAdvances(row: DecisionRow, row': DecisionRow) {
    && row'.tenant == row.tenant && row'.action == row.action && row'.confidence == row.confidence
    && row'.cleared == row.cleared && row'.proposer == row.proposer
    && row.status.Rank() <= row'.status.Rank()
    && (row.status.Held? ==> row'.status.Held?)
    && (row.executor.Some? ==> row'.executor == row.executor)
  }

  ghost predicate DecisionsAdvance(decisions: map<DecisionId, DecisionRow>, decisions': map<DecisionId, DecisionRow>) {
    forall d | d in decisions :: d in decisions' && DecisionAdvances(decisions[d], decisions'[d])
  }

  /** Owners, fingerprints, decisions, verdicts, events and log rows only ever move forward. */
  ghost predicate Advances(s: State, s': State) {
    && KeysGrow(s.keys, s'.keys)
    && DecisionsAdvance(s.decisions, s'.decisions)
    && ApprovalsGrow(s.approvals, s'.approvals)
    && (forall r | r in s.requests ::
          r in s'.requests && s'.requests[r].key == s.requests[r].key && s'.requests[r].action == s.requests[r].action)
    && s.events <= s'.events
    && s.log <= s'.log
  }

  lemma DecisionMovesOn(s: State, w: WorkerId, d: DecisionId, row': DecisionRow)
    requires d in s.decisions && DecisionOk(s, s.decisions[d], d) && DecisionMoves(s, w, d, s.decisions[d], row')
    ensures DecisionAdvances(s.decisions[d], row')
  {
  }

  lemma DecisionsMoveOn(s: State, s': State, w: WorkerId)
    requires Inv(s) && (s'.decisions == s.decisions || DecisionsGrow(s, s', w))
    ensures DecisionsAdvance(s.decisions, s'.decisions)
  {
    hide DecisionOk, DecisionMoves, WorkersOk, HistoryOk, RequestsOk, DecisionAdvances;
    forall d | d in s.decisions ensures d in s'.decisions && DecisionAdvances(s.decisions[d], s'.decisions[d]) {
      assert DecisionOk(s, s.decisions[d], d);
      if s'.decisions == s.decisions { StandsStill(s, w, d); }
      DecisionMovesOn(s, w, d, s'.decisions[d]);
    }
  }

  lemma StandsStill(s: State, w: WorkerId, d: DecisionId)
    requires d in s.decisions
    ensures DecisionMoves(s, w, d, s.decisions[d], s.decisions[d])
  {
  }

  lemma GrowsAdvances(s: State, s': State, w: WorkerId)
    requires Inv(s) && Grows(s, s', w)
    ensures Advances(s, s')
  {
    DecisionsMoveOn(s, s', w);
    hide Inv, KeysGrow, DecisionsGrow, DecisionsAdvance, ApprovalsGrow, LocksKept, Remaining, AppendedEvent, Applied,
         CanAppend;
  }

  lemma AdvancesTransitive(s: State, t: State, u: State)
    requires Advances(s, t) && Advances(t, u)
    ensures Advances(s, u)
  {
  }

  /**
    Over any run from a reachable state: a key never changes owner or fingerprint, no decision
    status goes backwards, a held decision stays held, a resolved approval keeps its verdict,
    and the event log and the audit log only grow.
   */
  lemma {:induction false} RunAdvances(s: State, schedule: seq<Label>)
    requires Inv(s)
    ensures Advances(s, Run(s, schedule))
    decreases |schedule|
  {
    if schedule != [] {
      var before := schedule[..|schedule| - 1];
      RunAdvances(s, before);
      RunKeeps(s, before);
      var last := schedule[|schedule| - 1];
      StepKeeps(Run(s, before), last);
      if Run(s, schedule) != Run(s, before) {
        GrowsAdvances(Run(s, before), Run(s, schedule), Mover(last));
        AdvancesTransitive(s, Run(s, before), Run(s, schedule));
      }
    }
  }

  /** A step of one worker leaves the records of all others. */
  lemma OthersKept(s: State, move: Label, x: WorkerId)
    requires Inv(s) && (move.Resolve? || move.w != x)
    ensures x in s.workers <==> x in Step(s, move).workers
    ensures x in s.workers ==> Step(s, move).workers[x] == s.workers[x]
  {
    StepKeeps(s, move);
    ResolveKeepsWorkers(s, move);
    hide Step, Inv;
  }

  lemma LogGrows(s: State, move: Label)
    requires Inv(s)
    ensures s.log <= Step(s, move).log
  {
    StepKeeps(s, move);
    hide Step, Inv, KeysGrow, DecisionsGrow, ApprovalsGrow, EventsGrow, RequestsGrow, LocksKept, Remaining;
  }

  lemma OthersKeepKeys(s: State, move: Label)
    requires !move.Claim? && !move.ResolveConflict? && !move.Settle?
    ensures Step(s, move).keys == s.keys
  {
    if IsIntake(move) {
      IntakeKeepsKeys(s, move);
    } else if IsBookkeeping(move) {
      hide StepIntake, StepDeciding, StepExecuting;
    } else if IsDeciding(move) {
      DecidingKeepsKeys(s, move);
    } else {
      ExecutingKeepsKeys(s, move);
    }
  }

  lemma IntakeKeepsKeys(s: State, move: Label)
    requires IsIntake(move)
    ensures Step(s, move).keys == s.keys
  {
    hide StepBookkeeping, StepDeciding, StepExecuting;
  }

  lemma DecidingKeepsKeys(s: State, move: Label)
    requires IsDeciding(move)
    ensures Step(s, move).keys == s.keys
  {
    hide StepIntake, StepBookkeeping, StepExecuting;
  }

  lemma ExecutingKeepsKeys(s: State, move: Label)
    requires IsExecuting(move)
    ensures Step(s, move).keys == s.keys
  {
    hide StepIntake, StepBookkeeping, StepDeciding;
  }

  // ------------------------------------------------------------ verdicts of reviewers

  predicate ResolvedIn(schedule: seq<Label>, r: RowId, approve: bool) {
    exists i | 0 <= i < |schedule| :: schedule[i] == Resolve(r, approve)
  }

  lemma IntakeKeepsApprovals(s: State, move: Label)
    requires IsIntake(move)
    ensures Step(s, move).approvals == s.approvals
  {
    hide StepBookkeeping, StepDeciding, StepExecuting, KeyTaken, SetStatus;
  }

  lemma BookkeepingKeepsApprovals(s: State, move: Label)
    requires IsBookkeeping(move) && !move.Resolve?
    ensures Step(s, move).approvals == s.approvals
  {
    hide StepIntake, StepDeciding, StepExecuting, ConflictOutcome, Finish, Abandon;
  }

  lemma DecidingKeepsApprovals(s: State, move: Label)
    requires IsDeciding(move) && !move.RequestReview?
    ensures Step(s, move).approvals == s.approvals
  {
    hide StepIntake, StepBookkeeping, StepExecuting, CriticApproves, ClassifyRisk, CurrentValue;
  }

  lemma ExecutingKeepsApprovals(s: State, move: Label)
    requires IsExecuting(move)
    ensures Step(s, move).approvals == s.approvals
  {
    hide StepIntake, StepBookkeeping, StepDeciding, Freed, Applied, CanApply, CurrentValue;
  }

  /** A request that is resolved after a step, and was not so before, was resolved by that step. */
  lemma OnlyReviewersResolve(s: State, move: Label, r: RowId)
    requires r in Step(s, move).approvals && !Step(s, move).approvals[r].status.Pending?
    ensures || (r in s.approvals && s.approvals[r].status == Step(s, move).approvals[r].status)
            || move == Resolve(r, Step(s, move).approvals[r].status.Approved?)
  {
    if move.Resolve? {
      hide StepIntake, StepDeciding, StepExecuting;
    } else if move.RequestReview? {
      hide StepIntake, StepBookkeeping, StepExecuting, HasRequest;
    } else if IsIntake(move) {
      IntakeKeepsApprovals(s, move);
      hide Step;
    } else if IsBookkeeping(move) {
      BookkeepingKeepsApprovals(s, move);
      hide Step;
    } else if IsDeciding(move) {
      DecidingKeepsApprovals(s, move);
      hide Step;
    } else {
      ExecutingKeepsApprovals(s, move);
      hide Step;
    }
  }

  /** No request is approved or rejected unless a reviewer has said so. */
  lemma {:induction false} VerdictsAreReviewers(prices: map<Slot, real>, schedule: seq<Label>, r: RowId)
    ensures var approvals := Run(Start(prices), schedule).approvals;
            r in approvals && !approvals[r].status.Pending? ==>
              ResolvedIn(schedule, r, approvals[r].status.Approved?)
    decreases |schedule|
  {
    hide Step;
    if schedule != [] {
      var before, last := schedule[..|schedule| - 1], schedule[|schedule| - 1];
      var s, t := Run(Start(prices), before), Run(Start(prices), schedule);
      VerdictsAreReviewers(prices, before, r);
      if r in t.approvals && !t.approvals[r].status.Pending? {
        OnlyReviewersResolve(s, last, r);
        if r in s.approvals && s.approvals[r].status == t.approvals[r].status {
          var i :| 0 <= i < |before| && before[i] == Resolve(r, s.approvals[r].status.Approved?);
          assert schedule[i] == before[i];
        }
      }
    }
  }

  // ------------------------------------------------------------ completed results

  /** The write of the stale branch of `claim`, for this key. */
  predicate AbandonsKey(s: State, move: Label, key: Key) {
    move.ResolveConflict? && move.w in s.workers
    && s.workers[move.w].phase.Conflicted? && s.workers[move.w].phase.stale
    && s.workers[move.w].key == key
  }

  /**
    A completed row survives a step exactly when the step is not the write of a claim that had
    read the row as stale.
   */
  lemma CompletedSurvivesIff(s: State, move: Label, key: Key)
    requires key in s.keys && s.keys[key].status.Completed?
    ensures key in Step(s, move).keys
    ensures Step(s, move).keys[key] == s.keys[key] <==> !AbandonsKey(s, move, key)
  {
    if move.Claim? {
      if CanClaim(s, move.w) { assert s.workers[move.w].key != key; }
    } else if move.ResolveConflict? {
      if CanResolveConflict(s, move.w) { assert Abandon(s.keys, key)[key].status.Failed?; }
    } else if move.Settle? {
      if CanSettle(s, move.w) { assert Finish(s.keys, key, s.workers[move.w].outcome) == s.keys; }
    } else {
      OthersKeepKeys(s, move);
    }
  }

  const MENU_ADD := MenuSwap("soup", "add")
  const KEY := Key(0, "k")
  const KEY_ROW := KeyRow(7, InProgress, NoOutcome, 0, 1)

  const OWNER_STARTS: seq<Label> := [Call(1, KEY, 7, MENU_ADD), Claim(1, 0)]
  const OWNER_LOGS: seq<Label> := [Refuse(1), Record(1)]
  const RIVAL_READS: seq<Label> := [Call(2, KEY, 7, MENU_ADD), Conflict(2, STALE_AFTER + 1)]
  const OWNER_ENDS: seq<Label> := [Settle(1)]
  const RIVAL_WRITES: seq<Label> := [ResolveConflict(2)]

  /** An owner that finishes between the stale read and the stale write loses its result. */
  lemma CompletedCanBeLost()
    ensures var completed := Run(Start(map[]), OWNER_STARTS + OWNER_LOGS + RIVAL_READS + OWNER_ENDS);
            var lost := Run(completed, RIVAL_WRITES);
      && KEY in completed.keys && completed.keys[KEY].status.Completed?
      && KEY in lost.keys && lost.keys[KEY].status.Failed?
  {
    var s := Start(map[]);
    OwnerStarts(s);
    RunConcat(s, OWNER_STARTS, OWNER_LOGS);
    OwnerLogs(Run(s, OWNER_STARTS));
    RunConcat(s, OWNER_STARTS + OWNER_LOGS, RIVAL_READS);
    RivalReads(Run(s, OWNER_STARTS + OWNER_LOGS));
    RunConcat(s, OWNER_STARTS + OWNER_LOGS + RIVAL_READS, OWNER_ENDS);
    RivalOverwrites(Run(s, OWNER_STARTS + OWNER_LOGS + RIVAL_READS));
  }

  lemma {:induction false} RunConcat(s: State, a: seq<Label>, b: seq<Label>)
    ensures Run(s, a + b) == Run(Run(s, a), b)
    decreases |b|
  {
    if b == [] {
      assert a + b == a;
    } else {
      var last := b[|b| - 1];
      assert (a + b)[..|a + b| - 1] == a + b[..|b| - 1];
      RunConcat(s, a, b[..|b| - 1]);
    }
  }

  lemma RunOne(s: State, move: Label)
    ensures Run(s, [move]) == Step(s, move)
  {
    assert [move][..0] == [];
  }

  lemma RunFirst(s: State, move: Label, rest: seq<Label>)
    ensures Run(s, [move] + rest) == Run(Step(s, move), rest)
  {
    RunConcat(s, [move], rest);
    RunOne(s, move);
  }

  lemma RunTwo(s: State, first: Label, second: Label)
    ensures Run(s, [first, second]) == Step(Step(s, first), second)
  {
    assert [first][..0] == [];
    assert Run(s, [first]) == Step(s, first);
    assert [first, second][..1] == [first];
  }

  /** Worker 1 owns the key and is at the phase; nobody holds a lock. */
  predicate OwnerAt(s: State, phase: Phase) {
    && s.workers.Keys >= {1} && s.workers[1].phase == phase && s.workers[1].key == KEY
    && s.workers[1].action == MENU_ADD && !s.workers[1].kind.Approver? && !s.workers[1].outcome.Raised?
    && KEY in s.keys && s.keys[KEY] == KEY_ROW && s.locks == map[]
  }

  lemma OwnerStarts(s: State)
    requires s == Start(map[])
    ensures var s' := Run(s, OWNER_STARTS); OwnerAt(s', Proposing) && s'.workers.Keys == {1}
  {
    RunTwo(s, Call(1, KEY, 7, MENU_ADD), Claim(1, 0));
    assert CanClaim(Step(s, Call(1, KEY, 7, MENU_ADD)), 1);
  }

  lemma OwnerLogs(s: State)
    requires OwnerAt(s, Proposing) && s.workers.Keys == {1}
    ensures var s' := Run(s, OWNER_LOGS); OwnerAt(s', Settling) && s'.workers.Keys == {1}
  {
    RunTwo(s, Refuse(1), Record(1));
    assert CanRefuse(s, 1) && CanRecord(Step(s, Refuse(1)), 1);
  }

  lemma RivalReads(s: State)
    requires OwnerAt(s, Settling) && s.workers.Keys == {1}
    ensures var s' := Run(s, RIVAL_READS);
            OwnerAt(s', Settling) && 2 in s'.workers && s'.workers[2].key == KEY
            && s'.workers[2].phase == Conflicted(KEY_ROW, true)
  {
    RunTwo(s, Call(2, KEY, 7, MENU_ADD), Conflict(2, STALE_AFTER + 1));
    assert CanConflict(Step(s, Call(2, KEY, 7, MENU_ADD)), 2);
  }

  lemma RivalOverwrites(s: State)
    requires OwnerAt(s, Settling)
    requires 2 in s.workers && s.workers[2].key == KEY && s.workers[2].phase == Conflicted(KEY_ROW, true)
    ensures var t := Run(s, OWNER_ENDS); KEY in t.keys && t.keys[KEY].status.Completed?
    ensures var u := Run(Run(s, OWNER_ENDS), RIVAL_WRITES); KEY in u.keys && u.keys[KEY].status.Failed?
  {
    assert Run(s, OWNER_ENDS) == Step(s, Settle(1)) by { assert OWNER_ENDS[..0] == []; }
    assert Run(Run(s, OWNER_ENDS), RIVAL_WRITES) == Step(Run(s, OWNER_ENDS), ResolveConflict(2)) by {
      assert RIVAL_WRITES[..0] == [];
    }
    assert CanSettle(s, 1) && CanResolveConflict(Step(s, Settle(1)), 2);
  }

  // ------------------------------------------------------------ completed results along a run

  /** A completed row holds what its owner ended with. */
  ghost predicate HoldsOutcome(s: State, row: KeyRow) {
    && row.owner in s.workers
    && (s.workers[row.owner].phase.Reporting? || s.workers[row.owner].phase.Done?)
    && row.result == s.workers[row.owner].outcome && !row.result.Raised?
  }

  ghost predicate ResultsOk(s: State) {
    forall key :: key in s.keys && s.keys[key].status.Completed? ==> HoldsOutcome(s, s.keys[key])
  }

  /** A call that is over but for its report keeps its answer. */
  predicate StaysOver(s: State, s': State, w: WorkerId) {
    w in s.workers && (s.workers[w].phase.Reporting? || s.workers[w].phase.Done?) ==>
      && w in s'.workers && (s'.workers[w].phase.Reporting? || s'.workers[w].phase.Done?)
      && s'.workers[w].outcome == s.workers[w].outcome
  }

  lemma OverStaysOver(s: State, move: Label)
    requires !move.Resolve?
    ensures StaysOver(s, Step(s, move), move.w)
  {
    hide Step, StaysOver;
    if IsIntake(move) {
      IntakeStaysOver(s, move);
    } else if IsBookkeeping(move) {
      BookkeepingStaysOver(s, move);
    } else if IsDeciding(move) {
      DecidingStaysOver(s, move);
    } else {
      ExecutingStaysOver(s, move);
    }
  }

  lemma IntakeStaysOver(s: State, move: Label)
    requires IsIntake(move)
    ensures StaysOver(s, Step(s, move), move.w)
  {
    hide StepBookkeeping, StepDeciding, StepExecuting, KeyTaken, SetStatus;
  }

  lemma BookkeepingStaysOver(s: State, move: Label)
    requires IsBookkeeping(move) && !move.Resolve?
    ensures StaysOver(s, Step(s, move), move.w)
  {
    hide StepIntake, StepDeciding, StepExecuting, Finish, Abandon, ConflictOutcome;
  }

  lemma DecidingStaysOver(s: State, move: Label)
    requires IsDeciding(move)
    ensures StaysOver(s, Step(s, move), move.w)
  {
    hide StepIntake, StepBookkeeping, StepExecuting;
  }

  lemma ExecutingStaysOver(s: State, move: Label)
    requires IsExecuting(move)
    ensures StaysOver(s, Step(s, move), move.w)
  {
    hide StepIntake, StepBookkeeping, StepDeciding, Freed, Applied;
  }

  /** Only its owner completes a key. */
  lemma NewlyCompleted(s: State, move: Label, key: Key)
    requires Inv(s) && key in Step(s, move).keys && Step(s, move).keys[key].status.Completed?
    requires !(key in s.keys && s.keys[key] == Step(s, move).keys[key])
    ensures move.Settle? && HoldsOutcome(Step(s, move), Step(s, move).keys[key])
  {
    hide Step, Inv, HoldsOutcome;
    if move.Claim? || move.ResolveConflict? {
      NobodyElseCompletes(s, move, key);
    } else if move.Settle? {
      OwnerCompletes(s, move.w, key);
    } else {
      OthersKeepKeys(s, move);
    }
  }

  lemma NobodyElseCompletes(s: State, move: Label, key: Key)
    requires move.Claim? || move.ResolveConflict?
    requires key in Step(s, move).keys && Step(s, move).keys[key].status.Completed?
    ensures key in s.keys && s.keys[key] == Step(s, move).keys[key]
  {
    hide StepIntake, StepDeciding, StepExecuting, ConflictOutcome;
  }

  lemma OwnerCompletes(s: State, w: WorkerId, key: Key)
    requires Inv(s) && key in Step(s, Settle(w)).keys && Step(s, Settle(w)).keys[key].status.Completed?
    requires !(key in s.keys && s.keys[key] == Step(s, Settle(w)).keys[key])
    ensures HoldsOutcome(Step(s, Settle(w)), Step(s, Settle(w)).keys[key])
  {
    hide StepIntake, StepDeciding, StepExecuting;
    if CanSettle(s, w) { WorkerIsOk(s, w); }
    hide Inv;
  }

  lemma StepKeepsResults(s: State, move: Label)
    requires Inv(s) && ResultsOk(s)
    ensures ResultsOk(Step(s, move))
  {
    hide Inv, Step;
    var s' := Step(s, move);
    StepKeeps(s, move);
    if !move.Resolve? { OverStaysOver(s, move); }
    forall key | key in s'.keys && s'.keys[key].status.Completed? ensures HoldsOutcome(s', s'.keys[key]) {
      if key in s.keys && s.keys[key] == s'.keys[key] {
        assert HoldsOutcome(s, s.keys[key]);
        ResolveKeepsWorkers(s, move);
      } else {
        NewlyCompleted(s, move, key);
      }
    }
  }

  lemma ResolveKeepsWorkers(s: State, move: Label)
    ensures move.Resolve? ==> Step(s, move).workers == s.workers
  {
    hide StepIntake, StepDeciding, StepExecuting;
  }

  /** In every reachable state a completed key holds the outcome its owner ended with. */
  lemma {:induction false} CompletedHoldsOutcome(prices: map<Slot, real>, schedule: seq<Label>)
    ensures ResultsOk(Run(Start(prices), schedule))
    decreases |schedule|
  {
    hide Step, Inv, ResultsOk;
    if schedule == [] {
      NothingCompleted(prices);
    } else {
      var before := schedule[..|schedule| - 1];
      CompletedHoldsOutcome(prices, before);
      StartKeeps(prices);
      RunKeeps(Start(prices), before);
      StepKeepsResults(Run(Start(prices), before), schedule[|schedule| - 1]);
    }
  }

  lemma NothingCompleted(prices: map<Slot, real>)
    ensures ResultsOk(Start(prices))
  {
  }

  /** Some step of the schedule is the stale write to this key. */
  predicate Abandoned(s: State, schedule: seq<Label>, key: Key) {
    exists i | 0 <= i < |schedule| :: AbandonsKey(Run(s, schedule[..i]), schedule[i], key)
  }

  lemma AbandonedEarlier(s: State, schedule: seq<Label>, key: Key)
    requires schedule != []
    ensures var before := schedule[..|schedule| - 1];
            Abandoned(s, schedule, key)
            <==> Abandoned(s, before, key) || AbandonsKey(Run(s, before), schedule[|schedule| - 1], key)
  {
    hide AbandonsKey, Run;
    var before := schedule[..|schedule| - 1];
    if i :| 0 <= i < |before| && AbandonsKey(Run(s, before[..i]), before[i], key) {
      assert schedule[..i] == before[..i] && schedule[i] == before[i];
    }
    if i :| 0 <= i < |schedule| && AbandonsKey(Run(s, schedule[..i]), schedule[i], key) {
      if i < |before| { assert schedule[..i] == before[..i] && schedule[i] == before[i]; }
    }
  }

  lemma FailedStays(s: State, move: Label, key: Key)
    requires key in s.keys && s.keys[key].status.Failed?
    ensures key in Step(s, move).keys && Step(s, move).keys[key].status.Failed?
  {
    if move.Claim? || move.ResolveConflict? || move.Settle? {
      hide StepIntake, StepDeciding, StepExecuting, ConflictOutcome, NewWorker;
    } else {
      OthersKeepKeys(s, move);
    }
  }

  /** Over a whole run, a completed key is still completed exactly when no stale write hit it. */
  lemma {:induction false} CompletedSurvivesRunIff(s: State, schedule: seq<Label>, key: Key)
    requires key in s.keys && s.keys[key].status.Completed?
    ensures key in Run(s, schedule).keys
    ensures if Abandoned(s, schedule, key) then Run(s, schedule).keys[key].status.Failed?
            else Run(s, schedule).keys[key] == s.keys[key]
    decreases |schedule|
  {
    hide Step, AbandonsKey;
    if schedule != [] {
      var before, last := schedule[..|schedule| - 1], schedule[|schedule| - 1];
      CompletedSurvivesRunIff(s, before, key);
      AbandonedEarlier(s, schedule, key);
      if Abandoned(s, before, key) {
        FailedStays(Run(s, before), last, key);
      } else {
        CompletedSurvivesIff(Run(s, before), last, key);
        if AbandonsKey(Run(s, before), last, key) { AbandonedFails(Run(s, before), last, key); }
      }
    }
  }

  lemma AbandonedFails(s: State, move: Label, key: Key)
    requires key in s.keys && AbandonsKey(s, move, key)
    ensures key in Step(s, move).keys && Step(s, move).keys[key].status.Failed?
  {
    hide StepIntake, StepDeciding, StepExecuting;
  }

  /** The claim of this key is never read in progress later than STALE_AFTER: its owner finishes in time. */
  predicate InTime(s: State, schedule: seq<Label>, key: Key) {
    forall i | 0 <= i < |schedule| && schedule[i].Conflict? ::
      ReadInTime(Run(s, schedule[..i]), schedule[i].w, schedule[i].now, key)
  }

  predicate ReadInTime(s: State, w: WorkerId, now: int, key: Key) {
    CanConflict(s, w) && s.workers[w].key == key && s.keys[key].status.InProgress? ==>
      now - s.keys[key].createdAt <= STALE_AFTER
  }

  /** Nobody is about to make a stale write to this key. */
  predicate NoStaleReader(s: State, key: Key) {
    forall w | w in s.workers :: s.workers[w].key == key && s.workers[w].phase.Conflicted? ==> !s.workers[w].phase.stale
  }

  lemma OnlyConflictReads(s: State, move: Label, key: Key)
    requires NoStaleReader(s, key) && (move.Conflict? ==> ReadInTime(s, move.w, move.now, key))
    ensures NoStaleReader(Step(s, move), key)
  {
    hide Step, NoStaleReader, ReadInTime;
    if IsIntake(move) {
      IntakeReadsNoKey(s, move, key);
    } else if IsBookkeeping(move) {
      BookkeepingReadsInTime(s, move, key);
    } else if IsDeciding(move) {
      DecidingReadsNoKey(s, move, key);
    } else {
      ExecutingReadsNoKey(s, move, key);
    }
  }

  lemma IntakeReadsNoKey(s: State, move: Label, key: Key)
    requires NoStaleReader(s, key) && IsIntake(move)
    ensures NoStaleReader(Step(s, move), key)
  {
    hide StepBookkeeping, StepDeciding, StepExecuting, KeyTaken, SetStatus;
  }

  lemma BookkeepingReadsInTime(s: State, move: Label, key: Key)
    requires NoStaleReader(s, key) && IsBookkeeping(move)
    requires move.Conflict? ==> ReadInTime(s, move.w, move.now, key)
    ensures NoStaleReader(Step(s, move), key)
  {
    hide StepIntake, StepDeciding, StepExecuting, Finish, Abandon, ConflictOutcome;
  }

  lemma DecidingReadsNoKey(s: State, move: Label, key: Key)
    requires NoStaleReader(s, key) && IsDeciding(move)
    ensures NoStaleReader(Step(s, move), key)
  {
    hide StepIntake, StepBookkeeping, StepExecuting;
  }

  lemma ExecutingReadsNoKey(s: State, move: Label, key: Key)
    requires NoStaleReader(s, key) && IsExecuting(move)
    ensures NoStaleReader(Step(s, move), key)
  {
    hide StepIntake, StepBookkeeping, StepDeciding, Freed, Applied;
  }

  lemma {:induction false} NoStaleReaderAlong(s: State, schedule: seq<Label>, key: Key)
    requires NoStaleReader(s, key) && InTime(s, schedule, key)
    ensures NoStaleReader(Run(s, schedule), key)
    decreases |schedule|
  {
    hide Step, NoStaleReader, ReadInTime;
    if schedule != [] {
      var before := schedule[..|schedule| - 1];
      InTimeBefore(s, schedule, |before|, key);
      NoStaleReaderAlong(s, before, key);
      OnlyConflictReads(Run(s, before), schedule[|before|], key);
    }
  }

  lemma InTimeBefore(s: State, schedule: seq<Label>, n: nat, key: Key)
    requires InTime(s, schedule, key) && n <= |schedule|
    ensures InTime(s, schedule[..n], key)
  {
    hide ReadInTime;
    forall i | 0 <= i < n && schedule[..n][i].Conflict?
      ensures ReadInTime(Run(s, schedule[..n][..i]), schedule[..n][i].w, schedule[..n][i].now, key)
    {
      assert schedule[..n][..i] == schedule[..i];
    }
  }

  lemma InTimeNeverAbandons(prices: map<Slot, real>, schedule: seq<Label>, i: nat, key: Key)
    requires InTime(Start(prices), schedule, key) && i < |schedule|
    ensures !AbandonsKey(Run(Start(prices), schedule[..i]), schedule[i], key)
  {
    hide Step, Run, InTime, NoStaleReader, AbandonsKey;
    InTimeBefore(Start(prices), schedule, i, key);
    StartHasNoReader(prices);
    NoStaleReaderAlong(Start(prices), schedule[..i], key);
    if AbandonsKey(Run(Start(prices), schedule[..i]), schedule[i], key) {
      StaleReaderNeeded(Run(Start(prices), schedule[..i]), schedule[i], key);
    }
  }

  /**
    When its owner finishes within STALE_AFTER of what anyone's clock says, a completed key
    keeps its row for the rest of the run, whatever becomes of other keys.
   */
  lemma CompletedIsFinalInTime(prices: map<Slot, real>, schedule: seq<Label>, n: nat, key: Key)
    requires InTime(Start(prices), schedule, key) && n <= |schedule|
    requires key in Run(Start(prices), schedule[..n]).keys
    requires Run(Start(prices), schedule[..n]).keys[key].status.Completed?
    ensures key in Run(Start(prices), schedule).keys
    ensures Run(Start(prices), schedule).keys[key] == Run(Start(prices), schedule[..n]).keys[key]
  {
    hide Step, Run, InTime, AbandonsKey;
    var start, rest := Start(prices), schedule[n..];
    var s := Run(start, schedule[..n]);
    assert schedule[..n] + rest == schedule;
    RunConcat(start, schedule[..n], rest);
    CompletedSurvivesRunIff(s, rest, key);
    forall i | 0 <= i < |rest| ensures !AbandonsKey(Run(s, rest[..i]), rest[i], key) {
      assert schedule[..n + i] == schedule[..n] + rest[..i];
      RunConcat(start, schedule[..n], rest[..i]);
      InTimeNeverAbandons(prices, schedule, n + i, key);
    }
  }

  lemma StartHasNoReader(prices: map<Slot, real>)
    ensures NoReader(Start(prices))
    ensures forall key :: NoStaleReader(Start(prices), key)
  {
  }

  lemma StaleReaderNeeded(s: State, move: Label, key: Key)
    requires AbandonsKey(s, move, key)
    ensures !NoStaleReader(s, key)
  {
    assert move.w in s.workers;
  }

  /** `claim` as one transaction: the write follows the read at once. */
  predicate Atomic(schedule: seq<Label>) {
    forall i | 0 <= i < |schedule| - 1 && schedule[i].Conflict? :: schedule[i + 1] == ResolveConflict(schedule[i].w)
  }

  /** Only the worker that moved last can be between its read and its write, and it read what is still there. */
  predicate ReadsAreFresh(s: State, last: Label) {
    forall w | w in s.workers && s.workers[w].phase.Conflicted? ::
      && last.Conflict? && last.w == w
      && s.workers[w].key in s.keys && s.keys[s.workers[w].key] == s.workers[w].phase.seen
      && (s.workers[w].phase.stale ==> s.workers[w].phase.seen.status.InProgress?)
  }

  predicate NoReader(s: State) { forall w | w in s.workers :: !s.workers[w].phase.Conflicted? }

  lemma OneMoveReads(s: State, move: Label)
    requires NoReader(s)
    ensures ReadsAreFresh(Step(s, move), move)
  {
    hide Step, NoReader, ReadsAreFresh;
    if IsIntake(move) {
      IntakeMoveReads(s, move);
    } else if IsBookkeeping(move) {
      BookkeepingMoveReads(s, move);
    } else if IsDeciding(move) {
      DecidingMoveReads(s, move);
    } else {
      ExecutingMoveReads(s, move);
    }
  }

  lemma IntakeMoveReads(s: State, move: Label)
    requires NoReader(s) && IsIntake(move)
    ensures ReadsAreFresh(Step(s, move), move)
  {
    hide StepBookkeeping, StepDeciding, StepExecuting, KeyTaken, SetStatus;
  }

  lemma BookkeepingMoveReads(s: State, move: Label)
    requires NoReader(s) && IsBookkeeping(move)
    ensures ReadsAreFresh(Step(s, move), move)
  {
    hide StepIntake, StepDeciding, StepExecuting, Finish, Abandon, ConflictOutcome;
  }

  lemma DecidingMoveReads(s: State, move: Label)
    requires NoReader(s) && IsDeciding(move)
    ensures ReadsAreFresh(Step(s, move), move)
  {
    hide StepIntake, StepBookkeeping, StepExecuting;
  }

  lemma ExecutingMoveReads(s: State, move: Label)
    requires NoReader(s) && IsExecuting(move)
    ensures ReadsAreFresh(Step(s, move), move)
  {
    hide StepIntake, StepBookkeeping, StepDeciding, Freed, Applied;
  }

  lemma WriteEndsRead(s: State, w: WorkerId, last: Label)
    requires last.Conflict? && last.w == w && ReadsAreFresh(s, last)
    ensures NoReader(Step(s, ResolveConflict(w)))
  {
    hide StepIntake, StepDeciding, StepExecuting;
  }

  lemma {:induction false} AtomicReadsAreFresh(prices: map<Slot, real>, schedule: seq<Label>)
    requires Atomic(schedule) && schedule != []
    ensures ReadsAreFresh(Run(Start(prices), schedule), schedule[|schedule| - 1])
    decreases |schedule|
  {
    hide Step, NoReader, ReadsAreFresh;
    var before, last := schedule[..|schedule| - 1], schedule[|schedule| - 1];
    if before == [] {
      StartHasNoReader(prices);
    } else {
      AtomicReadsAreFresh(prices, before);
    }
    if before != [] && before[|before| - 1].Conflict? {
      assert schedule[|before| - 1] == before[|before| - 1];
      WriteEndsRead(Run(Start(prices), before), last.w, before[|before| - 1]);
      NoReaderIsFresh(Run(Start(prices), schedule), last);
    } else {
      FreshOfOthers(Run(Start(prices), before), before);
      OneMoveReads(Run(Start(prices), before), last);
    }
  }

  lemma NoReaderIsFresh(s: State, move: Label)
    requires NoReader(s)
    ensures ReadsAreFresh(s, move)
  {
  }

  lemma FreshOfOthers(s: State, before: seq<Label>)
    requires before == [] ==> NoReader(s)
    requires before != [] ==> ReadsAreFresh(s, before[|before| - 1]) && !before[|before| - 1].Conflict?
    ensures NoReader(s)
  {
  }

  lemma FreshWritesSpare(s: State, move: Label, last: Label, key: Key)
    requires ReadsAreFresh(s, last) && AbandonsKey(s, move, key)
    ensures key in s.keys && s.keys[key].status.InProgress?
  {
    assert move.w in s.workers;
  }

  /** Were `claim` one transaction, no completed key would ever be lost. */
  lemma {:induction false} CompletedIsFinalIfAtomic(prices: map<Slot, real>, schedule: seq<Label>, n: nat, key: Key)
    requires Atomic(schedule) && n <= |schedule|
    requires key in Run(Start(prices), schedule[..n]).keys
    requires Run(Start(prices), schedule[..n]).keys[key].status.Completed?
    ensures key in Run(Start(prices), schedule).keys
    ensures Run(Start(prices), schedule).keys[key] == Run(Start(prices), schedule[..n]).keys[key]
    decreases |schedule|
  {
    hide Step, ReadsAreFresh, AbandonsKey;
    if n < |schedule| {
      var before, last := schedule[..|schedule| - 1], schedule[|schedule| - 1];
      assert before[..n] == schedule[..n];
      CompletedIsFinalIfAtomic(prices, before, n, key);
      var s := Run(Start(prices), before);
      CompletedSurvivesIff(s, last, key);
      if AbandonsKey(s, last, key) {
        if before == [] {
          NothingToAbandon(prices, last, key);
        } else {
          AtomicReadsAreFresh(prices, before);
          FreshWritesSpare(s, last, before[|before| - 1], key);
        }
      }
    } else {
      assert schedule[..n] == schedule;
    }
  }

  lemma NothingToAbandon(prices: map<Slot, real>, move: Label, key: Key)
    ensures !AbandonsKey(Start(prices), move, key)
  {
  }
}
