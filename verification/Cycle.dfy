/**
  One detect-reason-act cycle: the cooldown scan of the action log, the budget of actions and
  errors, and what no cycle does twice.
 */
module Cycle {
  import opened Wrappers
  import opened Json
  import opened Candidates
  import opened Ranking

  // ---------------------------------------------------------------- cooldown

  type Target = seq<(string, string)>

  const TARGET_KEYS := ["menu_item_id", "ingredient_id", "supplier_sku_id", "staff_shift_id"]

  /** `_target`: the named entities of a payload, in a fixed order. */
  function TargetOf(text: Json -> string, payload: Payload, keys: seq<string>): Target {
    if keys == [] then []
    else
      (if Get(payload, keys[0]).Null? then [] else [(keys[0], text(payload[keys[0]]))])
      + TargetOf(text, payload, keys[1..])
  }

  datatype LogRow = LogRow(created: Option<int>, action: ActionType, payload: Payload, criticApproved: Option<bool>,
                           executed: bool)

  /** A row that stands for the same action on the same target, run or waiting for a reviewer. */
  predicate Counts(text: Json -> string, row: LogRow, action: ActionType, target: Target) {
    && row.action == action && TargetOf(text, row.payload, TARGET_KEYS) == target
    && (row.executed || row.criticApproved == Some(true))
  }

  /** The log as it is read: newest first, undated rows anywhere. */
  predicate NewestFirst(log: seq<LogRow>) {
    forall i, j | 0 <= i < j < |log| && log[i].created.Some? && log[j].created.Some? ::
      log[i].created.value >= log[j].created.value
  }

  const LOG_LIMIT := 500

  /** Some row of the log, dated within the window, counts. */
  predicate Cooling(text: Json -> string, log: seq<LogRow>, action: ActionType, target: Target, since: int) {
    exists i | 0 <= i < |log| ::
      log[i].created.Some? && log[i].created.value >= since && Counts(text, log[i], action, target)
  }

  /** `_in_cooldown`: the scan stops early, and misses nothing within the window by doing so. */
  method InCooldown(text: Json -> string, log: seq<LogRow>, action: ActionType, payload: Payload, cooldown: int,
                    now: int)
    returns (cooling: bool)
    requires NewestFirst(log)
    ensures cooling
            <==> cooldown > 0
                 && Cooling(text, Take(log, LOG_LIMIT), action, TargetOf(text, payload, TARGET_KEYS), now - cooldown)
  {
    if cooldown <= 0 { return false; }
    var since := now - cooldown;
    var target := TargetOf(text, payload, TARGET_KEYS);
    var entries := Take(log, LOG_LIMIT);
    for i := 0 to |entries|
      invariant forall k | 0 <= k < i ::
                  !(entries[k].created.Some? && entries[k].created.value >= since
                    && Counts(text, entries[k], action, target))
    {
      var entry := entries[i];
      if entry.created.None? { continue; }
      if entry.created.value < since { break; }
      if entry.action != action { continue; }
      if TargetOf(text, entry.payload, TARGET_KEYS) != target { continue; }
      var pending := entry.criticApproved == Some(true) && !entry.executed;
      if entry.executed || pending { return true; }
    }
    return false;
  }

  // ---------------------------------------------------------------- one opportunity

  datatype Mode = Propose | Simulate | Execute

  datatype Status =
    | Executed | PendingHumanApproval | HeldLowConfidence | BlockedByCritic | UnsupportedAction
    | Proposed | SimulatedOnly | NoCandidates | NoBeneficialAction | CooldownActive
    | ActionLimitReached | NeedsReviewNotExecuted | Error

  /**
    What the tool framework did with an attempt: raised, or a result with its reason. A call
    that ran adds its own log row, dated `logged`; an answer from a stored key adds none.
   */
  datatype Response = Raises | Returns(executed: bool, reason: Option<Status>, logged: Option<int>)

  datatype Settings = Settings(
    mode: Mode,
    text: Json -> string,
    show: Payload -> string,
    minScore: real,
    reviewSupported: bool,
    maxActions: int,
    maxErrors: int,
    cooldown: int,
    now: int)

  /**
    What one opportunity meets: its scored candidates, the log rows that others have committed
    since the last one, whether reading the log fails, and the answer should an attempt be made.
   */
  datatype Turn = Turn(scored: seq<Scored>, others: seq<LogRow>, logFails: bool, response: Response)

  datatype Outcome = Outcome(status: Status, attempted: Option<Candidate>)

  /** Where the cycle stands, and the action log at that point. */
  datatype Progress = Progress(
    actionsLeft: int, errors: int, calls: int, outcomes: seq<Outcome>, aborted: bool, log: seq<LogRow>)

  datatype Verdict = Stop(status: Status) | Break | Attempt(candidate: Candidate)

  /** A new row takes its place by date. */
  function Insert(log: seq<LogRow>, row: LogRow): (r: seq<LogRow>)
    ensures |r| == |log| + 1
  {
    if log == [] || row.created.None? || (log[0].created.Some? && log[0].created.value <= row.created.value)
    then [row] + log
    else [log[0]] + Insert(log[1..], row)
  }

  function InsertAll(log: seq<LogRow>, rows: seq<LogRow>): seq<LogRow> {
    if rows == [] then log else Insert(InsertAll(log, rows[..|rows| - 1]), rows[|rows| - 1])
  }

  function CoolingDown(cfg: Settings, log: seq<LogRow>, c: Candidate): bool {
    cfg.cooldown > 0
    && Cooling(cfg.text, Take(log, LOG_LIMIT), c.action, TargetOf(cfg.text, c.payload, TARGET_KEYS),
               cfg.now - cfg.cooldown)
  }

  /** `_handle` up to the attempt, with the log as it is by then. */
  function Decide(cfg: Settings, turn: Turn, log: seq<LogRow>, actionsLeft: int): Verdict {
    if turn.scored == [] then Stop(NoCandidates)
    else if cfg.mode.Propose? then Stop(Proposed)
    else
      match Choose(cfg.show, turn.scored, cfg.minScore, cfg.reviewSupported)
      case NothingPays => Stop(NoBeneficialAction)
      case OnlyFlagged => Stop(NeedsReviewNotExecuted)
      case Best(chosen) =>
        if cfg.cooldown > 0 && turn.logFails then Break
        else if CoolingDown(cfg, log, chosen.candidate) then Stop(CooldownActive)
        else if cfg.mode.Simulate? then Stop(SimulatedOnly)
        else if actionsLeft <= 0 then Stop(ActionLimitReached)
        else Attempt(chosen.candidate)
  }

  // ---------------------------------------------------------------- which opportunity stops where

  /** Both payloads name the entity, as the same text, or neither does. */
  predicate SameEntity(text: Json -> string, p: Payload, q: Payload, name: string) {
    || (Get(p, name).Null? && Get(q, name).Null?)
    || (!Get(p, name).Null? && !Get(q, name).Null? && text(Get(p, name)) == text(Get(q, name)))
  }

  /** The same menu item, ingredient, supplier SKU and shift. */
  predicate SameTarget(text: Json -> string, p: Payload, q: Payload) {
    && SameEntity(text, p, q, "menu_item_id") && SameEntity(text, p, q, "ingredient_id")
    && SameEntity(text, p, q, "supplier_sku_id") && SameEntity(text, p, q, "staff_shift_id")
  }

  predicate Distinct(keys: seq<string>) { forall i, j | 0 <= i < j < |keys| :: keys[i] != keys[j] }

  lemma {:induction false} TargetsNameKeys(text: Json -> string, p: Payload, keys: seq<string>)
    ensures forall e | e in TargetOf(text, p, keys) :: e.0 in keys
  {
    if keys != [] { TargetsNameKeys(text, p, keys[1..]); }
  }

  function Entry(k: string, x: Option<string>): Target { if x.Some? then [(k, x.value)] else [] }

  function Named(text: Json -> string, p: Payload, name: string): Option<string> {
    if Get(p, name).Null? then None else Some(text(Get(p, name)))
  }

  /** The first key's entry, if the payload has it, and then those of the other keys. */
  lemma NextTarget(text: Json -> string, p: Payload, keys: seq<string>)
    requires keys != [] && Distinct(keys)
    ensures TargetOf(text, p, keys) == Entry(keys[0], Named(text, p, keys[0])) + TargetOf(text, p, keys[1..])
    ensures forall e | e in TargetOf(text, p, keys[1..]) :: e.0 != keys[0]
  {
    TargetsNameKeys(text, p, keys[1..]);
    assert keys[0] !in keys[1..];
  }

  lemma FirstEntries(a: Target, b: Target, k: string, x: Option<string>, y: Option<string>)
    requires (forall e | e in a :: e.0 != k) && (forall e | e in b :: e.0 != k)
    ensures Entry(k, x) + a == Entry(k, y) + b <==> x == y && a == b
  {
    var m, n := Entry(k, x) + a, Entry(k, y) + b;
    if a != [] { assert a[0] in a; }
    if b != [] { assert b[0] in b; }
    if m == n {
      assert m[|Entry(k, x)|..] == a && n[|Entry(k, y)|..] == b;
    }
  }

  lemma SameEntityIff(text: Json -> string, p: Payload, q: Payload, name: string)
    ensures SameEntity(text, p, q, name) <==> Named(text, p, name) == Named(text, q, name)
  {
  }

  lemma {:induction false} TargetsAgreeIff(text: Json -> string, p: Payload, q: Payload, keys: seq<string>)
    requires Distinct(keys)
    ensures TargetOf(text, p, keys) == TargetOf(text, q, keys)
            <==> forall i | 0 <= i < |keys| :: SameEntity(text, p, q, keys[i])
  {
    if keys != [] {
      var rest := keys[1..];
      TargetsAgreeIff(text, p, q, rest);
      NextTarget(text, p, keys);
      NextTarget(text, q, keys);
      SameEntityIff(text, p, q, keys[0]);
      hide TargetOf, SameEntity, Named, Entry;
      FirstEntries(TargetOf(text, p, rest), TargetOf(text, q, rest), keys[0], Named(text, p, keys[0]),
                   Named(text, q, keys[0]));
      assert forall i | 0 < i < |keys| :: keys[i] == rest[i - 1];
    }
  }

  lemma SameTargetIff(text: Json -> string, p: Payload, q: Payload)
    ensures TargetOf(text, p, TARGET_KEYS) == TargetOf(text, q, TARGET_KEYS) <==> SameTarget(text, p, q)
  {
    hide TargetOf, SameEntity;
    TargetsAgreeIff(text, p, q, TARGET_KEYS);
    assert TARGET_KEYS[0] == "menu_item_id" && TARGET_KEYS[1] == "ingredient_id";
    assert TARGET_KEYS[2] == "supplier_sku_id" && TARGET_KEYS[3] == "staff_shift_id";
  }

  /** A row that keeps an action from being attempted: same type and target, run or approved by the critic, in time. */
  predicate Recent(cfg: Settings, row: LogRow, c: Candidate) {
    && row.created.Some? && row.created.value >= cfg.now - cfg.cooldown
    && row.action == c.action && SameTarget(cfg.text, row.payload, c.payload)
    && (row.executed || row.criticApproved == Some(true))
  }

  /** Some such row is among the newest 500. */
  predicate OnCooldown(cfg: Settings, log: seq<LogRow>, c: Candidate) {
    cfg.cooldown > 0 && exists i | 0 <= i < |log| && i < 500 :: Recent(cfg, log[i], c)
  }

  lemma OnCooldownIff(cfg: Settings, log: seq<LogRow>, c: Candidate)
    ensures CoolingDown(cfg, log, c) <==> OnCooldown(cfg, log, c)
  {
    hide TargetOf, SameTarget;
    var read := Take(log, LOG_LIMIT);
    forall i | 0 <= i < |read|
      ensures Recent(cfg, log[i], c)
              <==> log[i].created.Some? && log[i].created.value >= cfg.now - cfg.cooldown
                   && Counts(cfg.text, log[i], c.action, TargetOf(cfg.text, c.payload, TARGET_KEYS))
    {
      SameTargetIff(cfg.text, log[i].payload, c.payload);
    }
  }

  /** The candidate of this opportunity that may be attempted, if the log lets it. */
  predicate BestOf(cfg: Settings, turn: Turn, c: Candidate) {
    exists k | 0 <= k < |turn.scored| ::
      IsBest(cfg.show, turn.scored, cfg.minScore, cfg.reviewSupported, k) && turn.scored[k].candidate == c
  }

  predicate SomePays(cfg: Settings, turn: Turn) {
    exists s | s in turn.scored :: s.score.Some? && s.score.value > cfg.minScore
  }

  /** Whatever pays is flagged for a review that cannot be routed. */
  predicate OnlyFlaggedPay(cfg: Settings, turn: Turn) {
    !cfg.reviewSupported
    && forall s | s in turn.scored && s.score.Some? && s.score.value > cfg.minScore :: s.candidate.review
  }

  predicate Unreadable(cfg: Settings, turn: Turn) { cfg.cooldown > 0 && turn.logFails }

  lemma SomePaysIff(cfg: Settings, turn: Turn)
    ensures Choose(cfg.show, turn.scored, cfg.minScore, cfg.reviewSupported).NothingPays? <==> !SomePays(cfg, turn)
  {
    var ranked := Ranked(cfg.show, turn.scored);
    RankedIsASort(cfg.show, turn.scored);
    SameMembers(ranked, turn.scored);
    FirstViable(ranked, cfg.minScore);
    hide Ranked, InRank, Viable;
    if SomePays(cfg, turn) {
      var s :| s in turn.scored && s.score.Some? && s.score.value > cfg.minScore;
      assert s in ranked;
    }
    if !(forall i | 0 <= i < |ranked| :: !IsViable(ranked[i], cfg.minScore)) {
      var i :| 0 <= i < |ranked| && IsViable(ranked[i], cfg.minScore);
      assert ranked[i] in turn.scored;
    }
  }

  lemma OnlyFlaggedIff(cfg: Settings, turn: Turn)
    ensures Choose(cfg.show, turn.scored, cfg.minScore, cfg.reviewSupported).OnlyFlagged?
            <==> SomePays(cfg, turn) && OnlyFlaggedPay(cfg, turn)
  {
    SomePaysIff(cfg, turn);
    ChosenRanksFirst(cfg.show, turn.scored, cfg.minScore, cfg.reviewSupported);
    hide Choose, RankLeq;
  }

  lemma BestOfIff(cfg: Settings, turn: Turn)
    ensures var choice := Choose(cfg.show, turn.scored, cfg.minScore, cfg.reviewSupported);
            forall c :: BestOf(cfg, turn, c) <==> choice.Best? && choice.chosen.candidate == c
  {
    ChosenIsBest(cfg.show, turn.scored, cfg.minScore, cfg.reviewSupported);
    hide Choose, IsBest;
  }

  /**
    Where an opportunity ends, each ending by its own condition on the candidates, the log, the
    mode and the actions that are left.
   */
  lemma VerdictIff(cfg: Settings, turn: Turn, log: seq<LogRow>, actionsLeft: int)
    ensures var v := Decide(cfg, turn, log, actionsLeft);
            && (v == Stop(NoCandidates) <==> turn.scored == [])
            && (v == Stop(Proposed) <==> turn.scored != [] && cfg.mode.Propose?)
            && (v == Stop(NoBeneficialAction)
                <==> turn.scored != [] && !cfg.mode.Propose? && !SomePays(cfg, turn))
            && (v == Stop(NeedsReviewNotExecuted)
                <==> !cfg.mode.Propose? && SomePays(cfg, turn) && OnlyFlaggedPay(cfg, turn))
            && (v == Break
                <==> !cfg.mode.Propose? && Unreadable(cfg, turn) && exists c :: BestOf(cfg, turn, c))
            && (v == Stop(CooldownActive)
                <==> !cfg.mode.Propose? && !Unreadable(cfg, turn)
                     && exists c :: BestOf(cfg, turn, c) && OnCooldown(cfg, log, c))
            && (v == Stop(SimulatedOnly)
                <==> cfg.mode.Simulate? && !Unreadable(cfg, turn)
                     && exists c :: BestOf(cfg, turn, c) && !OnCooldown(cfg, log, c))
            && (v == Stop(ActionLimitReached)
                <==> cfg.mode.Execute? && !Unreadable(cfg, turn) && actionsLeft <= 0
                     && exists c :: BestOf(cfg, turn, c) && !OnCooldown(cfg, log, c))
            && (forall c :: (v == Attempt(c)
                             <==> cfg.mode.Execute? && !Unreadable(cfg, turn) && actionsLeft > 0
                                  && BestOf(cfg, turn, c) && !OnCooldown(cfg, log, c)))
  {
    BestOfIff(cfg, turn);
    SomePaysIff(cfg, turn);
    OnlyFlaggedIff(cfg, turn);
    NoCandidateNoBest(cfg, turn);
    var choice := Choose(cfg.show, turn.scored, cfg.minScore, cfg.reviewSupported);
    if choice.Best? { OnCooldownIff(cfg, log, choice.chosen.candidate); }
    hide Choose, BestOf, SomePays, OnlyFlaggedPay, OnCooldown, CoolingDown;
    if choice.Best? { assert BestOf(cfg, turn, choice.chosen.candidate); }
  }

  lemma AttemptIff(cfg: Settings, turn: Turn, log: seq<LogRow>, actionsLeft: int)
    ensures forall c :: (Decide(cfg, turn, log, actionsLeft) == Attempt(c)
                         <==> cfg.mode.Execute? && !Unreadable(cfg, turn) && actionsLeft > 0
                              && BestOf(cfg, turn, c) && !OnCooldown(cfg, log, c))
  {
    VerdictIff(cfg, turn, log, actionsLeft);
    hide Decide, BestOf, OnCooldown, SomePays, OnlyFlaggedPay, Unreadable;
  }

  lemma NoCandidateNoBest(cfg: Settings, turn: Turn)
    ensures turn.scored == [] ==> !SomePays(cfg, turn) && !exists c :: BestOf(cfg, turn, c)
  {
  }

  function StatusOf(r: Response): Status
    requires r.Returns?
  {
    if r.executed then Executed else if r.reason.Some? then r.reason.value else Error
  }

  /** The critic's verdict in the row: approved where the call ran or went to a reviewer. */
  function VerdictInLog(status: Status): Option<bool> {
    match status
    case Executed => Some(true)
    case PendingHumanApproval => Some(true)
    case BlockedByCritic => Some(false)
    case _ => None
  }

  /** The log after an attempt was answered. */
  function WithOwnRow(log: seq<LogRow>, c: Candidate, r: Response): seq<LogRow>
    requires r.Returns?
  {
    if r.logged.None? then log
    else Insert(log, LogRow(r.logged, c.action, c.payload, VerdictInLog(StatusOf(r)), r.executed))
  }

  /** One pass of the loop in `run_cycle`. */
  function Advance(cfg: Settings, p: Progress, turn: Turn): Progress {
    if p.aborted then p
    else if p.errors >= cfg.maxErrors then p.(aborted := true)
    else
      var log := InsertAll(p.log, turn.others);
      match Decide(cfg, turn, log, p.actionsLeft)
      case Stop(status) => p.(outcomes := p.outcomes + [Outcome(status, None)], log := log)
      case Break => p.(errors := p.errors + 1, outcomes := p.outcomes + [Outcome(Error, None)], log := log)
      case Attempt(candidate) =>
        match turn.response
        case Raises =>
          p.(calls := p.calls + 1, errors := p.errors + 1, outcomes := p.outcomes + [Outcome(Error, None)], log := log)
        case Returns(_, _, _) =>
          p.(calls := p.calls + 1, actionsLeft := p.actionsLeft - 1,
             outcomes := p.outcomes + [Outcome(StatusOf(turn.response), Some(candidate))],
             log := WithOwnRow(log, candidate, turn.response))
  }

  function Start(cfg: Settings, log: seq<LogRow>): Progress {
    Progress(if cfg.mode.Execute? then cfg.maxActions else 0, 0, 0, [], false, log)
  }

  function After(cfg: Settings, log: seq<LogRow>, turns: seq<Turn>): Progress {
    if turns == [] then Start(cfg, log) else Advance(cfg, After(cfg, log, turns[..|turns| - 1]), turns[|turns| - 1])
  }

  // ---------------------------------------------------------------- the log stays in order

  lemma {:induction false} InsertAddsOnlyTheRow(log: seq<LogRow>, row: LogRow)
    ensures multiset(Insert(log, row)) == multiset(log) + multiset{row}
  {
    if log == [] || row.created.None? || (log[0].created.Some? && log[0].created.value <= row.created.value) {
    } else {
      assert log == [log[0]] + log[1..];
      InsertAddsOnlyTheRow(log[1..], row);
    }
  }

  lemma {:induction false} InsertKeepsOrder(log: seq<LogRow>, row: LogRow)
    requires NewestFirst(log)
    ensures NewestFirst(Insert(log, row))
  {
    if log == [] || row.created.None? || (log[0].created.Some? && log[0].created.value <= row.created.value) {
    } else {
      InsertKeepsOrder(log[1..], row);
      InsertAddsOnlyTheRow(log[1..], row);
      var rest := Insert(log[1..], row);
      forall j | 0 <= j < |rest| && log[0].created.Some? && rest[j].created.Some?
        ensures log[0].created.value >= rest[j].created.value
      {
        assert rest[j] in multiset(rest);
        assert rest[j] == row || rest[j] in log[1..];
      }
    }
  }

  lemma {:induction false} InsertAllKeepsOrder(log: seq<LogRow>, rows: seq<LogRow>)
    requires NewestFirst(log)
    ensures NewestFirst(InsertAll(log, rows))
  {
    hide NewestFirst, Insert;
    if rows != [] {
      InsertAllKeepsOrder(log, rows[..|rows| - 1]);
      InsertKeepsOrder(InsertAll(log, rows[..|rows| - 1]), rows[|rows| - 1]);
    }
  }

  /** What a turn reads is the log and the rows others have added, none lost and none made up. */
  lemma {:induction false} InsertAllAddsOnlyThem(log: seq<LogRow>, rows: seq<LogRow>)
    ensures multiset(InsertAll(log, rows)) == multiset(log) + multiset(rows)
  {
    hide Insert;
    if rows != [] {
      var fewer := rows[..|rows| - 1];
      InsertAllAddsOnlyThem(log, fewer);
      InsertAddsOnlyTheRow(InsertAll(log, fewer), rows[|rows| - 1]);
      assert rows == fewer + [rows[|rows| - 1]];
    }
  }

  lemma AdvanceKeepsOrder(cfg: Settings, p: Progress, turn: Turn)
    requires NewestFirst(p.log)
    ensures NewestFirst(InsertAll(p.log, turn.others)) && NewestFirst(Advance(cfg, p, turn).log)
  {
    hide NewestFirst, Insert, InsertAll, Decide;
    InsertAllKeepsOrder(p.log, turn.others);
    var log := InsertAll(p.log, turn.others);
    if Advance(cfg, p, turn).log != p.log && Advance(cfg, p, turn).log != log {
      var c := Decide(cfg, turn, log, p.actionsLeft).candidate;
      InsertKeepsOrder(log, LogRow(turn.response.logged, c.action, c.payload, VerdictInLog(StatusOf(turn.response)),
                                   turn.response.executed));
    }
  }

  lemma {:induction false} LogStaysInOrder(cfg: Settings, log: seq<LogRow>, turns: seq<Turn>)
    requires NewestFirst(log)
    ensures NewestFirst(After(cfg, log, turns).log)
  {
    hide NewestFirst, Advance;
    if turns != [] {
      LogStaysInOrder(cfg, log, turns[..|turns| - 1]);
      AdvanceKeepsOrder(cfg, After(cfg, log, turns[..|turns| - 1]), turns[|turns| - 1]);
    }
  }

  // ---------------------------------------------------------------- the loop

  /**
    `run_cycle`, stages 3 to 6: one opportunity after another until errors run out. `table` is
    the action log as the database holds it.
   */
  method RunCycle(cfg: Settings, log: seq<LogRow>, turns: seq<Turn>) returns (p: Progress)
    requires NewestFirst(log)
    ensures p == After(cfg, log, turns)
  {
    hide InsertAll, NewestFirst;
    var actionsLeft := if cfg.mode.Execute? then cfg.maxActions else 0;
    var errors, calls, outcomes, table := 0, 0, [], log;
    for i := 0 to |turns|
      invariant After(cfg, log, turns[..i]) == Progress(actionsLeft, errors, calls, outcomes, false, table)
    {
      var turn := turns[i];
      assert turns[..i + 1][..i] == turns[..i];
      LogStaysInOrder(cfg, log, turns[..i]);
      if errors >= cfg.maxErrors {
        StaysAborted(cfg, log, turns, i + 1);
        return Progress(actionsLeft, errors, calls, outcomes, true, table);
      }
      InsertAllKeepsOrder(table, turn.others);
      table := InsertAll(table, turn.others);
      var verdict := Handle(cfg, turn, table, actionsLeft);
      match verdict
      case Stop(status) => outcomes := outcomes + [Outcome(status, None)];
      case Break =>
        errors := errors + 1;
        outcomes := outcomes + [Outcome(Error, None)];
      case Attempt(candidate) =>
        calls := calls + 1;
        if turn.response.Raises? {
          errors := errors + 1;
          outcomes := outcomes + [Outcome(Error, None)];
        } else {
          actionsLeft := actionsLeft - 1;
          outcomes := outcomes + [Outcome(StatusOf(turn.response), Some(candidate))];
          table := WithOwnRow(table, candidate, turn.response);
        }
    }
    assert turns[..|turns|] == turns;
    return Progress(actionsLeft, errors, calls, outcomes, false, table);
  }

  /** `_handle` as it runs, scan and all. */
  method Handle(cfg: Settings, turn: Turn, log: seq<LogRow>, actionsLeft: int) returns (verdict: Verdict)
    requires NewestFirst(log)
    ensures verdict == Decide(cfg, turn, log, actionsLeft)
    ensures forall c :: (verdict == Attempt(c)
                         <==> cfg.mode.Execute? && !Unreadable(cfg, turn) && actionsLeft > 0
                              && BestOf(cfg, turn, c) && !OnCooldown(cfg, log, c))
  {
    AttemptIff(cfg, turn, log, actionsLeft);
    hide BestOf, OnCooldown, NewestFirst, Cooling;
    if turn.scored == [] { return Stop(NoCandidates); }
    if cfg.mode.Propose? { return Stop(Proposed); }
    var choice := Choose(cfg.show, turn.scored, cfg.minScore, cfg.reviewSupported);
    if choice.NothingPays? { return Stop(NoBeneficialAction); }
    if choice.OnlyFlagged? { return Stop(NeedsReviewNotExecuted); }
    var candidate := choice.chosen.candidate;
    if cfg.cooldown > 0 && turn.logFails { return Break; }
    var cooling := InCooldown(cfg.text, log, candidate.action, candidate.payload, cfg.cooldown, cfg.now);
    if cooling { return Stop(CooldownActive); }
    if cfg.mode.Simulate? { return Stop(SimulatedOnly); }
    if actionsLeft <= 0 { return Stop(ActionLimitReached); }
    return Attempt(candidate);
  }

  lemma {:induction false} StaysAborted(cfg: Settings, log: seq<LogRow>, turns: seq<Turn>, n: nat)
    requires n <= |turns| && After(cfg, log, turns[..n]).aborted
    ensures After(cfg, log, turns) == After(cfg, log, turns[..n])
  {
    if n == |turns| {
      assert turns[..n] == turns;
    } else {
      assert turns[..|turns| - 1][..n] == turns[..n];
      StaysAborted(cfg, log, turns[..|turns| - 1], n);
    }
  }

  // ---------------------------------------------------------------- budgets

  function Attempts(outcomes: seq<Outcome>): nat {
    if outcomes == [] then 0
    else Attempts(outcomes[..|outcomes| - 1]) + if outcomes[|outcomes| - 1].attempted.Some? then 1 else 0
  }

  function AtLeastZero(n: int): nat { if n < 0 then 0 else n }

  lemma AttemptsOfMore(outcomes: seq<Outcome>, o: Outcome)
    ensures Attempts(outcomes + [o]) == Attempts(outcomes) + if o.attempted.Some? then 1 else 0
  {
    assert (outcomes + [o])[..|outcomes|] == outcomes;
  }

  /** What one pass can do to the counters and to the log. */
  predicate Moves(cfg: Settings, p: Progress, q: Progress, turn: Turn) {
    var log := InsertAll(p.log, turn.others);
    if |q.outcomes| == |p.outcomes| then q == p.(aborted := true)
    else
      && |q.outcomes| == |p.outcomes| + 1 && q.outcomes[..|p.outcomes|] == p.outcomes
      && q.aborted == p.aborted && !p.aborted && p.errors < cfg.maxErrors
      && (match q.outcomes[|p.outcomes|].attempted
          case Some(c) =>
            && Decide(cfg, turn, log, p.actionsLeft) == Attempt(c) && p.actionsLeft > 0 && cfg.mode.Execute?
            && q.actionsLeft == p.actionsLeft - 1 && q.calls == p.calls + 1 && q.errors == p.errors
            && turn.response.Returns? && q.outcomes[|p.outcomes|].status == StatusOf(turn.response)
            && q.log == WithOwnRow(log, c, turn.response)
          case None =>
            && q.actionsLeft == p.actionsLeft && p.errors <= q.errors <= p.errors + 1 && q.log == log
            && p.calls <= q.calls <= p.calls + (q.errors - p.errors) && (q.calls > p.calls ==> cfg.mode.Execute?))
  }

  lemma AdvanceMoves(cfg: Settings, p: Progress, turn: Turn)
    ensures Moves(cfg, p, Advance(cfg, p, turn), turn)
  {
    hide Choose, CoolingDown, InsertAll, WithOwnRow;
  }

  predicate WithinBudget(cfg: Settings, p: Progress) {
    && Attempts(p.outcomes) + p.actionsLeft == Start(cfg, []).actionsLeft
    && (p.actionsLeft >= 0 || p.actionsLeft == Start(cfg, []).actionsLeft)
    && 0 <= p.errors <= AtLeastZero(cfg.maxErrors)
    && p.calls <= Attempts(p.outcomes) + p.errors
    && (!cfg.mode.Execute? ==> p.calls == 0)
  }

  lemma MoveKeepsBudget(cfg: Settings, p: Progress, q: Progress, turn: Turn)
    requires WithinBudget(cfg, p) && Moves(cfg, p, q, turn)
    ensures WithinBudget(cfg, q)
  {
    hide Decide, InsertAll, WithOwnRow;
    if |q.outcomes| > |p.outcomes| {
      AttemptsOfMore(p.outcomes, q.outcomes[|p.outcomes|]);
      assert q.outcomes == p.outcomes + [q.outcomes[|p.outcomes|]];
    }
  }

  lemma {:induction false} StaysWithinBudget(cfg: Settings, log: seq<LogRow>, turns: seq<Turn>)
    ensures WithinBudget(cfg, After(cfg, log, turns))
  {
    hide Advance, WithinBudget, Moves;
    if turns == [] {
      StartIsWithinBudget(cfg, log);
    } else {
      var fewer := turns[..|turns| - 1];
      StaysWithinBudget(cfg, log, fewer);
      AdvanceMoves(cfg, After(cfg, log, fewer), turns[|turns| - 1]);
      MoveKeepsBudget(cfg, After(cfg, log, fewer), After(cfg, log, turns), turns[|turns| - 1]);
    }
  }

  lemma StartIsWithinBudget(cfg: Settings, log: seq<LogRow>)
    ensures WithinBudget(cfg, Start(cfg, log))
  {
  }

  /**
    A cycle records at most `maxActions` attempts and calls the tool framework at most
    `maxActions + maxErrors` times; outside execute mode it never calls it.
   */
  lemma CycleIsBounded(cfg: Settings, log: seq<LogRow>, turns: seq<Turn>)
    ensures var p := After(cfg, log, turns);
            && Attempts(p.outcomes) <= AtLeastZero(cfg.maxActions)
            && p.calls <= AtLeastZero(cfg.maxActions) + AtLeastZero(cfg.maxErrors)
            && p.errors <= AtLeastZero(cfg.maxErrors)
            && (!cfg.mode.Execute? ==> p.calls == 0 && Attempts(p.outcomes) == 0)
  {
    StaysWithinBudget(cfg, log, turns);
    hide After;
  }

  // ---------------------------------------------------------------- what a turn of a cycle does

  /** One more outcome, and no call was made for it. */
  predicate EndsAs(p: Progress, q: Progress, status: Status) {
    q.outcomes == p.outcomes + [Outcome(status, None)] && q.calls == p.calls
  }

  /** The cycle is in execute mode, has actions left, and the best candidate is not on cooldown. */
  predicate Acts(cfg: Settings, p: Progress, turn: Turn, log: seq<LogRow>, c: Candidate) {
    && cfg.mode.Execute? && Attempts(p.outcomes) < cfg.maxActions && !Unreadable(cfg, turn)
    && BestOf(cfg, turn, c) && !OnCooldown(cfg, log, c)
  }

  /** What an attempt is recorded as: executed, or the reason given, or an error. */
  function AnswerTo(r: Response, c: Candidate): Outcome {
    match r
    case Raises => Outcome(Error, None)
    case Returns(true, _, _) => Outcome(Executed, Some(c))
    case Returns(false, Some(reason), _) => Outcome(reason, Some(c))
    case Returns(false, None, _) => Outcome(Error, Some(c))
  }

  lemma LeftInBudget(cfg: Settings, p: Progress)
    requires WithinBudget(cfg, p)
    ensures cfg.mode.Execute? ==> (p.actionsLeft > 0 <==> Attempts(p.outcomes) < cfg.maxActions)
  {
  }

  lemma EndOfVerdict(cfg: Settings, p: Progress, turn: Turn)
    requires !p.aborted && p.errors < cfg.maxErrors
    ensures var q, v := Advance(cfg, p, turn), Decide(cfg, turn, InsertAll(p.log, turn.others), p.actionsLeft);
            && !q.aborted
            && (forall status :: EndsAs(p, q, status) <==> v == Stop(status) || (v == Break && status == Error))
            && v != Stop(Error)
            && q.calls == p.calls + (if v.Attempt? then 1 else 0)
            && (v.Attempt? ==>
                  q.outcomes == p.outcomes + [AnswerTo(turn.response, v.candidate)])
            && q.errors == p.errors + (if q.outcomes == p.outcomes + [Outcome(Error, None)] then 1 else 0)
  {
    hide Choose, CoolingDown, InsertAll, WithOwnRow;
    var q := Advance(cfg, p, turn);
    forall status, other: Outcome | q.outcomes == p.outcomes + [other]
      ensures q.outcomes == p.outcomes + [Outcome(status, None)] <==> other == Outcome(status, None)
    {
      assert (p.outcomes + [other])[|p.outcomes|] == other;
    }
  }

  /** The two halves of a turn: the verdict on it, and what the cycle does with the verdict. */
  lemma TurnIsVerdict(cfg: Settings, log: seq<LogRow>, turns: seq<Turn>, turn: Turn)
    ensures var p := After(cfg, log, turns);
            && After(cfg, log, turns + [turn]) == Advance(cfg, p, turn)
            && (cfg.mode.Execute? ==> (p.actionsLeft > 0 <==> Attempts(p.outcomes) < cfg.maxActions))
  {
    assert (turns + [turn])[..|turns|] == turns;
    StaysWithinBudget(cfg, log, turns);
    LeftInBudget(cfg, After(cfg, log, turns));
    hide Advance, Attempts, WithinBudget;
  }

  /** A cycle goes on until `maxErrors` errors, and not a turn longer. */
  lemma AbortsIff(cfg: Settings, log: seq<LogRow>, turns: seq<Turn>, turn: Turn)
    ensures var p, q := After(cfg, log, turns), After(cfg, log, turns + [turn]);
            && (q.aborted <==> p.aborted || p.errors >= cfg.maxErrors)
            && (q.aborted ==> q == p.(aborted := true))
            && (q.errors == p.errors + 1 <==> q.outcomes == p.outcomes + [Outcome(Error, None)])
            && (q.errors != p.errors ==> q.errors == p.errors + 1)
  {
    TurnIsVerdict(cfg, log, turns, turn);
    hide After, Attempts;
    var p := After(cfg, log, turns);
    if !p.aborted && p.errors < cfg.maxErrors {
      EndOfVerdict(cfg, p, turn);
      hide Advance;
    }
  }

  /** What an opportunity comes to while the cycle goes on, each ending exactly under its own condition. */
  lemma TurnEndsIff(cfg: Settings, log: seq<LogRow>, turns: seq<Turn>, turn: Turn)
    requires !After(cfg, log, turns + [turn]).aborted
    ensures var p, q := After(cfg, log, turns), After(cfg, log, turns + [turn]);
            var seen := InsertAll(p.log, turn.others);
            && (EndsAs(p, q, NoCandidates) <==> turn.scored == [])
            && (EndsAs(p, q, Proposed) <==> turn.scored != [] && cfg.mode.Propose?)
            && (EndsAs(p, q, NoBeneficialAction)
                <==> turn.scored != [] && !cfg.mode.Propose? && !SomePays(cfg, turn))
            && (EndsAs(p, q, NeedsReviewNotExecuted)
                <==> !cfg.mode.Propose? && SomePays(cfg, turn) && OnlyFlaggedPay(cfg, turn))
            && (EndsAs(p, q, Error)
                <==> !cfg.mode.Propose? && Unreadable(cfg, turn) && exists c :: BestOf(cfg, turn, c))
            && (EndsAs(p, q, CooldownActive)
                <==> !cfg.mode.Propose? && !Unreadable(cfg, turn)
                     && exists c :: BestOf(cfg, turn, c) && OnCooldown(cfg, seen, c))
            && (EndsAs(p, q, SimulatedOnly)
                <==> cfg.mode.Simulate? && !Unreadable(cfg, turn)
                     && exists c :: BestOf(cfg, turn, c) && !OnCooldown(cfg, seen, c))
            && (EndsAs(p, q, ActionLimitReached)
                <==> cfg.mode.Execute? && !Unreadable(cfg, turn) && Attempts(p.outcomes) >= cfg.maxActions
                     && exists c :: BestOf(cfg, turn, c) && !OnCooldown(cfg, seen, c))
  {
    TurnIsVerdict(cfg, log, turns, turn);
    AbortsIff(cfg, log, turns, turn);
    var p := After(cfg, log, turns);
    VerdictIff(cfg, turn, InsertAll(p.log, turn.others), p.actionsLeft);
    EndOfVerdict(cfg, p, turn);
    hide After, Advance, Decide, InsertAll, BestOf, OnCooldown, SomePays, OnlyFlaggedPay, Unreadable, Attempts, EndsAs;
  }

  /**
    The tool framework is called exactly when the cycle acts on a best candidate: in execute
    mode, with fewer than `maxActions` recorded attempts, on a readable log without a recent row.
   */
  lemma TurnActsIff(cfg: Settings, log: seq<LogRow>, turns: seq<Turn>, turn: Turn)
    requires !After(cfg, log, turns + [turn]).aborted
    ensures var p, q := After(cfg, log, turns), After(cfg, log, turns + [turn]);
            var seen := InsertAll(p.log, turn.others);
            && (q.calls == p.calls + 1 <==> exists c :: Acts(cfg, p, turn, seen, c))
            && (q.calls != p.calls ==> q.calls == p.calls + 1)
            && (forall c | Acts(cfg, p, turn, seen, c) ::
                  q.outcomes == p.outcomes + [AnswerTo(turn.response, c)])
  {
    TurnIsVerdict(cfg, log, turns, turn);
    AbortsIff(cfg, log, turns, turn);
    var p := After(cfg, log, turns);
    var seen := InsertAll(p.log, turn.others);
    AttemptIff(cfg, turn, seen, p.actionsLeft);
    EndOfVerdict(cfg, p, turn);
    hide After, Advance, Decide, InsertAll, BestOf, OnCooldown, SomePays, OnlyFlaggedPay, Unreadable, Attempts, EndsAs,
         AnswerTo;
    var v := Decide(cfg, turn, seen, p.actionsLeft);
    if v.Attempt? { assert Acts(cfg, p, turn, seen, v.candidate); }
  }

  // ---------------------------------------------------------------- nothing twice

  predicate Accepted(o: Outcome) { o.attempted.Some? && (o.status.Executed? || o.status.PendingHumanApproval?) }

  predicate SameAction(text: Json -> string, a: Candidate, b: Candidate) {
    a.action == b.action && TargetOf(text, a.payload, TARGET_KEYS) == TargetOf(text, b.payload, TARGET_KEYS)
  }

  /**
    The calls of this cycle run under fresh keys: an accepted one adds its row, dated after the
    cycle's start. That it does, with this verdict, is `ProtocolAudit.AnswersAreLogged`.
   */
  predicate Fresh(cfg: Settings, turn: Turn) {
    turn.response.Returns? && (StatusOf(turn.response).Executed? || StatusOf(turn.response).PendingHumanApproval?) ==>
      turn.response.logged.Some? && turn.response.logged.value >= cfg.now
  }

  predicate AllFresh(cfg: Settings, turns: seq<Turn>) { forall i | 0 <= i < |turns| :: Fresh(cfg, turns[i]) }

  function OtherRows(turns: seq<Turn>): nat {
    if turns == [] then 0 else OtherRows(turns[..|turns| - 1]) + |turns[|turns| - 1].others|
  }

  /** How many rows may stand before one dated at or after the given time. */
  function NotBefore(log: seq<LogRow>, since: int): nat {
    if log == [] then 0
    else NotBefore(log[1..], since) + if log[0].created.Some? && log[0].created.value < since then 0 else 1
  }

  /** Rows that others add, and one for each opportunity, fit into what a later opportunity reads. */
  predicate FitsTheScan(cfg: Settings, log: seq<LogRow>, turns: seq<Turn>) {
    NotBefore(log, cfg.now) + OtherRows(turns) + |turns| <= LOG_LIMIT
  }

  lemma {:induction false} InsertAddsOne(log: seq<LogRow>, row: LogRow, since: int)
    ensures NotBefore(Insert(log, row), since) <= NotBefore(log, since) + 1
  {
    if log == [] || row.created.None? || (log[0].created.Some? && log[0].created.value <= row.created.value) {
      assert ([row] + log)[1..] == log;
    } else {
      InsertAddsOne(log[1..], row, since);
      assert ([log[0]] + Insert(log[1..], row))[1..] == Insert(log[1..], row);
    }
  }

  lemma {:induction false} InsertAllAddsThem(log: seq<LogRow>, rows: seq<LogRow>, since: int)
    ensures NotBefore(InsertAll(log, rows), since) <= NotBefore(log, since) + |rows|
  {
    hide Insert, NotBefore;
    if rows != [] {
      InsertAllAddsThem(log, rows[..|rows| - 1], since);
      InsertAddsOne(InsertAll(log, rows[..|rows| - 1]), rows[|rows| - 1], since);
    }
  }

  lemma {:induction false} LogGrowsSlowly(cfg: Settings, log: seq<LogRow>, turns: seq<Turn>)
    ensures NotBefore(After(cfg, log, turns).log, cfg.now) <= NotBefore(log, cfg.now) + OtherRows(turns) + |turns|
  {
    hide Insert, InsertAll, NotBefore, Decide, Advance;
    if turns != [] {
      var before, turn := After(cfg, log, turns[..|turns| - 1]), turns[|turns| - 1];
      LogGrowsSlowly(cfg, log, turns[..|turns| - 1]);
      AdvanceMoves(cfg, before, turn);
      InsertAllAddsThem(before.log, turn.others, cfg.now);
      var o := After(cfg, log, turns).outcomes;
      if |o| > |before.outcomes| && o[|before.outcomes|].attempted.Some? && turn.response.logged.Some? {
        var c, r := o[|before.outcomes|].attempted.value, turn.response;
        InsertAddsOne(InsertAll(before.log, turn.others),
                      LogRow(r.logged, c.action, c.payload, VerdictInLog(StatusOf(r)), r.executed), cfg.now);
      }
    }
  }

  /** A row of the log that stands for an accepted attempt of this cycle. */
  predicate InLog(cfg: Settings, log: seq<LogRow>, o: Outcome) {
    Accepted(o) ==>
      exists k | 0 <= k < |log| ::
        && log[k].created.Some? && log[k].created.value >= cfg.now
        && Counts(cfg.text, log[k], o.attempted.value.action,
                  TargetOf(cfg.text, o.attempted.value.payload, TARGET_KEYS))
  }

  lemma {:induction false} InsertKeepsRows(log: seq<LogRow>, row: LogRow)
    ensures row in Insert(log, row)
    ensures forall k | 0 <= k < |log| :: log[k] in Insert(log, row)
  {
    if log == [] || row.created.None? || (log[0].created.Some? && log[0].created.value <= row.created.value) {
    } else {
      InsertKeepsRows(log[1..], row);
      forall k | 0 <= k < |log| ensures log[k] in Insert(log, row) {
        if k > 0 { assert log[1..][k - 1] == log[k]; }
      }
    }
  }

  lemma StillInLog(cfg: Settings, log: seq<LogRow>, row: LogRow, o: Outcome)
    requires InLog(cfg, log, o)
    ensures InLog(cfg, Insert(log, row), o)
  {
    hide Counts, TargetOf;
    InsertKeepsRows(log, row);
    if Accepted(o) {
      var k :| 0 <= k < |log| && log[k].created.Some? && log[k].created.value >= cfg.now
               && Counts(cfg.text, log[k], o.attempted.value.action,
                         TargetOf(cfg.text, o.attempted.value.payload, TARGET_KEYS));
      var n :| 0 <= n < |Insert(log, row)| && Insert(log, row)[n] == log[k];
    }
  }

  lemma {:induction false} StillInLogOfAll(cfg: Settings, log: seq<LogRow>, rows: seq<LogRow>, o: Outcome)
    requires InLog(cfg, log, o)
    ensures InLog(cfg, InsertAll(log, rows), o)
  {
    hide Insert, InLog;
    if rows != [] {
      StillInLogOfAll(cfg, log, rows[..|rows| - 1], o);
      StillInLog(cfg, InsertAll(log, rows[..|rows| - 1]), rows[|rows| - 1], o);
    }
  }

  lemma OwnRowInLog(cfg: Settings, log: seq<LogRow>, c: Candidate, turn: Turn)
    requires turn.response.Returns? && Fresh(cfg, turn)
    ensures InLog(cfg, WithOwnRow(log, c, turn.response), Outcome(StatusOf(turn.response), Some(c)))
  {
    hide TargetOf, Insert;
    var r := turn.response;
    if r.logged.Some? {
      var row := LogRow(r.logged, c.action, c.payload, VerdictInLog(StatusOf(r)), r.executed);
      InsertKeepsRows(log, row);
      var n :| 0 <= n < |Insert(log, row)| && Insert(log, row)[n] == row;
    }
  }

  /** Every accepted attempt of the cycle is in the action log from then on. */
  lemma {:induction false} AcceptedIsLogged(cfg: Settings, log: seq<LogRow>, turns: seq<Turn>, i: nat)
    requires AllFresh(cfg, turns) && i < |After(cfg, log, turns).outcomes|
    ensures InLog(cfg, After(cfg, log, turns).log, After(cfg, log, turns).outcomes[i])
  {
    hide Advance, Decide, Insert, InsertAll, InLog, Fresh;
    var fewer, turn := turns[..|turns| - 1], turns[|turns| - 1];
    var before, after := After(cfg, log, fewer), After(cfg, log, turns);
    AdvanceMoves(cfg, before, turn);
    if |after.outcomes| == |before.outcomes| {
      AcceptedIsLogged(cfg, log, fewer, i);
    } else if i < |before.outcomes| {
      AcceptedIsLogged(cfg, log, fewer, i);
      assert after.outcomes[i] == after.outcomes[..|before.outcomes|][i] == before.outcomes[i];
      StillInLogOfAll(cfg, before.log, turn.others, before.outcomes[i]);
      StillInLogOfOwn(cfg, before, after, turn, before.outcomes[i]);
    } else {
      NewOutcomeInLog(cfg, before, after, turn);
    }
  }

  lemma StillInLogOfOwn(cfg: Settings, p: Progress, q: Progress, turn: Turn, o: Outcome)
    requires Moves(cfg, p, q, turn) && |q.outcomes| > |p.outcomes| && InLog(cfg, InsertAll(p.log, turn.others), o)
    ensures InLog(cfg, q.log, o)
  {
    hide Decide, Insert, InsertAll, InLog;
    var log := InsertAll(p.log, turn.others);
    if q.log != log {
      var c, r := q.outcomes[|p.outcomes|].attempted.value, turn.response;
      StillInLog(cfg, log, LogRow(r.logged, c.action, c.payload, VerdictInLog(StatusOf(r)), r.executed), o);
    }
  }

  lemma NewOutcomeInLog(cfg: Settings, p: Progress, q: Progress, turn: Turn)
    requires Moves(cfg, p, q, turn) && |q.outcomes| > |p.outcomes| && Fresh(cfg, turn)
    ensures InLog(cfg, q.log, q.outcomes[|p.outcomes|])
  {
    hide Decide, Insert, InsertAll, Counts, TargetOf, Fresh, WithOwnRow;
    var o := q.outcomes[|p.outcomes|];
    if o.attempted.Some? {
      OwnRowInLog(cfg, InsertAll(p.log, turn.others), o.attempted.value, turn);
      assert o == Outcome(StatusOf(turn.response), Some(o.attempted.value));
    }
  }

  /** Outcomes line up with the opportunities they came from. */
  lemma {:induction false} OutcomeOfTurn(cfg: Settings, log: seq<LogRow>, turns: seq<Turn>, i: nat)
    requires i < |After(cfg, log, turns).outcomes|
    ensures i < |turns| && |After(cfg, log, turns[..i]).outcomes| == i
    ensures forall k | 0 <= k < i :: After(cfg, log, turns[..i]).outcomes[k] == After(cfg, log, turns).outcomes[k]
    ensures var p := After(cfg, log, turns[..i]);
            After(cfg, log, turns).outcomes[i].attempted.Some? ==>
              Decide(cfg, turns[i], InsertAll(p.log, turns[i].others), p.actionsLeft)
              == Attempt(After(cfg, log, turns).outcomes[i].attempted.value)
  {
    hide Advance, Decide, InsertAll, WithOwnRow;
    var fewer := turns[..|turns| - 1];
    var before, after := After(cfg, log, fewer), After(cfg, log, turns);
    AdvanceMoves(cfg, before, turns[|turns| - 1]);
    NoneMissing(cfg, log, fewer);
    if i < |before.outcomes| {
      OutcomeOfTurn(cfg, log, fewer, i);
      assert after.outcomes[..|before.outcomes|] == before.outcomes by {
        if |after.outcomes| == |before.outcomes| { assert after.outcomes == before.outcomes; }
      }
      forall k | 0 <= k <= i ensures after.outcomes[k] == before.outcomes[k] {
        assert after.outcomes[..|before.outcomes|][k] == before.outcomes[k];
      }
      assert fewer[..i] == turns[..i];
    } else {
      assert turns[..i] == fewer;
      forall k | 0 <= k < i ensures after.outcomes[k] == before.outcomes[k] {
        assert after.outcomes[..|before.outcomes|][k] == before.outcomes[k];
      }
    }
  }

  lemma {:induction false} NoneMissing(cfg: Settings, log: seq<LogRow>, turns: seq<Turn>)
    ensures |After(cfg, log, turns).outcomes| <= |turns|
    ensures !After(cfg, log, turns).aborted ==> |After(cfg, log, turns).outcomes| == |turns|
  {
    hide Advance, Decide, InsertAll, WithOwnRow;
    if turns != [] {
      NoneMissing(cfg, log, turns[..|turns| - 1]);
      AdvanceMoves(cfg, After(cfg, log, turns[..|turns| - 1]), turns[|turns| - 1]);
    }
  }

  /** In a log newest first, only rows not dated before it stand before a row. */
  lemma {:induction false} RowsBefore(log: seq<LogRow>, k: nat, since: int)
    requires NewestFirst(log) && k < |log| && log[k].created.Some? && log[k].created.value >= since
    ensures k < NotBefore(log, since)
  {
    if k > 0 {
      assert log[1..][k - 1] == log[k];
      RowsBefore(log[1..], k - 1, since);
    }
  }

  /** An attempt was only made because the log it read showed no counting row. */
  lemma AttemptSawNothing(cfg: Settings, turn: Turn, log: seq<LogRow>, actionsLeft: int, c: Candidate, k: nat)
    requires cfg.cooldown > 0 && Decide(cfg, turn, log, actionsLeft) == Attempt(c)
    requires k < |Take(log, LOG_LIMIT)| && log[k].created.Some? && log[k].created.value >= cfg.now
    ensures !Counts(cfg.text, log[k], c.action, TargetOf(cfg.text, c.payload, TARGET_KEYS))
  {
    hide Choose, Counts;
    assert !CoolingDown(cfg, log, c);
    assert Take(log, LOG_LIMIT)[k] == log[k];
  }

  lemma {:induction false} FewerRows(turns: seq<Turn>, j: nat)
    requires j < |turns|
    ensures OtherRows(turns[..j]) + |turns[j].others| <= OtherRows(turns)
  {
    if j == |turns| - 1 {
    } else {
      assert turns[..|turns| - 1][..j] == turns[..j];
      FewerRows(turns[..|turns| - 1], j);
    }
  }

  /** What an opportunity reads shows every attempt this cycle has had accepted before it. */
  lemma AcceptedIsSeen(cfg: Settings, log: seq<LogRow>, turns: seq<Turn>, i: nat, j: nat) returns (k: nat)
    requires NewestFirst(log) && AllFresh(cfg, turns) && FitsTheScan(cfg, log, turns) && j < |turns|
    requires i < |After(cfg, log, turns[..j]).outcomes| && Accepted(After(cfg, log, turns[..j]).outcomes[i])
    ensures var seen, a := InsertAll(After(cfg, log, turns[..j]).log, turns[j].others),
                           After(cfg, log, turns[..j]).outcomes[i].attempted.value;
            && k < |Take(seen, LOG_LIMIT)| && seen[k].created.Some? && seen[k].created.value >= cfg.now
            && Counts(cfg.text, seen[k], a.action, TargetOf(cfg.text, a.payload, TARGET_KEYS))
  {
    hide After, InsertAll, Counts, TargetOf, NotBefore, NewestFirst, Fresh;
    var p := After(cfg, log, turns[..j]);
    var seen := InsertAll(p.log, turns[j].others);
    forall n | 0 <= n < j ensures Fresh(cfg, turns[..j][n]) { assert turns[..j][n] == turns[n]; }
    AcceptedIsLogged(cfg, log, turns[..j], i);
    StillInLogOfAll(cfg, p.log, turns[j].others, p.outcomes[i]);
    LogStaysInOrder(cfg, log, turns[..j]);
    InsertAllKeepsOrder(p.log, turns[j].others);
    LogGrowsSlowly(cfg, log, turns[..j]);
    InsertAllAddsThem(p.log, turns[j].others, cfg.now);
    FewerRows(turns, j);
    var a := p.outcomes[i].attempted.value;
    k :| 0 <= k < |seen| && seen[k].created.Some? && seen[k].created.value >= cfg.now
         && Counts(cfg.text, seen[k], a.action, TargetOf(cfg.text, a.payload, TARGET_KEYS));
    RowsBefore(seen, k, cfg.now);
  }

  /** No two accepted attempts of one cycle are the same action on the same target. */
  lemma NothingTwice(cfg: Settings, log: seq<LogRow>, turns: seq<Turn>, i: nat, j: nat)
    requires cfg.cooldown > 0 && NewestFirst(log) && AllFresh(cfg, turns) && FitsTheScan(cfg, log, turns)
    requires i < j < |After(cfg, log, turns).outcomes|
    requires Accepted(After(cfg, log, turns).outcomes[i]) && Accepted(After(cfg, log, turns).outcomes[j])
    ensures !SameAction(cfg.text, After(cfg, log, turns).outcomes[i].attempted.value,
                        After(cfg, log, turns).outcomes[j].attempted.value)
  {
    hide Decide, After, Counts, InsertAll, NewestFirst, AllFresh, FitsTheScan, TargetOf;
    var a, b := After(cfg, log, turns).outcomes[i].attempted.value, After(cfg, log, turns).outcomes[j].attempted.value;
    OutcomeOfTurn(cfg, log, turns, j);
    var p := After(cfg, log, turns[..j]);
    var k := AcceptedIsSeen(cfg, log, turns, i, j);
    AttemptSawNothing(cfg, turns[j], InsertAll(p.log, turns[j].others), p.actionsLeft, b, k);
  }
}
