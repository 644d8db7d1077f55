/**
  What autonomous execution can do to prices, when prices change only through the protocol.
  The classifier bounds the figure an action asks for; the price column then rounds it to
  whole cents, and only figures that round back inside the band keep the bound exactly.
 */
module ProtocolPrices {
  import opened Wrappers
  import opened Policy
  import opened Columns
  import opened Protocol
  import opened ProtocolInvariant
  import opened ProtocolHistory

  /** The prices in effect after a prefix of the event log. */
  function PricesAfter(initial: map<Slot, real>, events: seq<AgentEvent>): map<Slot, real> {
    if events == [] then initial
    else
      var e := events[|events| - 1];
      Applied(PricesAfter(initial, events[..|events| - 1]), e.tenant, e.action)
  }

  predicate Continues(initial: map<Slot, real>, before: seq<AgentEvent>, e: AgentEvent) {
    && e.before == CurrentValue(PricesAfter(initial, before), e.tenant, e.action)
    && CanApply(PricesAfter(initial, before), e.tenant, e.action)
  }

  /** The log explains the current prices, and each event saw the price its predecessor left. */
  ghost predicate PricesOk(s: State) {
    && s.values == PricesAfter(s.initial, s.events)
    && (forall i | 0 <= i < |s.events| :: Continues(s.initial, s.events[..i], s.events[i]))
  }

  lemma PricesStep(s: State, s': State, w: WorkerId)
    requires PricesOk(s) && EventsGrow(s, s', w) && s'.initial == s.initial
    ensures PricesOk(s')
  {
    if s'.events != s.events {
      var n := |s.events|;
      assert s'.events[..n] == s.events;
      forall i | 0 <= i <= n ensures Continues(s'.initial, s'.events[..i], s'.events[i]) {
        if i < n {
          assert s'.events[..i] == s.events[..i];
          assert Continues(s.initial, s.events[..i], s.events[i]);
        }
      }
    }
  }

  lemma {:induction false} RunPrices(s: State, schedule: seq<Label>)
    requires Inv(s) && PricesOk(s)
    ensures PricesOk(Run(s, schedule))
    decreases |schedule|
  {
    hide Step, Inv, PricesOk, EventsGrow, KeysGrow, DecisionsGrow, ApprovalsGrow, RequestsGrow;
    if schedule != [] {
      var before, last := schedule[..|schedule| - 1], schedule[|schedule| - 1];
      RunPrices(s, before);
      RunKeeps(s, before);
      StepKeeps(Run(s, before), last);
      if Run(s, schedule) != Run(s, before) {
        PricesStep(Run(s, before), Run(s, schedule), Mover(last));
      }
    }
  }

  predicate Autonomous(s: State, e: AgentEvent) {
    e.worker in s.workers && !s.workers[e.worker].kind.Approver?
  }

  function SlotOf(e: AgentEvent): Slot
    requires e.action.PriceChange?
  {
    MenuPrice(e.tenant, e.action.item)
  }

  /** The price event i found, and the one it left. */
  function PriceBefore(initial: map<Slot, real>, events: seq<AgentEvent>, i: int): Option<real>
    requires 0 <= i < |events| && events[i].action.PriceChange?
  {
    CurrentValue(PricesAfter(initial, events[..i]), events[i].tenant, events[i].action)
  }

  function PriceLeft(initial: map<Slot, real>, events: seq<AgentEvent>, i: int): Option<real>
    requires 0 <= i < |events| && events[i].action.PriceChange?
  {
    CurrentValue(PricesAfter(initial, events[..i + 1]), events[i].tenant, events[i].action)
  }

  /** Event i asks for a price within a tenth of the positive one it found, and leaves it in whole cents. */
  predicate SmallMove(initial: map<Slot, real>, events: seq<AgentEvent>, i: int)
    requires 0 <= i < |events|
  {
    var e := events[i];
    && e.action.PriceChange? && e.action.newPrice.Number?
    && PriceBefore(initial, events, i).Some? && PriceLeft(initial, events, i).Some?
    && PriceBefore(initial, events, i).value > 0.0
    && WithinFraction(PriceBefore(initial, events, i).value, e.action.newPrice.value, 0.10)
    && PriceLeft(initial, events, i).value == Cents(e.action.newPrice.value)
  }

  // ---------------------------------------------------------------- rounding and the band

  /** The highest and the lowest whole-cent price within a tenth. */
  function HighestCent(price: real): real { (110.0 * price).Floor as real / 100.0 }

  function LowestCent(price: real): real { -((-90.0 * price).Floor as real) / 100.0 }

  /** A figure the column rounds to a price still within a tenth: checkable before the call. */
  predicate RoundsInside(price: real, figure: real) {
    LowestCent(price) - 0.005 <= figure < HighestCent(price) + 0.005
  }

  /** The stored price stays within a tenth exactly when the figure rounds inside the band. */
  lemma StoredWithinATenthIff(price: real, figure: real)
    requires price > 0.0
    ensures WithinFraction(price, Cents(figure), 0.10) <==> RoundsInside(price, figure)
  {
    var n, high, low := (figure * 100.0 + 0.5).Floor, (110.0 * price).Floor, -((-90.0 * price).Floor);
    assert Cents(figure) * 100.0 == n as real;
    assert n as real <= 110.0 * price <==> n <= high;
    assert n as real >= 90.0 * price <==> n >= low;
  }

  /** A whole-cent figure within a tenth always does. */
  lemma WholeCentsRoundInside(price: real, figure: real)
    requires price > 0.0 && WholeCents(figure) && WithinFraction(price, figure, 0.10)
    ensures RoundsInside(price, figure)
  {
    CentsIff(figure);
    StoredWithinATenthIff(price, figure);
  }

  lemma AutonomousIsLowRisk(s: State, e: AgentEvent)
    requires Inv(s) && EventOk(s, e) && Autonomous(s, e)
    ensures e.action.PriceChange? && e.action.newPrice.Number?
    ensures e.before.Some? && e.before.value > 0.0
            && WithinFraction(e.before.value, e.action.newPrice.value, 0.10)
  {
    assert DecisionOk(s, s.decisions[e.decision], e.decision);
    AutonomousExactly(e.action, Number(s.decisions[e.decision].confidence), e.before);
  }

  /** An event that continues its prefix with a figure within a tenth is a small move. */
  lemma ContinuedMove(initial: map<Slot, real>, events: seq<AgentEvent>, i: int)
    requires 0 <= i < |events| && Continues(initial, events[..i], events[i])
    requires var e := events[i];
             && e.action.PriceChange? && e.action.newPrice.Number? && e.before.Some?
             && e.before.value > 0.0
             && WithinFraction(e.before.value, e.action.newPrice.value, 0.10)
    ensures SmallMove(initial, events, i)
  {
    assert events[..i + 1][..i] == events[..i];
  }

  lemma AutonomousEvent(s: State, i: int)
    requires Inv(s) && PricesOk(s)
    requires 0 <= i < |s.events| && Autonomous(s, s.events[i])
    ensures SmallMove(s.initial, s.events, i)
  {
    assert EventOk(s, s.events[i]);
    AutonomousIsLowRisk(s, s.events[i]);
    assert Continues(s.initial, s.events[..i], s.events[i]);
    ContinuedMove(s.initial, s.events, i);
  }

  lemma ReachablePrices(prices: map<Slot, real>, schedule: seq<Label>)
    ensures var s := Run(Start(prices), schedule); Inv(s) && PricesOk(s) && s.initial == prices
  {
    StartKeeps(prices);
    RunKeeps(Start(prices), schedule);
    RunPrices(Start(prices), schedule);
    InitialStays(Start(prices), schedule);
  }

  lemma {:induction false} InitialStays(s: State, schedule: seq<Label>)
    requires Inv(s)
    ensures Run(s, schedule).initial == s.initial
    decreases |schedule|
  {
    if schedule != [] {
      var before := schedule[..|schedule| - 1];
      InitialStays(s, before);
      RunKeeps(s, before);
      StepKeeps(Run(s, before), schedule[|schedule| - 1]);
    }
  }

  /**
    In every reachable state each autonomous event is a price change whose figure lies within a
    tenth of the price in effect immediately before it, whatever other workers and reviewers
    did in between; the price it leaves is off by half a cent at most beyond that tenth.
   */
  lemma EveryAutonomousMoveIsSmall(prices: map<Slot, real>, schedule: seq<Label>)
    ensures var s := Run(Start(prices), schedule);
      forall i | 0 <= i < |s.events| && Autonomous(s, s.events[i]) ::
        && SmallMove(prices, s.events, i)
        && Abs(PriceLeft(prices, s.events, i).value - PriceBefore(prices, s.events, i).value)
           <= PriceBefore(prices, s.events, i).value / 10.0 + 0.005
  {
    ReachablePrices(prices, schedule);
    var s := Run(Start(prices), schedule);
    hide Run, Inv;
    forall i | 0 <= i < |s.events| && Autonomous(s, s.events[i])
      ensures SmallMove(prices, s.events, i)
      ensures Abs(PriceLeft(prices, s.events, i).value - PriceBefore(prices, s.events, i).value)
              <= PriceBefore(prices, s.events, i).value / 10.0 + 0.005
    {
      AutonomousEvent(s, i);
      CentsIff(s.events[i].action.newPrice.value);
    }
  }

  /** And it keeps within the tenth itself exactly when its figure rounds inside the band. */
  lemma AutonomousMoveWithinATenthIff(prices: map<Slot, real>, schedule: seq<Label>, i: int)
    requires var s := Run(Start(prices), schedule); 0 <= i < |s.events| && Autonomous(s, s.events[i])
    ensures var events := Run(Start(prices), schedule).events;
            && SmallMove(prices, events, i)
            && (WithinFraction(PriceBefore(prices, events, i).value, PriceLeft(prices, events, i).value, 0.10)
                <==> RoundsInside(PriceBefore(prices, events, i).value, events[i].action.newPrice.value))
  {
    EveryAutonomousMoveIsSmall(prices, schedule);
    var events := Run(Start(prices), schedule).events;
    hide Run, SmallMove;
    assert SmallMove(prices, events, i);
    SmallMoveWithinIff(prices, events, i);
  }

  lemma SmallMoveWithinIff(initial: map<Slot, real>, events: seq<AgentEvent>, i: int)
    requires 0 <= i < |events| && SmallMove(initial, events, i)
    ensures WithinFraction(PriceBefore(initial, events, i).value, PriceLeft(initial, events, i).value, 0.10)
            <==> RoundsInside(PriceBefore(initial, events, i).value, events[i].action.newPrice.value)
  {
    StoredWithinATenthIff(PriceBefore(initial, events, i).value, events[i].action.newPrice.value);
  }

  function Pow(x: real, n: nat): real { if n == 0 then 1.0 else x * Pow(x, n - 1) }

  predicate Hits(e: AgentEvent, slot: Slot) { e.action.PriceChange? && SlotOf(e) == slot }

  /** How many events of a stretch of the log move this menu price. */
  function MovesOf(events: seq<AgentEvent>, slot: Slot): nat {
    if events == [] then 0
    else MovesOf(events[..|events| - 1], slot) + if Hits(events[|events| - 1], slot) then 1 else 0
  }

  /** Between (9/10)^n and (11/10)^n of p, and positive. */
  predicate Drifted(p: real, q: real, n: nat) {
    q > 0.0 && Pow(0.9, n) * p <= q <= Pow(1.1, n) * p
  }

  lemma Compound(p: real, q: real, r: real, n: nat)
    requires Drifted(p, q, n) && WithinFraction(q, r, 0.10)
    ensures Drifted(p, r, n + 1)
  {
    assert 0.9 * q <= r <= 1.1 * q;
    assert Pow(0.9, n + 1) * p == 0.9 * (Pow(0.9, n) * p);
    assert Pow(1.1, n + 1) * p == 1.1 * (Pow(1.1, n) * p);
  }

  /** A small move whose figure rounds inside the band. */
  predicate KeptSmall(initial: map<Slot, real>, events: seq<AgentEvent>, k: int)
    requires 0 <= k < |events|
  {
    SmallMove(initial, events, k)
    && RoundsInside(PriceBefore(initial, events, k).value, events[k].action.newPrice.value)
  }

  /** The last event of a prefix moves the price by a small step or not at all. */
  lemma LastMove(initial: map<Slot, real>, events: seq<AgentEvent>, j: int, slot: Slot)
    requires 0 < j <= |events| && slot.MenuPrice? && slot in PricesAfter(initial, events[..j - 1])
    requires Hits(events[j - 1], slot) ==> KeptSmall(initial, events, j - 1)
    ensures slot in PricesAfter(initial, events[..j])
    ensures var q, r := PricesAfter(initial, events[..j - 1])[slot], PricesAfter(initial, events[..j])[slot];
            if Hits(events[j - 1], slot) then WithinFraction(q, r, 0.10) else r == q
  {
    assert events[..j][..j - 1] == events[..j - 1];
    if Hits(events[j - 1], slot) { SmallMoveWithinIff(initial, events, j - 1); }
  }

  lemma {:induction false} SmallMovesCompound(initial: map<Slot, real>, events: seq<AgentEvent>,
                                              i: int, j: int, slot: Slot)
    requires 0 <= i <= j <= |events| && slot.MenuPrice?
    requires forall k | i <= k < j && Hits(events[k], slot) :: KeptSmall(initial, events, k)
    requires slot in PricesAfter(initial, events[..i]) && PricesAfter(initial, events[..i])[slot] > 0.0
    ensures slot in PricesAfter(initial, events[..j])
    ensures Drifted(PricesAfter(initial, events[..i])[slot], PricesAfter(initial, events[..j])[slot],
                    MovesOf(events[i..j], slot))
    decreases j
  {
    if i < j {
      SmallMovesCompound(initial, events, i, j - 1, slot);
      LastMove(initial, events, j, slot);
      assert events[i..j][..j - 1 - i] == events[i..j - 1];
      if Hits(events[j - 1], slot) {
        Compound(PricesAfter(initial, events[..i])[slot], PricesAfter(initial, events[..j - 1])[slot],
                 PricesAfter(initial, events[..j])[slot], MovesOf(events[i..j - 1], slot));
      }
    } else {
      assert events[i..j] == [];
    }
  }

  /**
    Over any stretch of the log in which a positive menu price is moved only autonomously, by
    figures that round inside the band, n moves keep it between (9/10)^n and (11/10)^n of where
    it stood, so it stays positive.
   */
  lemma AutonomousDriftIsBounded(prices: map<Slot, real>, schedule: seq<Label>, i: int, j: int, slot: Slot)
    requires slot.MenuPrice? && 0 <= i <= j <= |Run(Start(prices), schedule).events|
    requires var s := Run(Start(prices), schedule);
             forall k | i <= k < j && Hits(s.events[k], slot) ::
               && Autonomous(s, s.events[k]) && s.events[k].action.newPrice.Number?
               && PriceBefore(prices, s.events, k).Some?
               && RoundsInside(PriceBefore(prices, s.events, k).value, s.events[k].action.newPrice.value)
    requires var p := PricesAfter(prices, Run(Start(prices), schedule).events[..i]);
             slot in p && p[slot] > 0.0
    ensures var events := Run(Start(prices), schedule).events;
            slot in PricesAfter(prices, events[..j])
            && Drifted(PricesAfter(prices, events[..i])[slot], PricesAfter(prices, events[..j])[slot],
                       MovesOf(events[i..j], slot))
  {
    EveryAutonomousMoveIsSmall(prices, schedule);
    SmallMovesCompound(prices, Run(Start(prices), schedule).events, i, j, slot);
  }

  // ---------------------------------------------------------------- a move that leaves the band

  const SOUP := MenuPrice(0, "soup")
  const FIGURE := 10.0865
  const RISE := PriceChange("soup", Number(FIGURE))
  const CALL_KEY := Key(0, "k")

  const PROPOSED: seq<Label> := [Call(1, CALL_KEY, 7, RISE), Claim(1, 0), Propose(1, 1, 0.85)]
  const ASSESSED: seq<Label> := [Acquire(1), Assess(1)]
  const APPENDED: seq<Label> := [Take(1), Observe(1), Evaluate(1), Append(1)]

  /** The one call there is, at this phase, with this baseline. */
  predicate OnCourse(s: State, phase: Phase, current: Option<real>, status: DecisionStatus) {
    && s.workers == map[1 := Worker(Caller, CALL_KEY, 7, RISE, phase, true, Some(1), current, false, false, NoOutcome)]
    && s.decisions.Keys == {1} && s.decisions[1].status == status && s.decisions[1].cleared
    && s.decisions[1].confidence == 0.85
    && s.values == map[SOUP := 9.17] && s.events == []
  }

  /** The call owns its key and has proposed nothing yet. */
  predicate Claimed(s: State) {
    && s.workers == map[1 := Worker(Caller, CALL_KEY, 7, RISE, Proposing, true, None, None, false, false, NoOutcome)]
    && s.decisions == map[] && s.values == map[SOUP := 9.17] && s.events == [] && s.locks == map[]
  }

  lemma SoupIsClaimed(s: State)
    requires s == Start(map[SOUP := 9.17])
    ensures Claimed(Step(Step(s, PROPOSED[0]), PROPOSED[1]))
  {
    hide StepDeciding, StepExecuting;
    assert Step(s, PROPOSED[0]) == AfterCall(s, 1, CALL_KEY, 7, RISE);
    assert CanClaim(AfterCall(s, 1, CALL_KEY, 7, RISE), 1);
  }

  lemma SoupIsCleared(s: State)
    requires Claimed(s)
    ensures OnCourse(Step(s, PROPOSED[2]), Locking, None, Simulated) && Step(s, PROPOSED[2]).locks == map[]
  {
    hide StepIntake, StepBookkeeping, StepExecuting;
    assert CanPropose(s, 1, 1, 0.85);
  }

  lemma SoupIsProposed()
    ensures var s := Run(Start(map[SOUP := 9.17]), PROPOSED);
            OnCourse(s, Locking, None, Simulated) && s.locks == map[]
  {
    hide Step, Claimed, OnCourse;
    var s := Start(map[SOUP := 9.17]);
    assert PROPOSED == [PROPOSED[0]] + ([PROPOSED[1]] + [PROPOSED[2]]);
    RunFirst(s, PROPOSED[0], [PROPOSED[1]] + [PROPOSED[2]]);
    RunFirst(Step(s, PROPOSED[0]), PROPOSED[1], [PROPOSED[2]]);
    SoupIsClaimed(s);
    var u := Step(Step(s, PROPOSED[0]), PROPOSED[1]);
    RunOne(u, PROPOSED[2]);
    SoupIsCleared(u);
  }

  lemma SoupIsAssessed(s: State)
    requires OnCourse(s, Locking, None, Simulated) && s.locks == map[]
    ensures OnCourse(Run(s, ASSESSED), Taking, Some(9.17), Simulated)
  {
    assert ASSESSED == [ASSESSED[0]] + [ASSESSED[1]];
    RunFirst(s, ASSESSED[0], [ASSESSED[1]]);
    RunOne(Step(s, ASSESSED[0]), ASSESSED[1]);
    hide Run, Step;
    SoupIsLocked(s);
    SoupIsLowRisk(Step(s, ASSESSED[0]));
  }

  lemma SoupIsLocked(s: State)
    requires OnCourse(s, Locking, None, Simulated) && s.locks == map[]
    ensures OnCourse(Step(s, Acquire(1)), Reading, None, Simulated)
  {
    hide StepIntake, StepBookkeeping, StepExecuting;
    assert CanAcquire(s, 1);
  }

  lemma SoupIsLowRisk(s: State)
    requires OnCourse(s, Reading, None, Simulated)
    ensures OnCourse(Step(s, Assess(1)), Taking, Some(9.17), Simulated)
  {
    AutonomousExactly(RISE, Number(0.85), Some(9.17));
    LowRiskPassesCritic(RISE, Number(0.85), Some(9.17));
    hide StepIntake, StepBookkeeping, StepExecuting, CriticApproves, ClassifyRisk;
    assert CanAssess(s, 1);
    assert CurrentValue(s.values, 0, RISE) == Some(9.17);
  }

  lemma SoupIsTaken(s: State)
    requires OnCourse(s, Taking, Some(9.17), Simulated)
    ensures OnCourse(Step(s, Take(1)), Observing, Some(9.17), Executed)
  {
    hide StepIntake, StepBookkeeping, StepDeciding;
    assert CanTake(s, 1);
  }

  lemma SoupIsEvaluated(s: State)
    requires OnCourse(s, Observing, Some(9.17), Executed)
    ensures OnCourse(Step(Step(s, Observe(1)), Evaluate(1)), Appending, Some(9.17), Evaluated)
  {
    hide StepIntake, StepBookkeeping, StepDeciding;
    assert CanObserve(s, 1) && CanEvaluate(Step(s, Observe(1)), 1);
  }

  lemma SoupIsRepriced(s: State)
    requires OnCourse(s, Appending, Some(9.17), Evaluated)
    ensures var t := Step(s, Append(1));
            && t.values == map[SOUP := 10.09] && t.events == [AgentEvent(1, 1, 0, RISE, Some(9.17))]
  {
    hide StepIntake, StepBookkeeping, StepDeciding;
    assert (FIGURE * 100.0 + 0.5).Floor == 1009;
    assert CanAppend(s, 1) && CurrentValue(s.values, 0, RISE) == Some(9.17);
  }

  lemma SoupIsAppended(s: State)
    requires OnCourse(s, Taking, Some(9.17), Simulated)
    ensures var t := Run(s, APPENDED);
            && t.values == map[SOUP := 10.09] && t.events == [AgentEvent(1, 1, 0, RISE, Some(9.17))]
  {
    assert APPENDED == [APPENDED[0]] + ([APPENDED[1]] + ([APPENDED[2]] + [APPENDED[3]]));
    RunFirst(s, APPENDED[0], [APPENDED[1]] + ([APPENDED[2]] + [APPENDED[3]]));
    var t := Step(s, APPENDED[0]);
    RunFirst(t, APPENDED[1], [APPENDED[2]] + [APPENDED[3]]);
    var u := Step(t, APPENDED[1]);
    RunFirst(u, APPENDED[2], [APPENDED[3]]);
    RunOne(Step(u, APPENDED[2]), APPENDED[3]);
    hide Run, Step, OnCourse;
    SoupIsTaken(s);
    SoupIsEvaluated(t);
    SoupIsRepriced(Step(u, APPENDED[2]));
  }

  /**
    From 9.17, an autonomous change to 10.0865 is low risk, and the column keeps 10.09: more
    than a tenth above the price it started from.
   */
  lemma SubCentMoveLeavesTheBand()
    ensures var s := Run(Start(map[SOUP := 9.17]), PROPOSED + ASSESSED + APPENDED);
            && |s.events| == 1 && s.events[0].before == Some(9.17) && s.values == map[SOUP := 10.09]
            && WithinFraction(9.17, FIGURE, 0.10) && !WithinFraction(9.17, 10.09, 0.10)
  {
    var s := Start(map[SOUP := 9.17]);
    RunConcat(s, PROPOSED, ASSESSED);
    RunConcat(s, PROPOSED + ASSESSED, APPENDED);
    hide Run;
    SoupIsProposed();
    SoupIsAssessed(Run(s, PROPOSED));
    SoupIsAppended(Run(Run(s, PROPOSED), ASSESSED));
  }

  // ---------------------------------------------------------------- the price in force

  /** The figure an event puts in place of a price, if it moves that price. */
  function AskedOf(e: AgentEvent, slot: Slot): Option<real> {
    match e.action
    case PriceChange(item, Number(v)) => if slot == MenuPrice(e.tenant, item) then Some(v) else None
    case SupplierSwitch(ingredient, Number(v)) =>
      if slot == IngredientPrice(e.tenant, ingredient) then Some(v) else None
    case _ => None
  }

  /** What the last event that moves a price asks for. */
  function LastAsked(events: seq<AgentEvent>, slot: Slot): Option<real> {
    if events == [] then None
    else if AskedOf(events[|events| - 1], slot).Some? then AskedOf(events[|events| - 1], slot)
    else LastAsked(events[..|events| - 1], slot)
  }

  lemma AppliedIsAsked(values: map<Slot, real>, e: AgentEvent, slot: Slot)
    requires CanApply(values, e.tenant, e.action)
    ensures var after := Applied(values, e.tenant, e.action);
            && (slot in after <==> slot in values)
            && (slot in values ==>
                  after[slot] == match AskedOf(e, slot) case Some(v) => Cents(v) case None => values[slot])
  {
    hide Cents;
  }

  lemma {:induction false} PricesAreAsked(initial: map<Slot, real>, events: seq<AgentEvent>, slot: Slot)
    requires forall i | 0 <= i < |events| :: Continues(initial, events[..i], events[i])
    ensures var now := PricesAfter(initial, events);
            && (slot in now <==> slot in initial)
            && (slot in initial ==>
                  now[slot] == match LastAsked(events, slot) case Some(v) => Cents(v) case None => initial[slot])
  {
    hide Cents, Applied, AskedOf, CanApply;
    if events != [] {
      var before, e := events[..|events| - 1], events[|events| - 1];
      forall i | 0 <= i < |before| ensures Continues(initial, before[..i], before[i]) {
        assert before[..i] == events[..i];
      }
      PricesAreAsked(initial, before, slot);
      assert Continues(initial, before, e);
      AppliedIsAsked(PricesAfter(initial, before), e, slot);
    }
  }

  /**
    In every reachable state a price is what the last event about it asked for, in whole cents,
    and the seeded one if there was none; no event adds or removes a priced entity.
   */
  lemma PriceIsTheLastAsked(prices: map<Slot, real>, schedule: seq<Label>, slot: Slot)
    ensures var s := Run(Start(prices), schedule);
            && (slot in s.values <==> slot in prices)
            && (slot in prices ==>
                  s.values[slot] == match LastAsked(s.events, slot) case Some(v) => Cents(v) case None => prices[slot])
  {
    ReachablePrices(prices, schedule);
    hide Run, Inv, Cents;
    PricesAreAsked(prices, Run(Start(prices), schedule).events, slot);
  }
}
