/**
  How far stored and replayed stock can drift apart when figures have more than four decimals:
  half a ten-thousandth for each stock event since the level was last set.
 */
module EventDrift {
  import opened Wrappers
  import opened Json
  import opened HashChain
  import opened Columns
  import opened EventTables
  import opened EventEffects
  import opened EventReplay
  import opened EventIsolation
  import opened EventRuns

  const HALF_STEP := 0.00005

  predicate MovesStock(e: Event, id: string) { IsStockEvent(e.kind) && Concerns(e, "ingredient_id", id) }

  /** The events of a log that have rounded a level since it was last set. */
  function Roundings(log: seq<Event>, id: string): nat {
    if log == [] then 0
    else
      var e := log[|log| - 1];
      if SetsLevel(e, id) then 1
      else Roundings(log[..|log| - 1], id) + if MovesStock(e, id) then 1 else 0
  }

  /** What the table holds beyond the replayed level and the seeded stock it carries along. */
  function Drift(before: Tables, now: Tables, tenant: string, view: map<Json, real>, log: seq<Event>, id: string): real
    requires id in before.ingredients && id in now.ingredients
  {
    Stock(now, tenant, id) - Seen(view, id).GetOr(0.0) - Carried(before, tenant, id, log)
  }

  predicate WithinDrift(before: Tables, now: Tables, tenant: string, view: map<Json, real>, log: seq<Event>, id: string)
    requires id in before.ingredients && id in now.ingredients
  {
    -(Roundings(log, id) as real) * HALF_STEP <= Drift(before, now, tenant, view, log, id)
    <= Roundings(log, id) as real * HALF_STEP
  }

  ghost predicate StockNear(before: Tables, now: Tables, tenant: string, view: map<Json, real>, log: seq<Event>) {
    forall id: string | IngredientRow(now, tenant, id).Some? ::
      id in before.ingredients && WithinDrift(before, now, tenant, view, log, id)
  }

  // ---------------------------------------------------------------- events that move no stock

  /** No level and no owner of an ingredient has moved. */
  ghost predicate LevelsKept(t: Tables, u: Tables) {
    && u.inventory == t.inventory && u.ingredients.Keys == t.ingredients.Keys
    && forall k | k in t.ingredients ::
         u.ingredients[k].stock == t.ingredients[k].stock && u.ingredients[k].tenant == t.ingredients[k].tenant
  }

  lemma OthersKeepLevels(rt: Runtime, t: Tables, u: Tables, kind: EventType, e: Entry)
    requires !IsStockEvent(kind) && Apply(rt, t, kind, e) == Success(u)
    ensures LevelsKept(t, u)
  {
    if kind.SupplierPriceChange? {
      hide ApplySupplierPriceChange;
      SupplierPriceReprices(rt, t, e);
    } else if kind.SupplierSwitch? {
      hide ApplySupplierSwitch;
      SwitchMovesTheSupplier(t, e);
    } else if kind.MenuPriceChange? || kind.MenuItemAdded? || kind.MenuItemRemoved? {
    } else {
      OtherKindsTouch(rt, t, u, kind, e);
    }
  }

  lemma OthersReplayNoStock(rt: Runtime, skus: map<string, Sku>, tenant: string, v: View, e: Event)
    requires !IsStockEvent(e.kind)
    ensures ReplayEvent(rt, skus, tenant, v, e).Success?
    ensures ReplayEvent(rt, skus, tenant, v, e).value.stock == v.stock
  {
    SuppliersReplayNoStock(skus, tenant, v, e.payload);
    MenuReplaysNoStock(v, e.payload);
    hide ReplayStock, ReplaySupplierPrice, ReplaySupplierSwitch, ReplayMenuPrice, ReplayMenuRemoved, ReplayMenuAdded,
         Get, GetOr;
  }

  lemma SuppliersReplayNoStock(skus: map<string, Sku>, tenant: string, v: View, payload: Payload)
    ensures ReplaySupplierPrice(skus, tenant, v, payload).stock == v.stock
    ensures ReplaySupplierSwitch(v, payload).stock == v.stock
  {
    hide IngredientOf;
  }

  lemma MenuReplaysNoStock(v: View, payload: Payload)
    ensures ReplayMenuPrice(v, payload).stock == v.stock && ReplayMenuRemoved(v, payload).stock == v.stock
    ensures ReplayMenuAdded(v, payload).stock == v.stock
  {
    hide MenuItemOf;
  }

  lemma IdleKeepsNear(before: Tables, now: Tables, after: Tables, tenant: string, view: map<Json, real>,
                      log: seq<Event>, e: Event)
    requires StockNear(before, now, tenant, view, log) && LevelsKept(now, after) && !IsStockEvent(e.kind)
    ensures StockNear(before, after, tenant, view, log + [e])
  {
    forall id: string | IngredientRow(after, tenant, id).Some?
      ensures id in before.ingredients && WithinDrift(before, after, tenant, view, log + [e], id)
    {
      assert IngredientRow(now, tenant, id).Some?;
      assert WithinDrift(before, now, tenant, view, log, id);
      EverSetsLevelAfter(log, e, id);
      assert (log + [e])[..|log|] == log;
    }
  }

  // ---------------------------------------------------------------- events that do

  lemma MovedStaysNear(before: Tables, now: Tables, after: Tables, tenant: string, view: map<Json, real>,
                       log: seq<Event>, e: Event, k: string, asked: real, level: real)
    requires StockNear(before, now, tenant, view, log) && IngredientRow(now, tenant, k).Some? && MovesStock(e, k)
    requires LevelSet(now, after, tenant, k, TenThousandths(asked))
    requires asked == level + if SetsLevel(e, k) then 0.0 else Stock(now, tenant, k) - Seen(view, k).GetOr(0.0)
    ensures StockNear(before, after, tenant, view[Str(k) := level], log + [e])
  {
    hide LevelSet, TenThousandths, WithinDrift, Stock;
    forall id: string | IngredientRow(after, tenant, id).Some?
      ensures id in before.ingredients && WithinDrift(before, after, tenant, view[Str(k) := level], log + [e], id)
    {
      LevelKeepsRows(now, after, tenant, k, id, TenThousandths(asked));
      if id == k {
        MovedIsWithin(before, now, after, tenant, view, log, e, k, asked, level);
      } else {
        OtherIsWithin(before, now, after, tenant, view, log, e, k, id, level);
      }
    }
  }

  lemma LevelKeepsRows(t: Tables, u: Tables, tenant: string, k: string, id: string, level: real)
    requires LevelSet(t, u, tenant, k, level) && IngredientRow(u, tenant, id).Some?
    ensures IngredientRow(t, tenant, id).Some?
    ensures Stock(u, tenant, id) == if id == k then level else Stock(t, tenant, id)
  {
  }

  lemma MovedIsWithin(before: Tables, now: Tables, after: Tables, tenant: string, view: map<Json, real>,
                      log: seq<Event>, e: Event, k: string, asked: real, level: real)
    requires k in before.ingredients && k in now.ingredients && k in after.ingredients && MovesStock(e, k)
    requires WithinDrift(before, now, tenant, view, log, k) && Stock(after, tenant, k) == TenThousandths(asked)
    requires asked == level + if SetsLevel(e, k) then 0.0 else Stock(now, tenant, k) - Seen(view, k).GetOr(0.0)
    ensures WithinDrift(before, after, tenant, view[Str(k) := level], log + [e], k)
  {
    FitsIff(asked);
    EverSetsLevelAfter(log, e, k);
    assert (log + [e])[..|log|] == log;
    hide TenThousandths, Fits, Stock, EverSetsLevel;
  }

  lemma OtherIsWithin(before: Tables, now: Tables, after: Tables, tenant: string, view: map<Json, real>,
                      log: seq<Event>, e: Event, k: string, id: string, level: real)
    requires id != k && id in before.ingredients && id in now.ingredients && id in after.ingredients && MovesStock(e, k)
    requires WithinDrift(before, now, tenant, view, log, id) && Stock(after, tenant, id) == Stock(now, tenant, id)
    ensures WithinDrift(before, after, tenant, view[Str(k) := level], log + [e], id)
  {
    EverSetsLevelAfter(log, e, id);
    assert (log + [e])[..|log|] == log;
    hide Stock, EverSetsLevel;
  }

  lemma StockEventStaysNear(rt: Runtime, before: Tables, now: Tables, after: Tables, entry: Entry, v: View,
                            log: seq<Event>, e: Event)
    requires StockNear(before, now, entry.tenant, v.stock, log) && IsStockEvent(e.kind)
    requires Describes(e, e.kind, entry) && Apply(rt, now, e.kind, entry) == Success(after)
    ensures ReplayStock(rt, v, e.kind, e.payload, e.time).Success?
    ensures StockNear(before, after, entry.tenant, ReplayStock(rt, v, e.kind, e.payload, e.time).value.stock, log + [e])
  {
    AcceptedNamesIngredient(rt, now, e.kind, entry);
    var k := Get(e.payload, "ingredient_id").text;
    var base := StockOf(v, Str(k));
    var carried := Stock(now, entry.tenant, k) - base;
    AskedAlike(rt, now, after, entry, e, base, carried);
    ReplayFiles(rt, v, e.kind, e.payload, e.time);
    hide Apply, ReplayStock, ReplayLevel, LevelSet, StockNear, Stock, TenThousandths;
    var level := ReplayLevel(rt, e.kind, e.payload, base).value;
    MovedStaysNear(before, now, after, entry.tenant, v.stock, log, e, k,
                   level + if SetsLevel(e, k) then 0.0 else carried, level);
  }

  lemma AcceptedNamesIngredient(rt: Runtime, t: Tables, kind: EventType, e: Entry)
    requires IsStockEvent(kind) && Apply(rt, t, kind, e).Success?
    ensures NamesIngredient(t, e.tenant, Get(e.payload, "ingredient_id"))
  {
    StockoutEmpties(t, e);
    RestockSets(rt, t, e);
    AdjustmentSets(rt, t, e);
    WasteTakesAway(rt, t, e);
    hide ApplyStockout, ApplyRestock, ApplyInventoryAdjustment, ApplyWaste;
  }

  // ---------------------------------------------------------------- appends and runs

  ghost predicate ReplayIsNear(env: Env, seed: Store, s: Store, tenant: string) {
    var view := Replay(env.rt, s.tables.skus, tenant, LogOf(s, tenant));
    view.Success? && StockNear(seed.tables, s.tables, tenant, view.value.stock, LogOf(s, tenant))
  }

  lemma EventStaysNear(rt: Runtime, skus: map<string, Sku>, before: Tables, now: Tables, after: Tables, entry: Entry,
                       v: View, log: seq<Event>, e: Event)
    requires StockNear(before, now, entry.tenant, v.stock, log)
    requires Describes(e, e.kind, entry) && Apply(rt, now, e.kind, entry) == Success(after)
    ensures ReplayEvent(rt, skus, entry.tenant, v, e).Success?
    ensures StockNear(before, after, entry.tenant, ReplayEvent(rt, skus, entry.tenant, v, e).value.stock, log + [e])
  {
    hide Apply, StockNear, ReplayStock, LevelsKept;
    if IsStockEvent(e.kind) {
      StockEventStaysNear(rt, before, now, after, entry, v, log, e);
    } else {
      hide ReplayEvent;
      OthersKeepLevels(rt, now, after, e.kind, entry);
      OthersReplayNoStock(rt, skus, entry.tenant, v, e);
      IdleKeepsNear(before, now, after, entry.tenant, v.stock, log, e);
    }
  }

  lemma OwnAppendStaysNear(env: Env, seed: Store, s: Store, c: Call)
    requires ReplayIsNear(env, seed, s, c.tenant) && Append(env, s, c).Success? && ReadLast(env, s, c)
    ensures ReplayIsNear(env, seed, After(env, s, c), c.tenant)
  {
    AppendOnlyTouches(env, s, c);
    AppendReadLast(env, s, c);
    hide Apply, StockNear, ReadLast, ReplayEvent;
    var u, log, e := After(env, s, c), LogOf(s, c.tenant), Recorded(env, s, c);
    var view := Replay(env.rt, s.tables.skus, c.tenant, log).value;
    EventStaysNear(env.rt, s.tables.skus, seed.tables, s.tables, u.tables, EntryOf(c), view, log, e);
    assert (log + [e])[..|log|] == log;
  }

  lemma ForeignKeepsNear(before: Tables, now: Tables, after: Tables, tenant: string, foreign: string,
                         view: map<Json, real>, log: seq<Event>)
    requires StockNear(before, now, tenant, view, log) && foreign != tenant
    requires IngredientsKept(now, after, foreign) && ShelvesKept(now, after, foreign)
    ensures StockNear(before, after, tenant, view, log)
  {
    forall id: string | IngredientRow(after, tenant, id).Some?
      ensures id in before.ingredients && WithinDrift(before, after, tenant, view, log, id)
    {
      assert IngredientRow(now, tenant, id).Some?;
      assert WithinDrift(before, now, tenant, view, log, id);
    }
  }

  lemma AppendStaysNear(env: Env, seed: Store, s: Store, c: Call, tenant: string)
    requires ReplayIsNear(env, seed, s, tenant)
    requires Append(env, s, c).Success? ==> ReadLast(env, s, c)
    ensures ReplayIsNear(env, seed, After(env, s, c), tenant)
  {
    if c.tenant != tenant {
      AppendOnlyTouches(env, s, c);
      hide Append, StockNear, Replay;
      ForeignKeepsNear(seed.tables, s.tables, After(env, s, c).tables, tenant, c.tenant,
                       Replay(env.rt, s.tables.skus, tenant, LogOf(s, tenant)).value.stock, LogOf(s, tenant));
    } else if Append(env, s, c).Success? {
      hide Append, ReplayIsNear, ReadLast;
      OwnAppendStaysNear(env, seed, s, c);
    }
  }

  lemma SeedIsNear(env: Env, seed: Store, tenant: string)
    requires LogOf(seed, tenant) == []
    ensures ReplayIsNear(env, seed, seed, tenant)
  {
  }

  /**
    Whatever the figures, after every run of appends replay succeeds, and a stored level differs
    from the replayed one and the seeded stock it carries by at most half a ten-thousandth for
    each stock event since the level was last set.
   */
  lemma {:induction false} RunStaysNear(env: Env, seed: Store, calls: seq<Call>, tenant: string)
    requires LogOf(seed, tenant) == [] && Ordered(env, seed, calls)
    ensures ReplayIsNear(env, seed, Run(env, seed, calls), tenant)
  {
    hide Append, ReadLast, ReplayIsNear;
    if calls == [] {
      SeedIsNear(env, seed, tenant);
    } else {
      var before := calls[..|calls| - 1];
      RunStaysNear(env, seed, before, tenant);
      AppendStaysNear(env, seed, Run(env, seed, before), calls[|calls| - 1], tenant);
    }
  }
}
