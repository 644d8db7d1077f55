/**
  Appends, runs of appends by any tenants, and what holds after every run: replay agrees
  with the tables at any point in time, chains verify, stock is sound, totals are conserved.
 */
module EventRuns {
  import opened Wrappers
  import opened Json
  import opened HashChain
  import opened Columns
  import opened EventTables
  import opened EventEffects
  import opened EventReplay
  import opened EventIsolation

  datatype Env = Env(rt: Runtime, digest: Digest)

  datatype Store = Store(tenants: set<string>, ids: set<int>, tables: Tables, logs: map<string, seq<Event>>)

  /** One call of `append_event`, with the clock and the generated ids it meets. */
  datatype Call = Call(
    tenant: string,
    kind: EventType,
    payload: Payload,
    source: string,
    time: int,
    id: int,
    spare: string)

  function LogOf(s: Store, tenant: string): seq<Event> {
    if tenant in s.logs then s.logs[tenant] else []
  }

  function EntryOf(c: Call): Entry { Entry(c.tenant, c.payload, c.time, c.spare) }

  function Recorded(env: Env, s: Store, c: Call): Event {
    NextEvent(env.digest, LogOf(s, c.tenant), c.kind, c.payload, c.source, c.time, c.id)
  }

  /** `append_event`: the store after the one transaction, or why it was rolled back. */
  function Append(env: Env, s: Store, c: Call): Result<Store, Error> {
    var known :- Known(s, c);
    var tables :- Apply(env.rt, s.tables, c.kind, EntryOf(c));
    Success(s.(ids := s.ids + {c.id}, tables := tables,
               logs := s.logs[c.tenant := Insert(LogOf(s, c.tenant), Recorded(env, s, c))]))
  }

  /** The checks made before any handler runs. */
  function Known(s: Store, c: Call): Result<(), Error> {
    if Strip(c.source) == "" then Failure(InvalidEvent)
    else if c.tenant !in s.tenants then Failure(NoTenant)
    else if c.id in s.ids then Failure(Database)
    else Success(())
  }

  function After(env: Env, s: Store, c: Call): Store {
    match Append(env, s, c)
    case Success(u) => u
    case Failure(_) => s
  }

  function Run(env: Env, s: Store, calls: seq<Call>): Store {
    if calls == [] then s else After(env, Run(env, s, calls[..|calls| - 1]), calls[|calls| - 1])
  }

  /** The new row is read after every row the tenant already has. */
  predicate ReadLast(env: Env, s: Store, c: Call) {
    forall i | 0 <= i < |LogOf(s, c.tenant)| :: Earlier(LogOf(s, c.tenant)[i], Recorded(env, s, c))
  }

  /** Along a run every accepted event is read last in its tenant's log. */
  predicate Ordered(env: Env, s: Store, calls: seq<Call>) {
    calls != [] ==>
      var before := calls[..|calls| - 1];
      && Ordered(env, s, before)
      && (Append(env, Run(env, s, before), calls[|calls| - 1]).Success? ==>
            ReadLast(env, Run(env, s, before), calls[|calls| - 1]))
  }

  lemma AppendReadLast(env: Env, s: Store, c: Call)
    requires Append(env, s, c).Success? && ReadLast(env, s, c)
    ensures LogOf(After(env, s, c), c.tenant) == LogOf(s, c.tenant) + [Recorded(env, s, c)]
  {
    LastPosition(LogOf(s, c.tenant), Recorded(env, s, c));
  }

  // ---------------------------------------------------------------- isolation

  /** An append, accepted or not, leaves every other tenant's log and rows as they were. */
  lemma AppendOnlyTouches(env: Env, s: Store, c: Call)
    ensures OnlyTouches(s.tables, After(env, s, c).tables, c.tenant)
    ensures forall other | other != c.tenant :: LogOf(After(env, s, c), other) == LogOf(s, other)
    ensures After(env, s, c).tenants == s.tenants
  {
    hide Apply;
    if Append(env, s, c).Success? {
      EventOnlyTouches(env.rt, s.tables, After(env, s, c).tables, c.kind, EntryOf(c));
    }
  }

  // ---------------------------------------------------------------- agreement

  lemma {:induction false} LatestPriceForeign(prices: seq<PriceRow>, more: seq<PriceRow>, tenant: string, sku: string)
    requires forall i | 0 <= i < |more| :: more[i].tenant != tenant
    ensures LatestPrice(prices + more, tenant, sku) == LatestPrice(prices, tenant, sku)
  {
    if more == [] {
      assert prices + more == prices;
    } else {
      var fewer := more[..|more| - 1];
      LatestPriceForeign(prices, fewer, tenant, sku);
      assert (prices + more)[..|prices + more| - 1] == prices + fewer;
    }
  }

  /** A foreign event leaves the agreement of a tenant as it was. */
  lemma ForeignEventAgrees(rt: Runtime, before: Tables, now: Tables, after: Tables, tenant: string, foreign: string,
                           v: View, log: seq<Event>)
    requires Agrees(rt, before, now, tenant, v, log) && OnlyTouches(now, after, foreign) && foreign != tenant
    ensures Agrees(rt, before, after, tenant, v, log)
  {
    forall id: string
      ensures MenuRowAgrees(rt, MenuRow(before, tenant, id), MenuRow(after, tenant, id), Seen(v.menu, id),
                            LastActivity(log, id))
      ensures IngredientRowAgrees(rt, IngredientRow(before, tenant, id), IngredientRow(after, tenant, id),
                                  Seen(v.ingredients, id))
    {
      assert MenuRowAgrees(rt, MenuRow(before, tenant, id), MenuRow(now, tenant, id), Seen(v.menu, id),
                           LastActivity(log, id));
      assert IngredientRowAgrees(rt, IngredientRow(before, tenant, id), IngredientRow(now, tenant, id),
                                 Seen(v.ingredients, id));
    }
    ForeignPrices(rt, before, now, after, tenant, foreign, v);
    ForeignStock(before, now, after, tenant, foreign, v.stock, log);
  }

  lemma ForeignPrices(rt: Runtime, before: Tables, now: Tables, after: Tables, tenant: string, foreign: string, v: View)
    requires SkuPricesAgree(rt, before, now, tenant, v.prices) && HistoryKept(now, after, foreign) && foreign != tenant
    ensures SkuPricesAgree(rt, before, after, tenant, v.prices)
  {
    var more := after.prices[|now.prices|..];
    assert after.prices == now.prices + more;
    forall id: string
      ensures SkuAgrees(rt, LatestPrice(before.prices, tenant, id), LatestPrice(after.prices, tenant, id),
                        Seen(v.prices, id))
    {
      LatestPriceForeign(now.prices, more, tenant, id);
      assert SkuAgrees(rt, LatestPrice(before.prices, tenant, id), LatestPrice(now.prices, tenant, id),
                       Seen(v.prices, id));
    }
  }

  lemma ForeignStock(before: Tables, now: Tables, after: Tables, tenant: string, foreign: string,
                     view: map<Json, real>, log: seq<Event>)
    requires StockAgrees(before, now, tenant, view, log) && foreign != tenant
    requires IngredientsKept(now, after, foreign) && ShelvesKept(now, after, foreign)
    ensures StockAgrees(before, after, tenant, view, log)
  {
    forall id: string | IngredientRow(after, tenant, id).Some?
      ensures id in before.ingredients && StockRowAgrees(before, after, tenant, id, view, log)
    {
      assert IngredientRow(now, tenant, id).Some?;
      assert StockRowAgrees(before, now, tenant, id, view, log);
    }
  }

  /** A tenant whose log is still empty and whose seeded stock needs no rounding. */
  ghost predicate Seeded(s: Store, tenant: string) {
    && LogOf(s, tenant) == []
    && forall id: string | IngredientRow(s.tables, tenant, id).Some? :: Fits(Stock(s.tables, tenant, id))
  }

  predicate CallsFit(rt: Runtime, calls: seq<Call>, tenant: string) {
    forall i | 0 <= i < |calls| && calls[i].tenant == tenant && IsStockEvent(calls[i].kind) ::
      StockFits(rt, calls[i].payload)
  }

  lemma SeedAgrees(rt: Runtime, s: Store, tenant: string)
    requires Seeded(s, tenant)
    ensures Agrees(rt, s.tables, s.tables, tenant, EMPTY_VIEW, [])
  {
  }

  ghost predicate ReplayAgrees(env: Env, seed: Store, s: Store, tenant: string) {
    var view := Replay(env.rt, s.tables.skus, tenant, LogOf(s, tenant));
    view.Success? && Agrees(env.rt, seed.tables, s.tables, tenant, view.value, LogOf(s, tenant))
  }

  lemma OwnAppendAgrees(env: Env, seed: Store, s: Store, c: Call)
    requires ReplayAgrees(env, seed, s, c.tenant) && Append(env, s, c).Success? && ReadLast(env, s, c)
    requires IsStockEvent(c.kind) ==> StockFits(env.rt, c.payload)
    ensures ReplayAgrees(env, seed, After(env, s, c), c.tenant)
  {
    AppendOnlyTouches(env, s, c);
    AppendReadLast(env, s, c);
    hide Apply, Agrees, StockFits, ReadLast, ReplayEvent;
    var u, log, e := After(env, s, c), LogOf(s, c.tenant), Recorded(env, s, c);
    var view := Replay(env.rt, s.tables.skus, c.tenant, log).value;
    EventAgrees(env.rt, seed.tables, s.tables, u.tables, EntryOf(c), view, log, e);
    assert (log + [e])[..|log|] == log;
  }

  lemma ForeignAppendAgrees(env: Env, seed: Store, s: Store, c: Call, tenant: string)
    requires ReplayAgrees(env, seed, s, tenant) && c.tenant != tenant
    ensures ReplayAgrees(env, seed, After(env, s, c), tenant)
  {
    AppendOnlyTouches(env, s, c);
    hide Append, Agrees, Replay;
    var u, log := After(env, s, c), LogOf(s, tenant);
    var view := Replay(env.rt, s.tables.skus, tenant, log).value;
    ForeignEventAgrees(env.rt, seed.tables, s.tables, u.tables, tenant, c.tenant, view, log);
  }

  lemma AppendAgrees(env: Env, seed: Store, s: Store, c: Call, tenant: string)
    requires ReplayAgrees(env, seed, s, tenant)
    requires Append(env, s, c).Success? ==> ReadLast(env, s, c)
    requires c.tenant == tenant && IsStockEvent(c.kind) ==> StockFits(env.rt, c.payload)
    ensures ReplayAgrees(env, seed, After(env, s, c), tenant)
  {
    hide Append, ReplayAgrees, StockFits, ReadLast;
    if c.tenant != tenant {
      ForeignAppendAgrees(env, seed, s, c, tenant);
    } else if Append(env, s, c).Success? {
      OwnAppendAgrees(env, seed, s, c);
    }
  }

  /** After any run of appends, replay of a tenant's log succeeds and agrees with its tables. */
  lemma {:induction false} RunAgrees(env: Env, seed: Store, calls: seq<Call>, tenant: string)
    requires Seeded(seed, tenant) && Ordered(env, seed, calls) && CallsFit(env.rt, calls, tenant)
    ensures ReplayAgrees(env, seed, Run(env, seed, calls), tenant)
  {
    hide Append, Apply, ReadLast, StockFits, Agrees;
    if calls == [] {
      SeedAgrees(env.rt, seed, tenant);
    } else {
      var before := calls[..|calls| - 1];
      RunAgrees(env, seed, before, tenant);
      AppendAgrees(env, seed, Run(env, seed, before), calls[|calls| - 1], tenant);
    }
  }

  // ---------------------------------------------------------------- any point in time

  lemma {:induction false} RunInOrder(env: Env, seed: Store, calls: seq<Call>, tenant: string)
    requires LogOf(seed, tenant) == [] && Ordered(env, seed, calls)
    ensures InOrder(LogOf(Run(env, seed, calls), tenant))
  {
    hide Apply;
    if calls != [] {
      var before, c := calls[..|calls| - 1], calls[|calls| - 1];
      var s := Run(env, seed, before);
      RunInOrder(env, seed, before, tenant);
      AppendOnlyTouches(env, s, c);
      if Append(env, s, c).Success? && c.tenant == tenant { AppendReadLast(env, s, c); }
    }
  }

  lemma {:induction false} UpToIsPrefix(log: seq<Event>, time: int)
    requires InOrder(log)
    ensures UpTo(log, time) <= log
  {
    if log != [] {
      var before := log[..|log| - 1];
      UpToIsPrefix(before, time);
      if log[|log| - 1].time <= time {
        AllUpTo(before, time);
        assert before + [log[|log| - 1]] == log;
      }
    }
  }

  lemma {:induction false} AllUpTo(log: seq<Event>, time: int)
    requires forall i | 0 <= i < |log| :: log[i].time <= time
    ensures UpTo(log, time) == log
  {
    if log != [] {
      AllUpTo(log[..|log| - 1], time);
      assert log[..|log| - 1] + [log[|log| - 1]] == log;
    }
  }

  /** The first n events are those up to a time, and the rest come after it. */
  predicate CutAt(log: seq<Event>, time: int, n: nat) {
    && n <= |log|
    && (forall i | 0 <= i < n :: log[i].time <= time)
    && (forall i | n <= i < |log| :: log[i].time > time)
  }

  /** Read in order, the events up to a time are a prefix: all of them, and no later one. */
  lemma UpToIsTheCut(log: seq<Event>, time: int) returns (n: nat)
    requires InOrder(log)
    ensures CutAt(log, time, n) && UpTo(log, time) == log[..n]
    ensures forall e :: e in UpTo(log, time) <==> e in log && e.time <= time
  {
    UpToIsPrefix(log, time);
    n := |UpTo(log, time)|;
    InUpToIff(log, time);
    assert forall i | 0 <= i < n :: log[i] in UpTo(log, time);
    forall i | n <= i < |log| ensures log[i].time > time {
      forall k | 0 <= k < n ensures log[..n][k] != log[i] { assert Earlier(log[k], log[i]); }
      assert log[i] !in UpTo(log, time);
    }
  }

  lemma {:induction false} InUpToIff(log: seq<Event>, time: int)
    ensures forall e :: e in UpTo(log, time) <==> e in log && e.time <= time
  {
    if log != [] {
      InUpToIff(log[..|log| - 1], time);
      assert log == log[..|log| - 1] + [log[|log| - 1]];
    }
  }

  /** Every prefix of a tenant's log was the whole log at some earlier moment of the run. */
  lemma {:induction false} PrefixWasTheLog(env: Env, seed: Store, calls: seq<Call>, tenant: string, prefix: seq<Event>)
    returns (m: nat)
    requires LogOf(seed, tenant) == [] && Ordered(env, seed, calls)
    requires prefix <= LogOf(Run(env, seed, calls), tenant)
    ensures m <= |calls| && LogOf(Run(env, seed, calls[..m]), tenant) == prefix
  {
    hide Apply;
    if calls == [] || prefix == LogOf(Run(env, seed, calls), tenant) {
      m := |calls|;
      assert calls[..m] == calls;
    } else {
      var before, c := calls[..|calls| - 1], calls[|calls| - 1];
      var s := Run(env, seed, before);
      AppendOnlyTouches(env, s, c);
      if Append(env, s, c).Success? && c.tenant == tenant { AppendReadLast(env, s, c); }
      assert prefix <= LogOf(s, tenant);
      m := PrefixWasTheLog(env, seed, before, tenant, prefix);
      assert before[..m] == calls[..m];
    }
  }

  lemma {:induction false} OrderedPrefix(env: Env, seed: Store, calls: seq<Call>, m: nat)
    requires Ordered(env, seed, calls) && m <= |calls|
    ensures Ordered(env, seed, calls[..m])
  {
    if m < |calls| {
      OrderedPrefix(env, seed, calls[..|calls| - 1], m);
      assert calls[..|calls| - 1][..m] == calls[..m];
    } else {
      assert calls[..m] == calls;
    }
  }

  lemma {:induction false} RunKeepsSkus(env: Env, seed: Store, calls: seq<Call>)
    ensures Run(env, seed, calls).tables.skus == seed.tables.skus
  {
    if calls != [] {
      var before := calls[..|calls| - 1];
      RunKeepsSkus(env, seed, before);
      AppendOnlyTouches(env, Run(env, seed, before), calls[|calls| - 1]);
    }
  }

  /**
    `reconstruct_state_at` at any time gives what the tables held then: the first n events of the
    log are those up to that time, the run had a moment at which they were the whole log, and
    replay of exactly those events agrees with the tables of that moment.
   */
  lemma ReplayAgreesAtAnyTime(env: Env, seed: Store, calls: seq<Call>, tenant: string, time: int)
    returns (m: nat, n: nat)
    requires Seeded(seed, tenant) && Ordered(env, seed, calls) && CallsFit(env.rt, calls, tenant)
    ensures m <= |calls|
    ensures var final, moment := Run(env, seed, calls), Run(env, seed, calls[..m]);
            CutAt(LogOf(final, tenant), time, n) &&
            var events := LogOf(final, tenant)[..n];
            var view := Replay(env.rt, final.tables.skus, tenant, events);
            && LogOf(moment, tenant) == events
            && view.Success? && Agrees(env.rt, seed.tables, moment.tables, tenant, view.value, events)
  {
    hide Agrees, Apply, Append;
    RunInOrder(env, seed, calls, tenant);
    n := UpToIsTheCut(LogOf(Run(env, seed, calls), tenant), time);
    m := PrefixWasTheLog(env, seed, calls, tenant, LogOf(Run(env, seed, calls), tenant)[..n]);
    OrderedPrefix(env, seed, calls, m);
    RunAgrees(env, seed, calls[..m], tenant);
    RunKeepsSkus(env, seed, calls);
    RunKeepsSkus(env, seed, calls[..m]);
  }

  /**
    What agreement says of one id: a replayed price is the stored one to the cent, a replayed
    active flag is the stored one exactly unless the item was last added as inactive, and
    stored stock exceeds replayed stock by the seeded stock until an event sets the level.
   */
  lemma AgreementMeans(rt: Runtime, before: Tables, now: Tables, tenant: string, v: View, log: seq<Event>, id: string)
    requires Agrees(rt, before, now, tenant, v, log)
    ensures Str(id) in v.menu ==> MenuRow(now, tenant, id).Some?
    ensures Str(id) in v.menu && v.menu[Str(id)].price.Some? ==>
              Some(MenuRow(now, tenant, id).value.price) == Rounded(rt, v.menu[Str(id)].price.value)
    ensures Str(id) in v.menu && v.menu[Str(id)].name.Some? ==>
              MenuRow(now, tenant, id).value.name == rt.show(v.menu[Str(id)].name.value)
    ensures Str(id) in v.menu && v.menu[Str(id)].active.Some? ==>
              && LastActivity(log, id).Some?
              && (v.menu[Str(id)].active.value == MenuRow(now, tenant, id).value.active
                  <==> !AddedInactive(LastActivity(log, id).value))
    ensures Str(id) in v.prices ==> LatestPrice(now.prices, tenant, id) == Rounded(rt, v.prices[Str(id)])
    ensures IngredientRow(now, tenant, id).Some? && Str(id) in v.ingredients ==>
              var seen, row := v.ingredients[Str(id)], IngredientRow(now, tenant, id).value;
              && (seen.price.Some? ==> Some(row.price) == Rounded(rt, seen.price.value))
              && (seen.supplier.Some? ==> row.supplier.Some? && seen.supplier == Some(Str(row.supplier.value)))
    ensures IngredientRow(now, tenant, id).Some? ==>
              id in before.ingredients
              && Stock(now, tenant, id) - StockOf(v, Str(id))
                 == if EverSetsLevel(log, id) then 0.0 else Stock(before, tenant, id)
  {
    assert MenuRowAgrees(rt, MenuRow(before, tenant, id), MenuRow(now, tenant, id), Seen(v.menu, id),
                         LastActivity(log, id));
    assert IngredientRowAgrees(rt, IngredientRow(before, tenant, id), IngredientRow(now, tenant, id),
                               Seen(v.ingredients, id));
    assert SkuAgrees(rt, LatestPrice(before.prices, tenant, id), LatestPrice(now.prices, tenant, id),
                     Seen(v.prices, id));
    if IngredientRow(now, tenant, id).Some? {
      assert StockRowAgrees(before, now, tenant, id, v.stock, log);
    }
  }

  /** The price column's value for a payload figure. */
  function Rounded(rt: Runtime, value: Json): Option<real> {
    match rt.number(value)
    case Some(x) => Some(Cents(x))
    case None => None
  }

  function InactiveSoup(name: string, numeral: string): Payload {
    map["menu_item_id" := Str("soup"), "name" := Str(name), "current_price" := Num(numeral), "active" := Bool(false)]
  }

  /** One event after which replay and table disagree on the active flag. */
  lemma AddedInactiveIsReplayedActive(env: Env, s: Store, name: string, numeral: string, time: int, id: int)
    requires "t" in s.tenants && id !in s.ids && "soup" !in s.tables.menu && LogOf(s, "t") == []
    requires env.rt.number(Num(numeral)) == Some(4.0)
    ensures var u := After(env, s, Call("t", MenuItemAdded, InactiveSoup(name, numeral), "api", time, id, ""));
            var view := Replay(env.rt, u.tables.skus, "t", LogOf(u, "t"));
            && "soup" in u.tables.menu && !u.tables.menu["soup"].active
            && view.Success? && Str("soup") in view.value.menu && view.value.menu[Str("soup")].active == Some(true)
  {
    hide InactiveSoup, Append, Apply, Replay, ReplayEvent, Recorded, ReadLast;
    var c := Call("t", MenuItemAdded, InactiveSoup(name, numeral), "api", time, id, "");
    assert Strip("api") == "api";
    SoupIsAdded(env, s, c, name, numeral);
    FirstIsReadLast(env, s, c);
    AppendReadLast(env, s, c);
    var u, e := After(env, s, c), Recorded(env, s, c);
    assert LogOf(u, "t") == [e] by { assert [] + [e] == [e]; }
    ReplayOne(env.rt, u.tables.skus, "t", e);
    SoupIsReplayed(env, u, e, name, numeral);
  }

  lemma SoupIsAdded(env: Env, s: Store, c: Call, name: string, numeral: string)
    requires c.tenant == "t" && c.kind.MenuItemAdded? && c.payload == InactiveSoup(name, numeral)
             && Known(s, c).Success?
    requires "soup" !in s.tables.menu && env.rt.number(Num(numeral)) == Some(4.0)
    ensures Append(env, s, c).Success?
    ensures var u := After(env, s, c); "soup" in u.tables.menu && !u.tables.menu["soup"].active
  {
    hide ApplyMenuItemAdded, Known;
    assert Cents(4.0) == 4.0;
    AdditionOverwrites(env.rt, s.tables, EntryOf(c));
  }

  lemma SoupIsReplayed(env: Env, u: Store, e: Event, name: string, numeral: string)
    requires e.kind.MenuItemAdded? && e.payload == InactiveSoup(name, numeral)
    ensures var view := ReplayEvent(env.rt, u.tables.skus, "t", EMPTY_VIEW, e);
            view.Success? && Str("soup") in view.value.menu && view.value.menu[Str("soup")].active == Some(true)
  {
  }

  /** One event with five decimals after which replay and table disagree on the stock. */
  lemma TinyRestockIsRoundedAway(env: Env, s: Store, numeral: string, time: int, id: int)
    requires "t" in s.tenants && id !in s.ids && LogOf(s, "t") == []
    requires "salt" in s.tables.ingredients && s.tables.ingredients["salt"].tenant == "t"
    requires env.rt.number(Num(numeral)) == Some(0.00004)
    ensures var c := Call("t", Restock, map["ingredient_id" := Str("salt"), "new_stock_level" := Num(numeral)], "api",
                          time, id, "");
            var u := After(env, s, c);
            var view := Replay(env.rt, u.tables.skus, "t", LogOf(u, "t"));
            && IngredientRow(u.tables, "t", "salt").Some? && Stock(u.tables, "t", "salt") == 0.0
            && view.Success? && StockOf(view.value, Str("salt")) == 0.00004
            && !Agrees(env.rt, s.tables, u.tables, "t", view.value, LogOf(u, "t"))
  {
    hide Agrees, Append, Apply, Replay, ReplayEvent, StockOf, IngredientRow, Stock, Recorded, ReadLast;
    var payload := map["ingredient_id" := Str("salt"), "new_stock_level" := Num(numeral)];
    var c := Call("t", Restock, payload, "api", time, id, "");
    assert Strip("api") == "api";
    TinyRestock(env, s, c, numeral);
    FirstIsReadLast(env, s, c);
    AppendReadLast(env, s, c);
    var u, e := After(env, s, c), Recorded(env, s, c);
    assert LogOf(u, "t") == [e] by { assert [] + [e] == [e]; }
    ReplayOne(env.rt, u.tables.skus, "t", e);
    TinyReplay(env, u, e, numeral);
    TinyDisagrees(env, s, u, e, Replay(env.rt, u.tables.skus, "t", LogOf(u, "t")).value);
  }

  lemma FirstIsReadLast(env: Env, s: Store, c: Call)
    requires LogOf(s, c.tenant) == []
    ensures ReadLast(env, s, c) && Recorded(env, s, c).kind == c.kind && Recorded(env, s, c).payload == c.payload
  {
  }

  lemma ReplayOne(rt: Runtime, skus: map<string, Sku>, tenant: string, e: Event)
    ensures Replay(rt, skus, tenant, [e]) == ReplayEvent(rt, skus, tenant, EMPTY_VIEW, e)
  {
    hide ReplayEvent;
    assert [e][..0] == [];
    assert Replay(rt, skus, tenant, []) == Success(EMPTY_VIEW);
  }

  lemma TinyRestock(env: Env, s: Store, c: Call, numeral: string)
    requires c.tenant == "t" && c.kind.Restock? && Known(s, c).Success? && env.rt.number(Num(numeral)) == Some(0.00004)
    requires c.payload == map["ingredient_id" := Str("salt"), "new_stock_level" := Num(numeral)]
    requires "salt" in s.tables.ingredients && s.tables.ingredients["salt"].tenant == "t"
    ensures Append(env, s, c).Success?
    ensures var u := After(env, s, c);
            IngredientRow(u.tables, "t", "salt").Some? && Stock(u.tables, "t", "salt") == 0.0
  {
    hide ApplyRestock;
    assert TenThousandths(0.00004) == 0.0;
    RestockSets(env.rt, s.tables, EntryOf(c));
  }

  lemma TinyReplay(env: Env, u: Store, e: Event, numeral: string)
    requires e.kind.Restock? && e.payload == map["ingredient_id" := Str("salt"), "new_stock_level" := Num(numeral)]
    requires env.rt.number(Num(numeral)) == Some(0.00004)
    ensures var view := ReplayEvent(env.rt, u.tables.skus, "t", EMPTY_VIEW, e);
            view.Success? && StockOf(view.value, Str("salt")) == 0.00004
  {
  }

  lemma TinyDisagrees(env: Env, s: Store, u: Store, e: Event, view: View)
    requires IngredientRow(u.tables, "t", "salt").Some? && Stock(u.tables, "t", "salt") == 0.0
    requires e.kind.Restock? && Get(e.payload, "ingredient_id") == Str("salt") && StockOf(view, Str("salt")) == 0.00004
    ensures !Agrees(env.rt, s.tables, u.tables, "t", view, [e])
  {
    hide Agrees;
    assert SetsLevel(e, "salt") && EverSetsLevel([e], "salt");
    if Agrees(env.rt, s.tables, u.tables, "t", view, [e]) {
      AgreementMeans(env.rt, s.tables, u.tables, "t", view, [e], "salt");
    }
  }

  // ---------------------------------------------------------------- chains

  /** An accepted append leaves a verified chain verified exactly when it is clean and read last. */
  lemma AcceptedKeepsTheChainIff(env: Env, s: Store, c: Call)
    requires var log := LogOf(s, c.tenant);
             && Plain(env.digest) && Verifies(env.digest, log) && AllStorable(log) && InOrder(log)
             && WellFormed(Obj(c.payload))
             && NoCollision(env.digest, Events(log) + {Recorded(env, s, c), AsHashed(Recorded(env, s, c), c.source)})
    ensures Append(env, s, c).Success? ==>
              (Verifies(env.digest, LogOf(After(env, s, c), c.tenant))
               <==> ReadLast(env, s, c) && Strip(c.source) == c.source)
  {
    hide Apply, Verifies, NoCollision, Plain;
    AppendKeepsTheChainIff(env.digest, LogOf(s, c.tenant), c.kind, c.payload, c.source, c.time, c.id);
  }

  function Spike(source: string, time: int, id: int): Call { Call("t", DemandSpike, map[], source, time, id, "") }

  /** A digest that tells these rows, and the texts they were hashed from, apart. */
  ghost predicate TellsApart(env: Env, s: Store, c: Call) {
    NoCollision(env.digest, Events(LogOf(s, c.tenant)) + {Recorded(env, s, c), AsHashed(Recorded(env, s, c), c.source)})
  }

  lemma SpikeIsAccepted(env: Env, s: Store, source: string, time: int, id: int)
    requires "t" in s.tenants && id !in s.ids && Strip(source) != ""
    ensures var c := Spike(source, time, id);
            && Append(env, s, c).Success? && After(env, s, c).tables == s.tables
            && After(env, s, c).tenants == s.tenants && After(env, s, c).ids == s.ids + {id}
            && LogOf(After(env, s, c), "t") == Insert(LogOf(s, "t"), Recorded(env, s, c))
  {
  }

  /** The first event of a tenant, its source " x": accepted, and verification of the log fails. */
  lemma PaddedSourceBreaksTheChain(env: Env, s: Store, time: int, id: int)
    requires "t" in s.tenants && id !in s.ids && LogOf(s, "t") == []
    requires Plain(env.digest) && TellsApart(env, s, Spike(" x", time, id))
    ensures var c := Spike(" x", time, id);
            Append(env, s, c).Success? && !Verifies(env.digest, LogOf(After(env, s, c), "t"))
  {
    hide Plain, NoCollision, Verifies, Append;
    assert Strip(" x") == Strip("x") == "x" by { assert " x"[1..] == "x"; }
    SpikeIsAccepted(env, s, " x", time, id);
    EmptyVerifies(env.digest);
    AcceptedKeepsTheChainIff(env, s, Spike(" x", time, id));
  }

  lemma EmptyVerifies(d: Digest)
    ensures Verifies(d, []) && AllStorable([])
  {
  }

  /** Two events at one time stamp, the later one with the smaller id: accepted, and verification fails. */
  lemma SmallerIdBreaksTheChain(env: Env, s: Store, time: int)
    requires "t" in s.tenants && 1 !in s.ids && 2 !in s.ids && LogOf(s, "t") == [] && Plain(env.digest)
    requires TellsApart(env, After(env, s, Spike("x", time, 2)), Spike("x", time, 1))
    ensures var u := After(env, s, Spike("x", time, 2));
            var v := After(env, u, Spike("x", time, 1));
            && Append(env, s, Spike("x", time, 2)).Success? && Verifies(env.digest, LogOf(u, "t"))
            && Append(env, u, Spike("x", time, 1)).Success? && !Verifies(env.digest, LogOf(v, "t"))
  {
    hide Plain, NoCollision, Verifies, Append, Apply;
    assert Strip("x") == "x";
    SpikeIsAccepted(env, s, "x", time, 2);
    EmptyVerifies(env.digest);
    var c, e := Spike("x", time, 2), Recorded(env, s, Spike("x", time, 2));
    LastPosition([], e);
    LastVerifies(env.digest, [], c.kind, c.payload, c.source, c.time, c.id);
    var u := After(env, s, c);
    assert LogOf(u, "t") == [e] by { assert [] + [e] == [e]; }
    SpikeIsAccepted(env, u, "x", time, 1);
    assert !Earlier(e, Recorded(env, u, Spike("x", time, 1)));
    assert !ReadLast(env, u, Spike("x", time, 1)) by { assert LogOf(u, "t")[0] == e; }
    AcceptedKeepsTheChainIff(env, u, Spike("x", time, 1));
  }

  /** Every run of appends with clean sources, in order, leaves every tenant's chain verified. */
  lemma {:induction false} RunKeepsChains(env: Env, seed: Store, calls: seq<Call>, tenant: string)
    requires Ordered(env, seed, calls) && Verifies(env.digest, LogOf(seed, tenant))
    requires forall i | 0 <= i < |calls| :: Strip(calls[i].source) == calls[i].source
    ensures Verifies(env.digest, LogOf(Run(env, seed, calls), tenant))
  {
    hide Apply, Verifies;
    if calls != [] {
      var before, c := calls[..|calls| - 1], calls[|calls| - 1];
      var s := Run(env, seed, before);
      RunKeepsChains(env, seed, before, tenant);
      AppendOnlyTouches(env, s, c);
      if Append(env, s, c).Success? && c.tenant == tenant {
        AppendReadLast(env, s, c);
        LastVerifies(env.digest, LogOf(s, tenant), c.kind, c.payload, c.source, c.time, c.id);
      }
    }
  }
}
