/**
  What every run of appends conserves: stock kept twice and never apart or negative, waste
  rows that add up to the waste events, and order lines that match the demand they feed.
 */
module EventTotals {
  import opened Wrappers
  import opened Json
  import opened HashChain
  import opened Columns
  import opened EventTables
  import opened EventReplay
  import opened EventIsolation
  import opened EventRuns

  // ---------------------------------------------------------------- stock

  predicate ShelvesMatch(t: Tables) {
    forall s | s in t.inventory ::
      && s.ingredient in t.ingredients && t.ingredients[s.ingredient].tenant == s.tenant
      && t.ingredients[s.ingredient].stock == t.inventory[s]
  }

  /** No negative stock, and an inventory row always says what its ingredient's own field says. */
  predicate StockSound(t: Tables) {
    ShelvesMatch(t) && forall id | id in t.ingredients :: t.ingredients[id].stock >= 0.0
  }

  lemma SetStockIsSound(t: Tables, tenant: string, id: string, quantity: real)
    requires StockSound(t) && id in t.ingredients && t.ingredients[id].tenant == tenant && quantity >= 0.0
    ensures StockSound(SetStock(t, tenant, id, quantity))
  {
    var u := SetStock(t, tenant, id, quantity);
    forall s | s in u.inventory
      ensures s.ingredient in u.ingredients && u.ingredients[s.ingredient].tenant == s.tenant
      ensures u.ingredients[s.ingredient].stock == u.inventory[s]
    {
      if s != Shelf(tenant, id) { assert s in t.inventory; }
    }
  }

  lemma SupplierKeepsStock(rt: Runtime, t: Tables, u: Tables, kind: EventType, e: Entry)
    requires StockSound(t) && (kind.SupplierPriceChange? || kind.SupplierSwitch?)
    requires Apply(rt, t, kind, e) == Success(u)
    ensures StockSound(u)
  {
  }

  lemma EventKeepsStock(rt: Runtime, t: Tables, u: Tables, kind: EventType, e: Entry)
    requires StockSound(t) && Apply(rt, t, kind, e) == Success(u)
    ensures StockSound(u)
  {
    if IsStockEvent(kind) {
      hide Apply;
      var id, quantity := StockShape(rt, t, u, kind, e);
      SetStockIsSound(t, e.tenant, id, quantity);
    } else if kind.SupplierPriceChange? || kind.SupplierSwitch? {
      SupplierKeepsStock(rt, t, u, kind, e);
    } else if !kind.MenuPriceChange? && !kind.MenuItemAdded? && !kind.MenuItemRemoved? {
      OtherKindsTouch(rt, t, u, kind, e);
    }
  }

  /** In every state a run reaches, inventory rows equal the ingredients' stock and none is negative. */
  lemma {:induction false} RunKeepsStock(env: Env, seed: Store, calls: seq<Call>)
    requires StockSound(seed.tables)
    ensures StockSound(Run(env, seed, calls).tables)
  {
    hide Apply, StockSound;
    if calls != [] {
      var before, c := calls[..|calls| - 1], calls[|calls| - 1];
      var s := Run(env, seed, before);
      RunKeepsStock(env, seed, before);
      if Append(env, s, c).Success? {
        EventKeepsStock(env.rt, s.tables, After(env, s, c).tables, c.kind, EntryOf(c));
      }
    }
  }

  // ---------------------------------------------------------------- waste

  function WasteTotal(rows: seq<WasteRow>, tenant: string, ingredient: string): real {
    if rows == [] then 0.0
    else
      var last := rows[|rows| - 1];
      WasteTotal(rows[..|rows| - 1], tenant, ingredient)
      + if last.tenant == tenant && last.ingredient == ingredient then last.quantity else 0.0
  }

  /** What one event wastes of an ingredient, as the column keeps it. */
  function Wasted(rt: Runtime, e: Event, ingredient: string): real {
    if e.kind.WasteRecorded? && Concerns(e, "ingredient_id", ingredient) && "quantity" in e.payload
       && rt.number(e.payload["quantity"]).Some?
    then TenThousandths(rt.number(e.payload["quantity"]).value)
    else 0.0
  }

  function WasteEvents(rt: Runtime, log: seq<Event>, ingredient: string): real {
    if log == [] then 0.0
    else WasteEvents(rt, log[..|log| - 1], ingredient) + Wasted(rt, log[|log| - 1], ingredient)
  }

  lemma {:induction false} WasteOfOthers(rows: seq<WasteRow>, more: seq<WasteRow>, tenant: string, ingredient: string)
    requires forall i | 0 <= i < |more| :: more[i].tenant != tenant
    ensures WasteTotal(rows + more, tenant, ingredient) == WasteTotal(rows, tenant, ingredient)
  {
    if more == [] {
      assert rows + more == rows;
    } else {
      var fewer := more[..|more| - 1];
      WasteOfOthers(rows, fewer, tenant, ingredient);
      assert (rows + more)[..|rows + more| - 1] == rows + fewer;
    }
  }

  lemma KeepsWaste(rt: Runtime, t: Tables, u: Tables, kind: EventType, e: Entry)
    requires !kind.WasteRecorded? && Apply(rt, t, kind, e) == Success(u)
    ensures u.waste == t.waste
  {
    hide ApplyOrderRecorded, ApplyInvoiceRecorded;
    if kind.OrderRecorded? {
      OrderWrites(rt, t, u, e);
    } else if kind.InvoiceRecorded? {
      InvoiceWrites(rt, t, u, e);
    }
  }

  lemma EventWastes(rt: Runtime, t: Tables, u: Tables, entry: Entry, e: Event, ingredient: string)
    requires Describes(e, e.kind, entry) && Apply(rt, t, e.kind, entry) == Success(u)
    ensures WasteTotal(u.waste, entry.tenant, ingredient)
         == WasteTotal(t.waste, entry.tenant, ingredient) + Wasted(rt, e, ingredient)
  {
    if e.kind.WasteRecorded? {
      assert u.waste[..|u.waste| - 1] == t.waste;
    } else {
      KeepsWaste(rt, t, u, e.kind, entry);
    }
  }

  lemma ForeignWaste(t: Tables, u: Tables, foreign: string, tenant: string, ingredient: string)
    requires OnlyTouches(t, u, foreign) && foreign != tenant
    ensures WasteTotal(u.waste, tenant, ingredient) == WasteTotal(t.waste, tenant, ingredient)
  {
    hide WasteTotal;
    var more := u.waste[|t.waste|..];
    assert u.waste == t.waste + more;
    WasteOfOthers(t.waste, more, tenant, ingredient);
  }

  lemma AppendWastes(env: Env, s: Store, c: Call, tenant: string, id: string)
    requires Append(env, s, c).Success? ==> ReadLast(env, s, c)
    ensures var u := After(env, s, c);
            WasteTotal(u.tables.waste, tenant, id) - WasteEvents(env.rt, LogOf(u, tenant), id)
            == WasteTotal(s.tables.waste, tenant, id) - WasteEvents(env.rt, LogOf(s, tenant), id)
  {
    hide Apply, Wasted, WasteTotal, OnlyTouches, ReadLast;
    AppendOnlyTouches(env, s, c);
    var u := After(env, s, c);
    if Append(env, s, c).Success? {
      if c.tenant == tenant {
        AppendReadLast(env, s, c);
        var e := Recorded(env, s, c);
        EventWastes(env.rt, s.tables, u.tables, EntryOf(c), e, id);
        assert (LogOf(s, tenant) + [e])[..|LogOf(s, tenant)|] == LogOf(s, tenant);
      } else {
        ForeignWaste(s.tables, u.tables, c.tenant, tenant, id);
      }
    }
  }

  /** The waste rows of an ingredient grow by exactly what its accepted waste events record. */
  lemma {:induction false} WasteAddsUp(env: Env, seed: Store, calls: seq<Call>, tenant: string, id: string)
    requires LogOf(seed, tenant) == [] && Ordered(env, seed, calls)
    ensures var s := Run(env, seed, calls);
            WasteTotal(s.tables.waste, tenant, id)
            == WasteTotal(seed.tables.waste, tenant, id) + WasteEvents(env.rt, LogOf(s, tenant), id)
  {
    hide Append, ReadLast, WasteTotal;
    if calls == [] {
      assert WasteEvents(env.rt, [], id) == 0.0;
    } else {
      var before := calls[..|calls| - 1];
      WasteAddsUp(env, seed, before, tenant, id);
      AppendWastes(env, Run(env, seed, before), calls[|calls| - 1], tenant, id);
    }
  }

  // ---------------------------------------------------------------- orders

  function Sold(lines: seq<OrderLine>, tenant: string, item: string): int {
    if lines == [] then 0
    else
      var last := lines[|lines| - 1];
      Sold(lines[..|lines| - 1], tenant, item) + if last.tenant == tenant && last.item == item then last.quantity else 0
  }

  function Demand(volumes: seq<Volume>, tenant: string, item: string): int {
    if volumes == [] then 0
    else
      var last := volumes[|volumes| - 1];
      Demand(volumes[..|volumes| - 1], tenant, item)
      + if last.tenant == tenant && last.item == item then last.quantity else 0
  }

  /** How far the lines sold of an item run ahead of its recorded demand. */
  function Surplus(t: Tables, tenant: string, item: string): int {
    Sold(t.orderLines, tenant, item) - Demand(t.volumes, tenant, item)
  }

  lemma LineKeepsSurplus(rt: Runtime, t: Tables, e: Entry, order: string, line: Json, tenant: string, item: string)
    requires ApplyOrderLine(rt, t, e, order, line).Success?
    ensures Surplus(ApplyOrderLine(rt, t, e, order, line).value, tenant, item) == Surplus(t, tenant, item)
  {
    var u := ApplyOrderLine(rt, t, e, order, line).value;
    assert u.orderLines[..|u.orderLines| - 1] == t.orderLines;
    assert u.volumes[..|u.volumes| - 1] == t.volumes;
  }

  lemma {:induction false} LinesKeepSurplus(rt: Runtime, t: Tables, e: Entry, order: string, lines: seq<Json>,
                                            tenant: string, item: string)
    requires ApplyOrderLines(rt, t, e, order, lines).Success?
    ensures Surplus(ApplyOrderLines(rt, t, e, order, lines).value, tenant, item) == Surplus(t, tenant, item)
  {
    hide ApplyOrderLine, Surplus;
    if lines != [] {
      var fewer := lines[..|lines| - 1];
      LinesKeepSurplus(rt, t, e, order, fewer, tenant, item);
      LineKeepsSurplus(rt, ApplyOrderLines(rt, t, e, order, fewer).value, e, order, lines[|lines| - 1], tenant, item);
    }
  }

  lemma KeepsOrders(rt: Runtime, t: Tables, u: Tables, kind: EventType, e: Entry)
    requires !kind.OrderRecorded? && Apply(rt, t, kind, e) == Success(u)
    ensures u.orderLines == t.orderLines && u.volumes == t.volumes
  {
    hide ApplyInvoiceRecorded;
    if kind.InvoiceRecorded? { InvoiceWrites(rt, t, u, e); }
  }

  lemma EventKeepsSurplus(rt: Runtime, t: Tables, u: Tables, kind: EventType, e: Entry, tenant: string, item: string)
    requires Apply(rt, t, kind, e) == Success(u)
    ensures Surplus(u, tenant, item) == Surplus(t, tenant, item)
  {
    if kind.OrderRecorded? {
      var order := OrderId(rt, e).value;
      LinesKeepSurplus(rt, t.(orders := t.orders[order := Order(e.tenant, e.time)]), e, order,
                       Get(e.payload, "lines").items, tenant, item);
    } else {
      KeepsOrders(rt, t, u, kind, e);
    }
  }

  /**
    Per menu item, quantities sold and quantities of demand move together: if they were equal
    in the seeded tables they are equal after every run.
   */
  lemma {:induction false} SalesMatchDemand(env: Env, seed: Store, calls: seq<Call>, tenant: string, item: string)
    ensures Surplus(Run(env, seed, calls).tables, tenant, item) == Surplus(seed.tables, tenant, item)
  {
    hide Apply, Surplus;
    if calls != [] {
      var before, c := calls[..|calls| - 1], calls[|calls| - 1];
      var s := Run(env, seed, before);
      SalesMatchDemand(env, seed, before, tenant, item);
      if Append(env, s, c).Success? {
        EventKeepsSurplus(env.rt, s.tables, After(env, s, c).tables, c.kind, EntryOf(c), tenant, item);
      }
    }
  }

  // ---------------------------------------------------------------- what replay lists

  /** How many of an item one payload line orders. */
  function LineQuantity(rt: Runtime, line: Json, item: string): int {
    if line.Obj? && Get(line.fields, "menu_item_id") == Str(item) && rt.integer(Get(line.fields, "quantity")).Some?
    then rt.integer(Get(line.fields, "quantity")).value
    else 0
  }

  function LinesQuantity(rt: Runtime, lines: seq<Json>, item: string): int {
    if lines == [] then 0
    else LinesQuantity(rt, lines[..|lines| - 1], item) + LineQuantity(rt, lines[|lines| - 1], item)
  }

  /** How many of an item one event orders. */
  function EventQuantity(rt: Runtime, e: Event, item: string): int {
    if e.kind.OrderRecorded? && Get(e.payload, "lines").Arr?
    then LinesQuantity(rt, Get(e.payload, "lines").items, item)
    else 0
  }

  function OrderEvents(rt: Runtime, log: seq<Event>, item: string): int {
    if log == [] then 0
    else OrderEvents(rt, log[..|log| - 1], item) + EventQuantity(rt, log[|log| - 1], item)
  }

  function ListedOrders(rt: Runtime, orders: seq<OrderView>, item: string): int {
    if orders == [] then 0
    else
      var last := orders[|orders| - 1];
      ListedOrders(rt, orders[..|orders| - 1], item)
      + if last.lines.Arr? then LinesQuantity(rt, last.lines.items, item) else 0
  }

  function ListedWaste(rt: Runtime, waste: seq<WasteView>, ingredient: string): real {
    if waste == [] then 0.0
    else
      var last := waste[|waste| - 1];
      ListedWaste(rt, waste[..|waste| - 1], ingredient)
      + if last.ingredient == Str(ingredient) && rt.number(last.quantity).Some?
        then TenThousandths(rt.number(last.quantity).value)
        else 0.0
  }

  lemma LineSells(rt: Runtime, t: Tables, e: Entry, order: string, line: Json, item: string)
    requires ApplyOrderLine(rt, t, e, order, line).Success?
    ensures Sold(ApplyOrderLine(rt, t, e, order, line).value.orderLines, e.tenant, item)
         == Sold(t.orderLines, e.tenant, item) + LineQuantity(rt, line, item)
  {
    var u := ApplyOrderLine(rt, t, e, order, line).value;
    assert u.orderLines[..|u.orderLines| - 1] == t.orderLines;
  }

  lemma {:induction false} LinesSell(rt: Runtime, t: Tables, e: Entry, order: string, lines: seq<Json>, item: string)
    requires ApplyOrderLines(rt, t, e, order, lines).Success?
    ensures Sold(ApplyOrderLines(rt, t, e, order, lines).value.orderLines, e.tenant, item)
         == Sold(t.orderLines, e.tenant, item) + LinesQuantity(rt, lines, item)
  {
    hide ApplyOrderLine, LineQuantity, Sold;
    if lines != [] {
      var fewer := lines[..|lines| - 1];
      LinesSell(rt, t, e, order, fewer, item);
      LineSells(rt, ApplyOrderLines(rt, t, e, order, fewer).value, e, order, lines[|lines| - 1], item);
    }
  }

  lemma EventSells(rt: Runtime, t: Tables, u: Tables, entry: Entry, e: Event, item: string)
    requires Describes(e, e.kind, entry) && Apply(rt, t, e.kind, entry) == Success(u)
    ensures Sold(u.orderLines, entry.tenant, item) == Sold(t.orderLines, entry.tenant, item)
            + EventQuantity(rt, e, item)
  {
    if e.kind.OrderRecorded? {
      var order := OrderId(rt, entry).value;
      LinesSell(rt, t.(orders := t.orders[order := Order(entry.tenant, entry.time)]), entry, order,
                Get(entry.payload, "lines").items, item);
    } else {
      KeepsOrders(rt, t, u, e.kind, entry);
    }
  }

  lemma {:induction false} SoldByOthers(lines: seq<OrderLine>, more: seq<OrderLine>, tenant: string, item: string)
    requires forall i | 0 <= i < |more| :: more[i].tenant != tenant
    ensures Sold(lines + more, tenant, item) == Sold(lines, tenant, item)
  {
    if more == [] {
      assert lines + more == lines;
    } else {
      var fewer := more[..|more| - 1];
      SoldByOthers(lines, fewer, tenant, item);
      assert (lines + more)[..|lines + more| - 1] == lines + fewer;
    }
  }

  lemma ForeignSales(t: Tables, u: Tables, foreign: string, tenant: string, item: string)
    requires OnlyTouches(t, u, foreign) && foreign != tenant
    ensures Sold(u.orderLines, tenant, item) == Sold(t.orderLines, tenant, item)
  {
    hide Sold;
    var more := u.orderLines[|t.orderLines|..];
    assert u.orderLines == t.orderLines + more;
    SoldByOthers(t.orderLines, more, tenant, item);
  }

  lemma AppendSells(env: Env, s: Store, c: Call, tenant: string, id: string)
    requires Append(env, s, c).Success? ==> ReadLast(env, s, c)
    ensures var u := After(env, s, c);
            Sold(u.tables.orderLines, tenant, id) - OrderEvents(env.rt, LogOf(u, tenant), id)
            == Sold(s.tables.orderLines, tenant, id) - OrderEvents(env.rt, LogOf(s, tenant), id)
  {
    hide Apply, EventQuantity, Sold, OnlyTouches, ReadLast;
    AppendOnlyTouches(env, s, c);
    var u := After(env, s, c);
    if Append(env, s, c).Success? {
      if c.tenant == tenant {
        AppendReadLast(env, s, c);
        var e := Recorded(env, s, c);
        EventSells(env.rt, s.tables, u.tables, EntryOf(c), e, id);
        assert (LogOf(s, tenant) + [e])[..|LogOf(s, tenant)|] == LogOf(s, tenant);
      } else {
        ForeignSales(s.tables, u.tables, c.tenant, tenant, id);
      }
    }
  }

  /** What the tables have sold of an item grows by exactly what the logged orders list. */
  lemma {:induction false} SalesAddUp(env: Env, seed: Store, calls: seq<Call>, tenant: string, id: string)
    requires LogOf(seed, tenant) == [] && Ordered(env, seed, calls)
    ensures var s := Run(env, seed, calls);
            Sold(s.tables.orderLines, tenant, id)
            == Sold(seed.tables.orderLines, tenant, id) + OrderEvents(env.rt, LogOf(s, tenant), id)
  {
    hide Append, ReadLast, Sold;
    if calls == [] {
      assert OrderEvents(env.rt, [], id) == 0;
    } else {
      var before := calls[..|calls| - 1];
      SalesAddUp(env, seed, before, tenant, id);
      AppendSells(env, Run(env, seed, before), calls[|calls| - 1], tenant, id);
    }
  }

  lemma OneMoreOrder(rt: Runtime, orders: seq<OrderView>, o: OrderView, id: string)
    ensures ListedOrders(rt, orders + [o], id)
         == ListedOrders(rt, orders, id) + if o.lines.Arr? then LinesQuantity(rt, o.lines.items, id) else 0
  {
    assert (orders + [o])[..|orders|] == orders;
  }

  lemma OneMoreWaste(rt: Runtime, waste: seq<WasteView>, w: WasteView, id: string)
    ensures ListedWaste(rt, waste + [w], id)
         == ListedWaste(rt, waste, id)
            + if w.ingredient == Str(id) && rt.number(w.quantity).Some?
              then TenThousandths(rt.number(w.quantity).value)
              else 0.0
  {
    assert (waste + [w])[..|waste|] == waste;
  }

  lemma StockLists(rt: Runtime, v: View, kind: EventType, payload: Payload, time: int)
    requires ReplayStock(rt, v, kind, payload, time).Success?
    ensures var w := ReplayStock(rt, v, kind, payload, time).value;
            && w.orders == v.orders
            && w.waste == (if kind.WasteRecorded? && !Get(payload, "ingredient_id").Null?
                           then v.waste + [WasteView(Get(payload, "ingredient_id"), Get(payload, "quantity"),
                                                     Get(payload, "reason"), time)]
                           else v.waste)
  {
    hide ReplayLevel;
  }

  lemma SupplierLists(skus: map<string, Sku>, tenant: string, v: View, payload: Payload)
    ensures var w := ReplaySupplierPrice(skus, tenant, v, payload); w.orders == v.orders && w.waste == v.waste
    ensures var w := ReplaySupplierSwitch(v, payload); w.orders == v.orders && w.waste == v.waste
  {
  }

  lemma MenuLists(v: View, payload: Payload)
    ensures var w := ReplayMenuPrice(v, payload); w.orders == v.orders && w.waste == v.waste
    ensures var w := ReplayMenuRemoved(v, payload); w.orders == v.orders && w.waste == v.waste
    ensures var w := ReplayMenuAdded(v, payload); w.orders == v.orders && w.waste == v.waste
  {
  }

  lemma StaffingLists(rt: Runtime, v: View, payload: Payload)
    ensures ReplayStaffing(rt, v, payload).orders == v.orders && ReplayStaffing(rt, v, payload).waste == v.waste
  {
  }

  lemma OtherLists(rt: Runtime, skus: map<string, Sku>, tenant: string, v: View, e: Event)
    requires !IsStockEvent(e.kind)
    ensures var w := ReplayEvent(rt, skus, tenant, v, e).value;
            && w.waste == v.waste
            && w.orders == (if e.kind.OrderRecorded?
                            then v.orders + [OrderView(Get(e.payload, "order_id"), GetOr(e.payload, "lines", Arr([])),
                                                       e.time)]
                            else v.orders)
  {
    SupplierLists(skus, tenant, v, e.payload);
    MenuLists(v, e.payload);
    hide ReplayStock, ReplaySupplierPrice, ReplaySupplierSwitch, ReplayMenuPrice, ReplayMenuRemoved, ReplayMenuAdded,
         ReplayStaffing, Get, GetOr;
    StaffingLists(rt, v, e.payload);
  }

  /** One event adds at most one entry to one list. */
  lemma ListsAfter(rt: Runtime, skus: map<string, Sku>, tenant: string, v: View, e: Event)
    requires ReplayEvent(rt, skus, tenant, v, e).Success?
    ensures var w := ReplayEvent(rt, skus, tenant, v, e).value;
            && w.orders == (if e.kind.OrderRecorded?
                            then v.orders + [OrderView(Get(e.payload, "order_id"), GetOr(e.payload, "lines", Arr([])),
                                                       e.time)]
                            else v.orders)
            && w.waste == (if e.kind.WasteRecorded? && !Get(e.payload, "ingredient_id").Null?
                           then v.waste + [WasteView(Get(e.payload, "ingredient_id"), Get(e.payload, "quantity"),
                                                     Get(e.payload, "reason"), e.time)]
                           else v.waste)
  {
    hide ReplayStock, ReplaySupplierPrice, ReplaySupplierSwitch, ReplayMenuPrice, ReplayMenuRemoved, ReplayMenuAdded,
         ReplayStaffing;
    if IsStockEvent(e.kind) {
      StockLists(rt, v, e.kind, e.payload, e.time);
    } else {
      OtherLists(rt, skus, tenant, v, e);
    }
  }

  lemma ListedAfter(rt: Runtime, skus: map<string, Sku>, tenant: string, v: View, e: Event, id: string)
    requires ReplayEvent(rt, skus, tenant, v, e).Success? && (e.kind.WasteRecorded? ==> "quantity" in e.payload)
    ensures var w := ReplayEvent(rt, skus, tenant, v, e).value;
            && ListedOrders(rt, w.orders, id) == ListedOrders(rt, v.orders, id) + EventQuantity(rt, e, id)
            && ListedWaste(rt, w.waste, id) == ListedWaste(rt, v.waste, id) + Wasted(rt, e, id)
  {
    ListsAfter(rt, skus, tenant, v, e);
    hide ReplayEvent, ListedOrders, ListedWaste, EventQuantity, Wasted, Get, GetOr;
    var w := ReplayEvent(rt, skus, tenant, v, e).value;
    OrderListed(rt, v.orders, w.orders, e, id);
    WasteListed(rt, v.waste, w.waste, e, id);
  }

  lemma OrderListed(rt: Runtime, before: seq<OrderView>, after: seq<OrderView>, e: Event, id: string)
    requires after == (if e.kind.OrderRecorded?
                       then before + [OrderView(Get(e.payload, "order_id"), GetOr(e.payload, "lines", Arr([])), e.time)]
                       else before)
    ensures ListedOrders(rt, after, id) == ListedOrders(rt, before, id) + EventQuantity(rt, e, id)
  {
    NoLines(rt, id);
    OneMoreOrder(rt, before, OrderView(Get(e.payload, "order_id"), GetOr(e.payload, "lines", Arr([])), e.time), id);
    hide LinesQuantity, ListedOrders;
  }

  lemma WasteListed(rt: Runtime, before: seq<WasteView>, after: seq<WasteView>, e: Event, id: string)
    requires e.kind.WasteRecorded? ==> "quantity" in e.payload
    requires after == (if e.kind.WasteRecorded? && !Get(e.payload, "ingredient_id").Null?
                       then before + [WasteView(Get(e.payload, "ingredient_id"), Get(e.payload, "quantity"),
                                                Get(e.payload, "reason"), e.time)]
                       else before)
    ensures ListedWaste(rt, after, id) == ListedWaste(rt, before, id) + Wasted(rt, e, id)
  {
    OneMoreWaste(rt, before, WasteView(Get(e.payload, "ingredient_id"), Get(e.payload, "quantity"),
                                       Get(e.payload, "reason"), e.time), id);
    hide ListedWaste, TenThousandths;
  }

  lemma NoLines(rt: Runtime, id: string)
    ensures LinesQuantity(rt, [], id) == 0
  {
  }

  /** Replay lists each order and each waste event of the log once, with its figures. */
  lemma {:induction false} ReplayListsTheLog(rt: Runtime, skus: map<string, Sku>, tenant: string, log: seq<Event>,
                                             id: string)
    requires Replay(rt, skus, tenant, log).Success?
    requires WasteHasQuantity(log)
    ensures var v := Replay(rt, skus, tenant, log).value;
            && ListedOrders(rt, v.orders, id) == OrderEvents(rt, log, id)
            && ListedWaste(rt, v.waste, id) == WasteEvents(rt, log, id)
  {
    hide ReplayEvent, EventQuantity, Wasted;
    if log != [] {
      var before := log[..|log| - 1];
      ReplayListsTheLog(rt, skus, tenant, before, id);
      ListedAfter(rt, skus, tenant, Replay(rt, skus, tenant, before).value, log[|log| - 1], id);
    }
  }

  predicate WasteHasQuantity(log: seq<Event>) {
    forall i | 0 <= i < |log| && log[i].kind.WasteRecorded? :: "quantity" in log[i].payload
  }

  /** No waste event is ever logged without its quantity. */
  lemma {:induction false} LoggedWasteHasQuantity(env: Env, seed: Store, calls: seq<Call>, tenant: string)
    requires LogOf(seed, tenant) == [] && Ordered(env, seed, calls)
    ensures WasteHasQuantity(LogOf(Run(env, seed, calls), tenant))
  {
    hide Apply;
    if calls != [] {
      var before, c := calls[..|calls| - 1], calls[|calls| - 1];
      var s := Run(env, seed, before);
      LoggedWasteHasQuantity(env, seed, before, tenant);
      AppendOnlyTouches(env, s, c);
      if Append(env, s, c).Success? && c.tenant == tenant {
        WasteNeedsQuantity(env, s, c);
        AppendReadLast(env, s, c);
      }
    }
  }

  lemma WasteNeedsQuantity(env: Env, s: Store, c: Call)
    ensures Append(env, s, c).Success? && c.kind.WasteRecorded? ==> "quantity" in c.payload
  {
  }

  /**
    Replay's lists account for the history tables: after any run, what it lists as ordered and
    wasted is exactly what the tables have gained.
   */
  lemma ReplayListsTheTables(env: Env, seed: Store, calls: seq<Call>, tenant: string, id: string)
    requires Seeded(seed, tenant) && Ordered(env, seed, calls) && CallsFit(env.rt, calls, tenant)
    ensures var s := Run(env, seed, calls);
            var view := Replay(env.rt, s.tables.skus, tenant, LogOf(s, tenant));
            && view.Success?
            && Sold(s.tables.orderLines, tenant, id)
               == Sold(seed.tables.orderLines, tenant, id) + ListedOrders(env.rt, view.value.orders, id)
            && WasteTotal(s.tables.waste, tenant, id)
               == WasteTotal(seed.tables.waste, tenant, id) + ListedWaste(env.rt, view.value.waste, id)
  {
    RunAgrees(env, seed, calls, tenant);
    SalesAddUp(env, seed, calls, tenant, id);
    WasteAddsUp(env, seed, calls, tenant, id);
    LoggedWasteHasQuantity(env, seed, calls, tenant);
    var s := Run(env, seed, calls);
    hide Run, Replay, Agrees;
    ReplayListsTheLog(env.rt, s.tables.skus, tenant, LogOf(s, tenant), id);
  }
}
