/**
  Replay of the event log (`reconstruct_state_at`) and its agreement with the read tables:
  after any accepted events, what replay says of a price, an active flag, a supplier or a
  stock level is what the tables hold, for every row the events touched.
 */
module EventReplay {
  import opened Wrappers
  import opened Json
  import opened HashChain
  import opened Columns
  import opened EventTables
  import opened EventEffects

  datatype MenuView = MenuView(price: Option<Json>, active: Option<bool>, name: Option<Json>)
  datatype IngredientView = IngredientView(price: Option<Json>, supplier: Option<Json>)
  datatype WasteView = WasteView(ingredient: Json, quantity: Json, reason: Json, time: int)
  datatype StaffingView = StaffingView(role: Json, day: Json, headcount: Json)
  datatype OrderView = OrderView(id: Json, lines: Json, time: int)
  datatype InvoiceView =
    InvoiceView(id: Json, supplier: Json, number: Json, total: Json, lines: Json, time: int)

  /** The dictionary replay builds; ids are whatever the payload carried. */
  datatype View = View(
    ingredients: map<Json, IngredientView>,
    menu: map<Json, MenuView>,
    stock: map<Json, real>,
    level: Option<real>,                 // the loop's local variable `inventory`
    prices: map<Json, Json>,
    orders: seq<OrderView>,
    waste: seq<WasteView>,
    invoices: seq<InvoiceView>,
    staffing: map<string, StaffingView>,
    informational: seq<(int, Payload)>)

  const EMPTY_VIEW := View(map[], map[], map[], None, map[], [], [], [], map[], [])

  function GetOr(payload: Payload, name: string, otherwise: Json): Json {
    if name in payload then payload[name] else otherwise
  }

  function IngredientOf(v: View, id: Json): IngredientView {
    if id in v.ingredients then v.ingredients[id] else IngredientView(None, None)
  }

  function MenuItemOf(v: View, id: Json): MenuView {
    if id in v.menu then v.menu[id] else MenuView(None, None, None)
  }

  function StockOf(v: View, id: Json): real {
    if id in v.stock then v.stock[id] else 0.0
  }

  function ReplaySupplierPrice(skus: map<string, Sku>, tenant: string, v: View, payload: Payload): View {
    var sku := Get(payload, "supplier_sku_id");
    if sku.Null? then v
    else
      var priced := v.(prices := v.prices[sku := Get(payload, "new_price")]);
      if sku.Str? && sku.text in skus && skus[sku.text].tenant == tenant && "new_price" in payload then
        var id := Str(skus[sku.text].ingredient);
        priced.(ingredients := v.ingredients[id := IngredientOf(v, id).(price := Some(payload["new_price"]))])
      else priced
  }

  function ReplaySupplierSwitch(v: View, payload: Payload): View {
    var id := Get(payload, "ingredient_id");
    if id.Null? then v
    else
      var seen := IngredientOf(v, id);
      v.(ingredients := v.ingredients[
           id := if "new_supplier_id" in payload then seen.(supplier := Some(payload["new_supplier_id"])) else seen])
  }

  /** The level after one stock event, from the level replay had. */
  function ReplayLevel(rt: Runtime, kind: EventType, payload: Payload, level: real): Result<real, Error> {
    match kind
    case Stockout => Success(0.0)
    case WasteRecorded =>
      var quantity :- if "quantity" in payload then Number(rt, payload["quantity"]) else Success(0.0);
      Success(level - quantity)
    case Restock =>
      if "new_stock_level" in payload then Number(rt, payload["new_stock_level"]) else Success(level)
    case _ =>
      if "new_stock_level" in payload then Number(rt, payload["new_stock_level"])
      else if "stock_delta" in payload then
        var delta :- Number(rt, payload["stock_delta"]);
        Success(level + delta)
      else Success(level)
  }

  /**
    A stock event. Without an ingredient id the loop's variable still holds the level of the
    stock event before it, and is filed under the missing id; the first such event fails.
   */
  function ReplayStock(rt: Runtime, v: View, kind: EventType, payload: Payload, time: int): Result<View, Error> {
    var id := Get(payload, "ingredient_id");
    if id.Null? then
      match v.level
      case None => Failure(Crash)
      case Some(level) =>
        Success(v.(stock := v.stock[id := level], ingredients := v.ingredients[id := IngredientOf(v, id)]))
    else
      var level :- ReplayLevel(rt, kind, payload, StockOf(v, id));
      Success(v.(stock := v.stock[id := level], level := Some(level),
                 ingredients := v.ingredients[id := IngredientOf(v, id)],
                 waste := if kind.WasteRecorded?
                          then v.waste + [WasteView(id, Get(payload, "quantity"), Get(payload, "reason"), time)]
                          else v.waste))
  }

  function ReplayMenuPrice(v: View, payload: Payload): View {
    var id := Get(payload, "menu_item_id");
    if id.Null? then v
    else
      var seen := MenuItemOf(v, id);
      v.(menu := v.menu[id := if "new_price" in payload then seen.(price := Some(payload["new_price"])) else seen])
  }

  function ReplayMenuRemoved(v: View, payload: Payload): View {
    var id := Get(payload, "menu_item_id");
    if id.Null? then v else v.(menu := v.menu[id := MenuItemOf(v, id).(active := Some(false))])
  }

  /** An added item is active, whatever its payload says about it. */
  function ReplayMenuAdded(v: View, payload: Payload): View {
    var id := Get(payload, "menu_item_id");
    if id.Null? then v
    else
      var seen := MenuItemOf(v, id).(active := Some(true));
      var named := if "name" in payload then seen.(name := Some(payload["name"])) else seen;
      var priced :=
        if "current_price" in payload then named.(price := Some(payload["current_price"]))
        else if "price" in payload then named.(price := Some(payload["price"]))
        else named;
      v.(menu := v.menu[id := priced])
  }

  /** Headcounts are filed under the texts of role and day. */
  function StaffingKey(rt: Runtime, role: Json, day: Json): string { rt.show(role) + ":" + rt.show(day) }

  function ReplayStaffing(rt: Runtime, v: View, payload: Payload): View {
    var role, day := Get(payload, "role"), Get(payload, "day_of_week");
    if role.Null? || day.Null? then v
    else
      v.(staffing := v.staffing[StaffingKey(rt, role, day) := StaffingView(role, day, Get(payload, "headcount"))])
  }

  function ReplayEvent(rt: Runtime, skus: map<string, Sku>, tenant: string, v: View, e: Event): Result<View, Error> {
    match e.kind
    case SupplierPriceChange => Success(ReplaySupplierPrice(skus, tenant, v, e.payload))
    case SupplierSwitch => Success(ReplaySupplierSwitch(v, e.payload))
    case Stockout => ReplayStock(rt, v, e.kind, e.payload, e.time)
    case Restock => ReplayStock(rt, v, e.kind, e.payload, e.time)
    case InventoryAdjustment => ReplayStock(rt, v, e.kind, e.payload, e.time)
    case WasteRecorded => ReplayStock(rt, v, e.kind, e.payload, e.time)
    case MenuPriceChange => Success(ReplayMenuPrice(v, e.payload))
    case MenuItemRemoved => Success(ReplayMenuRemoved(v, e.payload))
    case MenuItemAdded => Success(ReplayMenuAdded(v, e.payload))
    case OrderRecorded =>
      Success(v.(orders := v.orders + [OrderView(Get(e.payload, "order_id"), GetOr(e.payload, "lines", Arr([])),
                                                 e.time)]))
    case InvoiceRecorded =>
      Success(v.(invoices := v.invoices + [InvoiceView(Get(e.payload, "invoice_id"), Get(e.payload, "supplier_id"),
                   Get(e.payload, "invoice_number"), Get(e.payload, "total_amount"), GetOr(e.payload, "lines", Arr([])),
                   e.time)]))
    case StaffingChange => Success(ReplayStaffing(rt, v, e.payload))
    case DemandSpike => Success(v.(informational := v.informational + [(e.time, e.payload)]))
  }

  /** Replay of a whole log, oldest event first. */
  function Replay(rt: Runtime, skus: map<string, Sku>, tenant: string, log: seq<Event>): Result<View, Error> {
    if log == [] then Success(EMPTY_VIEW)
    else
      var before :- Replay(rt, skus, tenant, log[..|log| - 1]);
      ReplayEvent(rt, skus, tenant, before, log[|log| - 1])
  }

  /** The events up to a point in time, in reading order. */
  function UpTo(log: seq<Event>, time: int): seq<Event> {
    if log == [] then []
    else
      var before := UpTo(log[..|log| - 1], time);
      if log[|log| - 1].time <= time then before + [log[|log| - 1]] else before
  }

  // ---------------------------------------------------------------- agreement, row by row

  function MenuRow(t: Tables, tenant: string, id: string): Option<MenuItem> {
    if id in t.menu && t.menu[id].tenant == tenant then Some(t.menu[id]) else None
  }

  function IngredientRow(t: Tables, tenant: string, id: string): Option<Ingredient> {
    if id in t.ingredients && t.ingredients[id].tenant == tenant then Some(t.ingredients[id]) else None
  }

  /** The price of the newest price row of a SKU. */
  function LatestPrice(prices: seq<PriceRow>, tenant: string, sku: string): Option<real> {
    if prices == [] then None
    else
      var last := prices[|prices| - 1];
      if last.tenant == tenant && last.sku == sku then Some(last.price)
      else LatestPrice(prices[..|prices| - 1], tenant, sku)
  }

  predicate Concerns(e: Event, name: string, id: string) { Get(e.payload, name) == Str(id) }

  predicate SetsActivity(e: Event, id: string) {
    (e.kind.MenuItemAdded? || e.kind.MenuItemRemoved?) && Concerns(e, "menu_item_id", id)
  }

  /** The last event that put an item on the menu or took it off. */
  function LastActivity(log: seq<Event>, id: string): (last: Option<Event>)
    ensures last.Some? ==> SetsActivity(last.value, id)
  {
    if log == [] then None
    else if SetsActivity(log[|log| - 1], id) then Some(log[|log| - 1])
    else LastActivity(log[..|log| - 1], id)
  }

  predicate AddedInactive(e: Event) {
    e.kind.MenuItemAdded? && "active" in e.payload && e.payload["active"] == Bool(false)
  }

  /** An event that sets an ingredient's level outright. */
  predicate SetsLevel(e: Event, id: string) {
    && Concerns(e, "ingredient_id", id)
    && (e.kind.Stockout? || e.kind.Restock? || (e.kind.InventoryAdjustment? && "new_stock_level" in e.payload))
  }

  predicate EverSetsLevel(log: seq<Event>, id: string) { exists e | e in log :: SetsLevel(e, id) }

  /** A replayed price stands for the column value: the number it names, to the cent. */
  predicate Prices(rt: Runtime, shown: Option<Json>, before: real, now: real) {
    match shown
    case None => now == before
    case Some(value) => rt.number(value).Some? && rt.number(value).value >= 0.0 && now == Cents(rt.number(value).value)
  }

  predicate MenuRowAgrees(rt: Runtime, before: Option<MenuItem>, now: Option<MenuItem>,
                          seen: Option<MenuView>, last: Option<Event>)
  {
    match seen
    case None => now == before && last.None?
    case Some(view) =>
      && now.Some?
      && (view.price.None? || view.active.None? ==> before.Some?)
      && Prices(rt, view.price, if before.Some? then before.value.price else 0.0, now.value.price)
      && (match view.name
          case None => before.Some? && now.value.name == before.value.name
          case Some(name) => now.value.name == rt.show(name))
      && (last.None? <==> view.active.None?)
      && (last.None? ==> now.value.active == before.value.active)
      && (last.Some? ==> view.active == Some(last.value.kind.MenuItemAdded?))
      && (last.Some? ==> now.value.active == (last.value.kind.MenuItemAdded? && !AddedInactive(last.value)))
  }

  function Seen<V>(view: map<Json, V>, id: string): Option<V> {
    if Str(id) in view then Some(view[Str(id)]) else None
  }

  ghost predicate MenuAgrees(rt: Runtime, before: Tables, now: Tables, tenant: string,
                             view: map<Json, MenuView>, log: seq<Event>)
  {
    forall id: string ::
      MenuRowAgrees(rt, MenuRow(before, tenant, id), MenuRow(now, tenant, id), Seen(view, id), LastActivity(log, id))
  }

  predicate Supplies(shown: Option<Json>, before: Option<string>, now: Option<string>) {
    match shown
    case None => now == before
    case Some(value) => value.Str? && now == Some(value.text)
  }

  predicate IngredientRowAgrees(rt: Runtime, before: Option<Ingredient>, now: Option<Ingredient>,
                                seen: Option<IngredientView>) {
    && (before.Some? <==> now.Some?)
    && (now.None? ==> seen.None?)
    && (now.Some? ==>
          var view := seen.GetOr(IngredientView(None, None));
          && Prices(rt, view.price, before.value.price, now.value.price)
          && Supplies(view.supplier, before.value.supplier, now.value.supplier))
  }

  ghost predicate IngredientsAgree(rt: Runtime, before: Tables, now: Tables, tenant: string,
                                   view: map<Json, IngredientView>) {
    forall id: string ::
      IngredientRowAgrees(rt, IngredientRow(before, tenant, id), IngredientRow(now, tenant, id), Seen(view, id))
  }

  predicate SkuAgrees(rt: Runtime, before: Option<real>, now: Option<real>, shown: Option<Json>) {
    match shown
    case None => now == before
    case Some(value) => now.Some? && Prices(rt, shown, 0.0, now.value)
  }

  ghost predicate SkuPricesAgree(rt: Runtime, before: Tables, now: Tables, tenant: string, view: map<Json, Json>) {
    forall id: string ::
      SkuAgrees(rt, LatestPrice(before.prices, tenant, id), LatestPrice(now.prices, tenant, id), Seen(view, id))
  }

  predicate NumberFits(rt: Runtime, payload: Payload, name: string) {
    name in payload && rt.number(payload[name]).Some? ==> Fits(rt.number(payload[name]).value)
  }

  /** The stock figures of an event need no rounding. */
  predicate StockFits(rt: Runtime, payload: Payload) {
    && NumberFits(rt, payload, "new_stock_level")
    && NumberFits(rt, payload, "stock_delta")
    && NumberFits(rt, payload, "quantity")
  }

  /** What the seeded stock still adds to the replayed level. */
  function Carried(before: Tables, tenant: string, id: string, log: seq<Event>): real
    requires id in before.ingredients
  {
    if EverSetsLevel(log, id) then 0.0 else Stock(before, tenant, id)
  }

  predicate StockRowAgrees(before: Tables, now: Tables, tenant: string, id: string, view: map<Json, real>,
                           log: seq<Event>)
    requires id in before.ingredients && id in now.ingredients
  {
    && Fits(Stock(now, tenant, id))
    && Stock(now, tenant, id) == Seen(view, id).GetOr(0.0) + Carried(before, tenant, id, log)
  }

  ghost predicate StockAgrees(before: Tables, now: Tables, tenant: string, view: map<Json, real>, log: seq<Event>) {
    forall id: string | IngredientRow(now, tenant, id).Some? ::
      id in before.ingredients && StockRowAgrees(before, now, tenant, id, view, log)
  }

  /** Replay and tables tell one story about a tenant, counting from the seeded tables. */
  ghost predicate Agrees(rt: Runtime, before: Tables, now: Tables, tenant: string, v: View, log: seq<Event>) {
    && MenuAgrees(rt, before, now, tenant, v.menu, log)
    && IngredientsAgree(rt, before, now, tenant, v.ingredients)
    && SkuPricesAgree(rt, before, now, tenant, v.prices)
    && StockAgrees(before, now, tenant, v.stock, log)
  }

  // ---------------------------------------------------------------- one event

  /** The event a handler's entry comes from. */
  predicate Describes(e: Event, kind: EventType, entry: Entry) {
    e.kind == kind && e.payload == entry.payload && e.time == entry.time
  }

  lemma LastActivityAfter(log: seq<Event>, e: Event, id: string)
    ensures LastActivity(log + [e], id) == if SetsActivity(e, id) then Some(e) else LastActivity(log, id)
  {
    assert (log + [e])[..|log|] == log;
  }

  /** One row of the menu and its view change together; every other row stays. */
  lemma MenuStep(rt: Runtime, before: Tables, now: Tables, after: Tables, tenant: string,
                 view: map<Json, MenuView>, log: seq<Event>, e: Event, k: string, row: MenuItem, seen: MenuView)
    requires MenuAgrees(rt, before, now, tenant, view, log)
    requires after.menu == now.menu[k := row] && row.tenant == tenant && Concerns(e, "menu_item_id", k)
    requires MenuRowAgrees(rt, MenuRow(before, tenant, k), Some(row), Some(seen),
                           if SetsActivity(e, k) then Some(e) else LastActivity(log, k))
    ensures MenuAgrees(rt, before, after, tenant, view[Str(k) := seen], log + [e])
  {
    forall id: string
      ensures MenuRowAgrees(rt, MenuRow(before, tenant, id), MenuRow(after, tenant, id), Seen(view[Str(k) := seen], id),
                            LastActivity(log + [e], id))
    {
      LastActivityAfter(log, e, id);
      assert MenuRowAgrees(rt, MenuRow(before, tenant, id), MenuRow(now, tenant, id), Seen(view, id),
                           LastActivity(log, id));
    }
  }

  lemma MenuPriceStep(rt: Runtime, before: Tables, now: Tables, after: Tables, entry: Entry, v: View, log: seq<Event>,
                      e: Event)
    requires MenuAgrees(rt, before, now, entry.tenant, v.menu, log)
    requires Describes(e, MenuPriceChange, entry) && ApplyMenuPriceChange(rt, now, entry) == Success(after)
    ensures MenuAgrees(rt, before, after, entry.tenant, ReplayMenuPrice(v, e.payload).menu, log + [e])
  {
    var id := e.payload["menu_item_id"].text;
    var seen := MenuItemOf(v, Str(id)).(price := Some(e.payload["new_price"]));
    assert MenuRowAgrees(rt, MenuRow(before, entry.tenant, id), MenuRow(now, entry.tenant, id), Seen(v.menu, id),
                         LastActivity(log, id));
    MenuStep(rt, before, now, after, entry.tenant, v.menu, log, e, id, after.menu[id], seen);
  }

  lemma MenuRemovedStep(rt: Runtime, before: Tables, now: Tables, after: Tables, entry: Entry, v: View, log: seq<Event>,
                        e: Event)
    requires MenuAgrees(rt, before, now, entry.tenant, v.menu, log)
    requires Describes(e, MenuItemRemoved, entry) && ApplyMenuItemRemoved(now, entry) == Success(after)
    ensures MenuAgrees(rt, before, after, entry.tenant, ReplayMenuRemoved(v, e.payload).menu, log + [e])
  {
    var id := e.payload["menu_item_id"].text;
    var seen := MenuItemOf(v, Str(id)).(active := Some(false));
    assert MenuRowAgrees(rt, MenuRow(before, entry.tenant, id), MenuRow(now, entry.tenant, id), Seen(v.menu, id),
                         LastActivity(log, id));
    MenuStep(rt, before, now, after, entry.tenant, v.menu, log, e, id, after.menu[id], seen);
  }

  lemma MenuAddedStep(rt: Runtime, before: Tables, now: Tables, after: Tables, entry: Entry, v: View, log: seq<Event>,
                      e: Event)
    requires MenuAgrees(rt, before, now, entry.tenant, v.menu, log)
    requires Describes(e, MenuItemAdded, entry) && ApplyMenuItemAdded(rt, now, entry) == Success(after)
    ensures MenuAgrees(rt, before, after, entry.tenant, ReplayMenuAdded(v, e.payload).menu, log + [e])
  {
    var id := e.payload["menu_item_id"].text;
    var seen := MenuView(Some(e.payload["current_price"]), Some(true), Some(e.payload["name"]));
    assert MenuRowAgrees(rt, MenuRow(before, entry.tenant, id), MenuRow(now, entry.tenant, id), Seen(v.menu, id),
                         LastActivity(log, id));
    MenuStep(rt, before, now, after, entry.tenant, v.menu, log, e, id, after.menu[id], seen);
  }

  /** One ingredient row and its view change together; every other row stays. */
  lemma IngredientStep(rt: Runtime, before: Tables, now: Tables, after: Tables, tenant: string,
                       view: map<Json, IngredientView>, k: string, row: Ingredient, seen: IngredientView)
    requires IngredientsAgree(rt, before, now, tenant, view)
    requires after.ingredients == now.ingredients[k := row] && row.tenant == tenant
    requires IngredientRowAgrees(rt, IngredientRow(before, tenant, k), Some(row), Some(seen))
    ensures IngredientsAgree(rt, before, after, tenant, view[Str(k) := seen])
  {
    forall id: string
      ensures IngredientRowAgrees(rt, IngredientRow(before, tenant, id), IngredientRow(after, tenant, id),
                                  Seen(view[Str(k) := seen], id))
    {
      assert IngredientRowAgrees(rt, IngredientRow(before, tenant, id), IngredientRow(now, tenant, id), Seen(view, id));
    }
  }

  lemma SupplierPriceStep(rt: Runtime, before: Tables, now: Tables, after: Tables, entry: Entry, v: View, e: Event)
    requires IngredientsAgree(rt, before, now, entry.tenant, v.ingredients)
    requires Describes(e, SupplierPriceChange, entry) && ApplySupplierPriceChange(rt, now, entry) == Success(after)
    ensures IngredientsAgree(rt, before, after, entry.tenant,
                             ReplaySupplierPrice(now.skus, entry.tenant, v, e.payload).ingredients)
  {
    var id := now.skus[e.payload["supplier_sku_id"].text].ingredient;
    var seen := IngredientOf(v, Str(id)).(price := Some(e.payload["new_price"]));
    assert IngredientRowAgrees(rt, IngredientRow(before, entry.tenant, id), IngredientRow(now, entry.tenant, id),
                               Seen(v.ingredients, id));
    IngredientStep(rt, before, now, after, entry.tenant, v.ingredients, id, after.ingredients[id], seen);
  }

  lemma SupplierSwitchStep(rt: Runtime, before: Tables, now: Tables, after: Tables, entry: Entry, v: View, e: Event)
    requires IngredientsAgree(rt, before, now, entry.tenant, v.ingredients)
    requires Describes(e, SupplierSwitch, entry) && ApplySupplierSwitch(now, entry) == Success(after)
    ensures IngredientsAgree(rt, before, after, entry.tenant, ReplaySupplierSwitch(v, e.payload).ingredients)
  {
    var id := e.payload["ingredient_id"].text;
    var seen := IngredientOf(v, Str(id)).(supplier := Some(e.payload["new_supplier_id"]));
    assert IngredientRowAgrees(rt, IngredientRow(before, entry.tenant, id), IngredientRow(now, entry.tenant, id),
                               Seen(v.ingredients, id));
    IngredientStep(rt, before, now, after, entry.tenant, v.ingredients, id, after.ingredients[id], seen);
  }

  lemma LatestPriceAfter(prices: seq<PriceRow>, row: PriceRow, tenant: string, sku: string)
    ensures LatestPrice(prices + [row], tenant, sku)
         == if row.tenant == tenant && row.sku == sku then Some(row.price) else LatestPrice(prices, tenant, sku)
  {
    assert (prices + [row])[..|prices|] == prices;
  }

  lemma SkuPriceStep(rt: Runtime, before: Tables, now: Tables, after: Tables, entry: Entry, v: View, e: Event)
    requires SkuPricesAgree(rt, before, now, entry.tenant, v.prices)
    requires Describes(e, SupplierPriceChange, entry) && ApplySupplierPriceChange(rt, now, entry) == Success(after)
    ensures SkuPricesAgree(rt, before, after, entry.tenant,
                           ReplaySupplierPrice(now.skus, entry.tenant, v, e.payload).prices)
  {
    var w := ReplaySupplierPrice(now.skus, entry.tenant, v, e.payload);
    forall id: string
      ensures SkuAgrees(rt, LatestPrice(before.prices, entry.tenant, id), LatestPrice(after.prices, entry.tenant, id),
                        Seen(w.prices, id))
    {
      LatestPriceAfter(now.prices, after.prices[|now.prices|], entry.tenant, id);
      assert SkuAgrees(rt, LatestPrice(before.prices, entry.tenant, id), LatestPrice(now.prices, entry.tenant, id),
                       Seen(v.prices, id));
    }
  }

  // ---------------------------------------------------------------- stock

  lemma EverSetsLevelAfter(log: seq<Event>, e: Event, id: string)
    ensures EverSetsLevel(log + [e], id) <==> EverSetsLevel(log, id) || SetsLevel(e, id)
  {
    assert forall x :: x in log + [e] <==> x in log || x == e;
  }

  /** One shelf and its replayed level change together; every other shelf stays. */
  lemma StockStep(before: Tables, now: Tables, after: Tables, tenant: string, view: map<Json, real>,
                  log: seq<Event>, e: Event, k: string, quantity: real, level: real)
    requires StockAgrees(before, now, tenant, view, log) && IngredientRow(now, tenant, k).Some?
    requires after.inventory == now.inventory[Shelf(tenant, k) := quantity]
    requires after.ingredients == now.ingredients[k := now.ingredients[k].(stock := quantity)]
    requires Concerns(e, "ingredient_id", k) && k in before.ingredients
    requires Fits(quantity) && quantity == level + Carried(before, tenant, k, log + [e])
    ensures StockAgrees(before, after, tenant, view[Str(k) := level], log + [e])
  {
    forall id: string | IngredientRow(after, tenant, id).Some?
      ensures id in before.ingredients
      ensures StockRowAgrees(before, after, tenant, id, view[Str(k) := level], log + [e])
    {
      assert IngredientRow(now, tenant, id).Some?;
      EverSetsLevelAfter(log, e, id);
      assert StockRowAgrees(before, now, tenant, id, view, log);
    }
  }

  predicate IsStockEvent(kind: EventType) {
    kind.Stockout? || kind.Restock? || kind.InventoryAdjustment? || kind.WasteRecorded?
  }

  /** Both places that keep a level now hold this one. */
  predicate Holds(now: Tables, after: Tables, tenant: string, id: string, quantity: real) {
    && id in now.ingredients && Fits(quantity)
    && after.inventory == now.inventory[Shelf(tenant, id) := quantity]
    && after.ingredients == now.ingredients[id := now.ingredients[id].(stock := quantity)]
  }

  lemma RestockHolds(rt: Runtime, now: Tables, after: Tables, entry: Entry)
    requires ApplyRestock(rt, now, entry) == Success(after) && NumberFits(rt, entry.payload, "new_stock_level")
    ensures Holds(now, after, entry.tenant, entry.payload["ingredient_id"].text,
                  rt.number(entry.payload["new_stock_level"]).value)
  {
    FitsIff(rt.number(entry.payload["new_stock_level"]).value);
  }

  lemma AdjustmentHolds(rt: Runtime, now: Tables, after: Tables, entry: Entry)
    requires ApplyInventoryAdjustment(rt, now, entry) == Success(after) && StockFits(rt, entry.payload)
    requires Fits(Stock(now, entry.tenant, entry.payload["ingredient_id"].text))
    ensures var id := entry.payload["ingredient_id"].text;
            Holds(now, after, entry.tenant, id, Adjusted(rt, entry.payload, Stock(now, entry.tenant, id)).value)
  {
    var current := Stock(now, entry.tenant, entry.payload["ingredient_id"].text);
    if "new_stock_level" !in entry.payload {
      FitsAdds(current, rt.number(entry.payload["stock_delta"]).value);
    }
    FitsIff(Adjusted(rt, entry.payload, current).value);
  }

  lemma WasteHolds(rt: Runtime, now: Tables, after: Tables, entry: Entry)
    requires ApplyWaste(rt, now, entry) == Success(after) && NumberFits(rt, entry.payload, "quantity")
    requires Fits(Stock(now, entry.tenant, entry.payload["ingredient_id"].text))
    ensures var id := entry.payload["ingredient_id"].text;
            Holds(now, after, entry.tenant, id,
                  Stock(now, entry.tenant, id) - rt.number(entry.payload["quantity"]).value)
  {
    var current := Stock(now, entry.tenant, entry.payload["ingredient_id"].text);
    var quantity := rt.number(entry.payload["quantity"]).value;
    FitsAdds(current, quantity);
    FitsIff(current - quantity);
  }

  /** A stock event moves the stored level and the replayed one alike, or sets both. */
  lemma LevelsMoveAlike(rt: Runtime, now: Tables, after: Tables, entry: Entry, e: Event, base: real, carried: real)
    requires IsStockEvent(e.kind) && Describes(e, e.kind, entry) && Apply(rt, now, e.kind, entry) == Success(after)
    requires StockFits(rt, e.payload)
    requires Stock(now, entry.tenant, e.payload["ingredient_id"].text) == base + carried && Fits(base + carried)
    ensures ReplayLevel(rt, e.kind, e.payload, base).Success?
    ensures var id := e.payload["ingredient_id"].text;
            var level := ReplayLevel(rt, e.kind, e.payload, base).value;
            Holds(now, after, entry.tenant, id, level + if SetsLevel(e, id) then 0.0 else carried)
  {
    match e.kind
    case Stockout =>
    case Restock => RestockHolds(rt, now, after, entry);
    case InventoryAdjustment => AdjustmentHolds(rt, now, after, entry);
    case WasteRecorded => WasteHolds(rt, now, after, entry);
  }

  /**
    Whatever its figures, an accepted stock event leaves the replayed level, with the seeded
    stock carried along, rounded to four decimals in the table: the two stay equal exactly when
    that level has no more of them.
   */
  lemma LevelsMoveAlikeIff(rt: Runtime, now: Tables, after: Tables, entry: Entry, e: Event, base: real, carried: real)
    requires IsStockEvent(e.kind) && Describes(e, e.kind, entry) && Apply(rt, now, e.kind, entry) == Success(after)
    requires NamesIngredient(now, entry.tenant, Get(e.payload, "ingredient_id"))
    requires Stock(now, entry.tenant, e.payload["ingredient_id"].text) == base + carried
    ensures ReplayLevel(rt, e.kind, e.payload, base).Success?
    ensures var id := e.payload["ingredient_id"].text;
            var level := ReplayLevel(rt, e.kind, e.payload, base).value + if SetsLevel(e, id) then 0.0 else carried;
            && id in after.ingredients
            && Stock(after, entry.tenant, id) == after.ingredients[id].stock == TenThousandths(level)
            && (Stock(after, entry.tenant, id) == level <==> Fits(level))
            && -0.00005 <= level - Stock(after, entry.tenant, id) <= 0.00005
  {
    hide ApplyStockout, ApplyRestock, ApplyInventoryAdjustment, ApplyWaste, Fits, TenThousandths, OnlyLevelMoves;
    AskedAlike(rt, now, after, entry, e, base, carried);
    FitsIff(ReplayLevel(rt, e.kind, e.payload, base).value
            + if SetsLevel(e, e.payload["ingredient_id"].text) then 0.0 else carried);
  }

  /** Handler and replay arrive at one figure before either rounds it. */
  lemma AskedAlike(rt: Runtime, now: Tables, after: Tables, entry: Entry, e: Event, base: real, carried: real)
    requires IsStockEvent(e.kind) && Describes(e, e.kind, entry) && Apply(rt, now, e.kind, entry) == Success(after)
    requires NamesIngredient(now, entry.tenant, Get(e.payload, "ingredient_id"))
    requires Stock(now, entry.tenant, e.payload["ingredient_id"].text) == base + carried
    ensures ReplayLevel(rt, e.kind, e.payload, base).Success?
    ensures var id := e.payload["ingredient_id"].text;
            var level := ReplayLevel(rt, e.kind, e.payload, base).value + if SetsLevel(e, id) then 0.0 else carried;
            LevelSet(now, after, entry.tenant, id, TenThousandths(level))
  {
    hide ApplyStockout, ApplyRestock, ApplyInventoryAdjustment, ApplyWaste, LevelSet, TenThousandths, Stock;
    match e.kind
    case Stockout =>
      StockoutEmpties(now, entry);
      NothingIsNothing();
    case Restock => RestockSets(rt, now, entry);
    case InventoryAdjustment => AdjustmentSets(rt, now, entry);
    case WasteRecorded => WasteTakesAway(rt, now, entry);
  }

  lemma NothingIsNothing()
    ensures TenThousandths(0.0) == 0.0
  {
  }

  lemma StockEventStep(rt: Runtime, before: Tables, now: Tables, after: Tables, entry: Entry, v: View, log: seq<Event>,
                       e: Event)
    requires StockAgrees(before, now, entry.tenant, v.stock, log) && StockFits(rt, e.payload)
    requires IsStockEvent(e.kind) && Describes(e, e.kind, entry) && Apply(rt, now, e.kind, entry) == Success(after)
    ensures ReplayStock(rt, v, e.kind, e.payload, e.time).Success?
    ensures StockAgrees(before, after, entry.tenant,
                        ReplayStock(rt, v, e.kind, e.payload, e.time).value.stock, log + [e])
  {
    StockTarget(rt, before, now, after, entry, v, log, e);
    hide Apply, StockFits, StockAgrees, Carried, ReplayLevel, ReplayStock, Holds, SetsLevel, Stock, StockOf, Fits,
         Describes;
    var id := e.payload["ingredient_id"].text;
    var base, carried := StockOf(v, Str(id)), Carried(before, entry.tenant, id, log);
    LevelsMoveAlike(rt, now, after, entry, e, base, carried);
    var level := ReplayLevel(rt, e.kind, e.payload, base).value;
    ReplayFiles(rt, v, e.kind, e.payload, e.time);
    FiledLevel(before, now, after, entry.tenant, v.stock, log, e, id, carried, level);
  }

  lemma ReplayFiles(rt: Runtime, v: View, kind: EventType, payload: Payload, time: int)
    requires Get(payload, "ingredient_id").Str?
    requires ReplayLevel(rt, kind, payload, StockOf(v, Get(payload, "ingredient_id"))).Success?
    ensures ReplayStock(rt, v, kind, payload, time).Success?
    ensures var id := Get(payload, "ingredient_id");
            ReplayStock(rt, v, kind, payload, time).value.stock
            == v.stock[id := ReplayLevel(rt, kind, payload, StockOf(v, id)).value]
  {
  }

  lemma FiledLevel(before: Tables, now: Tables, after: Tables, tenant: string, view: map<Json, real>,
                   log: seq<Event>, e: Event, id: string, carried: real, level: real)
    requires StockAgrees(before, now, tenant, view, log) && IngredientRow(now, tenant, id).Some?
    requires Concerns(e, "ingredient_id", id) && id in before.ingredients
    requires carried == Carried(before, tenant, id, log)
    requires Holds(now, after, tenant, id, level + if SetsLevel(e, id) then 0.0 else carried)
    ensures StockAgrees(before, after, tenant, view[Str(id) := level], log + [e])
  {
    EverSetsLevelAfter(log, e, id);
    StockStep(before, now, after, tenant, view, log, e, id, level + if SetsLevel(e, id) then 0.0 else carried, level);
  }

  lemma StockTarget(rt: Runtime, before: Tables, now: Tables, after: Tables, entry: Entry, v: View, log: seq<Event>,
                    e: Event)
    requires StockAgrees(before, now, entry.tenant, v.stock, log)
    requires IsStockEvent(e.kind) && Describes(e, e.kind, entry) && Apply(rt, now, e.kind, entry) == Success(after)
    ensures "ingredient_id" in e.payload && e.payload["ingredient_id"].Str?
    ensures var id := e.payload["ingredient_id"].text;
            && IngredientRow(now, entry.tenant, id).Some? && id in before.ingredients
            && Stock(now, entry.tenant, id) == StockOf(v, Str(id)) + Carried(before, entry.tenant, id, log)
            && Fits(Stock(now, entry.tenant, id))
  {
    assert StockRowAgrees(before, now, entry.tenant, e.payload["ingredient_id"].text, v.stock, log);
  }

  // ---------------------------------------------------------------- any event

  lemma {:induction false} OrderLinesTouch(rt: Runtime, t: Tables, e: Entry, order: string, lines: seq<Json>)
    requires ApplyOrderLines(rt, t, e, order, lines).Success?
    ensures var r := ApplyOrderLines(rt, t, e, order, lines).value;
            r == t.(orderLines := r.orderLines, volumes := r.volumes)
  {
    hide ApplyOrderLine;
    if lines != [] {
      var fewer := lines[..|lines| - 1];
      OrderLinesTouch(rt, t, e, order, fewer);
      OrderLineIsRecorded(rt, ApplyOrderLines(rt, t, e, order, fewer).value, e, order, lines[|lines| - 1]);
    }
  }

  lemma {:induction false} InvoiceLinesTouch(rt: Runtime, t: Tables, e: Entry, invoice: string, supplier: string,
                                             lines: seq<Json>)
    requires ApplyInvoiceLines(rt, t, e, invoice, supplier, lines).Success?
    ensures var r := ApplyInvoiceLines(rt, t, e, invoice, supplier, lines).value;
            r == t.(invoiceLines := r.invoiceLines)
  {
    hide ApplyInvoiceLine;
    if lines != [] {
      var fewer := lines[..|lines| - 1];
      InvoiceLinesTouch(rt, t, e, invoice, supplier, fewer);
      InvoiceLineIsRecorded(rt, ApplyInvoiceLines(rt, t, e, invoice, supplier, fewer).value, e, invoice, supplier,
                            lines[|lines| - 1]);
    }
  }

  lemma OrderWrites(rt: Runtime, t: Tables, u: Tables, e: Entry)
    requires ApplyOrderRecorded(rt, t, e) == Success(u)
    ensures u == t.(orders := u.orders, orderLines := u.orderLines, volumes := u.volumes)
  {
    var order := OrderId(rt, e).value;
    var begun := t.(orders := t.orders[order := Order(e.tenant, e.time)]);
    OrderLinesTouch(rt, begun, e, order, Get(e.payload, "lines").items);
  }

  lemma InvoiceWrites(rt: Runtime, t: Tables, u: Tables, e: Entry)
    requires ApplyInvoiceRecorded(rt, t, e) == Success(u)
    ensures u == t.(invoices := u.invoices, invoiceLines := u.invoiceLines)
  {
    var header := InvoiceHeader(rt, t, e).value;
    var begun := t.(invoices := t.invoices[header.0 := header.1]);
    InvoiceLinesTouch(rt, begun, e, header.0, header.1.supplier, InvoiceItems(e.payload).value);
  }

  /** Orders, invoices, staffing and demand spikes leave menu, ingredients and stock alone. */
  lemma OtherKindsTouch(rt: Runtime, now: Tables, after: Tables, kind: EventType, entry: Entry)
    requires kind.OrderRecorded? || kind.InvoiceRecorded? || kind.StaffingChange? || kind.DemandSpike?
    requires Apply(rt, now, kind, entry) == Success(after)
    ensures after.menu == now.menu && after.ingredients == now.ingredients && after.inventory == now.inventory
    ensures after.prices == now.prices && after.skus == now.skus
  {
    hide ApplyOrderRecorded, ApplyInvoiceRecorded;
    if kind.OrderRecorded? {
      OrderWrites(rt, now, after, entry);
    } else if kind.InvoiceRecorded? {
      InvoiceWrites(rt, now, after, entry);
    }
  }

  lemma MenuIdle(rt: Runtime, before: Tables, now: Tables, after: Tables, tenant: string,
                 view: map<Json, MenuView>, log: seq<Event>, e: Event)
    requires MenuAgrees(rt, before, now, tenant, view, log) && after.menu == now.menu
    requires !e.kind.MenuItemAdded? && !e.kind.MenuItemRemoved?
    ensures MenuAgrees(rt, before, after, tenant, view, log + [e])
  {
    forall id: string
      ensures MenuRowAgrees(rt, MenuRow(before, tenant, id), MenuRow(after, tenant, id), Seen(view, id),
                            LastActivity(log + [e], id))
    {
      LastActivityAfter(log, e, id);
      assert MenuRowAgrees(rt, MenuRow(before, tenant, id), MenuRow(now, tenant, id), Seen(view, id),
                           LastActivity(log, id));
    }
  }

  lemma IngredientsIdle(rt: Runtime, before: Tables, now: Tables, after: Tables, tenant: string,
                        view: map<Json, IngredientView>)
    requires IngredientsAgree(rt, before, now, tenant, view) && after.ingredients == now.ingredients
    ensures IngredientsAgree(rt, before, after, tenant, view)
  {
    forall id: string
      ensures IngredientRowAgrees(rt, IngredientRow(before, tenant, id), IngredientRow(after, tenant, id),
                                  Seen(view, id))
    {
      assert IngredientRowAgrees(rt, IngredientRow(before, tenant, id), IngredientRow(now, tenant, id), Seen(view, id));
    }
  }

  /** A stock event leaves an ingredient's price and supplier as they were. */
  lemma RestockedIngredient(rt: Runtime, before: Tables, now: Tables, after: Tables, entry: Entry, v: View, e: Event)
    requires IngredientsAgree(rt, before, now, entry.tenant, v.ingredients)
    requires IsStockEvent(e.kind) && Describes(e, e.kind, entry) && Apply(rt, now, e.kind, entry) == Success(after)
    ensures Get(e.payload, "ingredient_id").Str?
    ensures var id := Get(e.payload, "ingredient_id");
            IngredientsAgree(rt, before, after, entry.tenant, v.ingredients[id := IngredientOf(v, id)])
  {
    IngredientMoves(rt, now, after, entry, e.kind);
    hide Apply;
    var id := e.payload["ingredient_id"].text;
    assert IngredientRowAgrees(rt, IngredientRow(before, entry.tenant, id), IngredientRow(now, entry.tenant, id),
                               Seen(v.ingredients, id));
    IngredientStep(rt, before, now, after, entry.tenant, v.ingredients, id, after.ingredients[id],
                   IngredientOf(v, Str(id)));
  }

  lemma IngredientMoves(rt: Runtime, now: Tables, after: Tables, entry: Entry, kind: EventType)
    requires IsStockEvent(kind) && Apply(rt, now, kind, entry) == Success(after)
    ensures Get(entry.payload, "ingredient_id").Str?
    ensures var id := Get(entry.payload, "ingredient_id").text;
            && id in now.ingredients && now.ingredients[id].tenant == entry.tenant && id in after.ingredients
            && after.ingredients == now.ingredients[id := now.ingredients[id].(stock := after.ingredients[id].stock)]
    ensures after.menu == now.menu && after.prices == now.prices && after.skus == now.skus
  {
  }

  lemma SkuPricesIdle(rt: Runtime, before: Tables, now: Tables, after: Tables, tenant: string, view: map<Json, Json>)
    requires SkuPricesAgree(rt, before, now, tenant, view) && after.prices == now.prices
    ensures SkuPricesAgree(rt, before, after, tenant, view)
  {
    forall id: string
      ensures SkuAgrees(rt, LatestPrice(before.prices, tenant, id), LatestPrice(after.prices, tenant, id),
                        Seen(view, id))
    {
      assert SkuAgrees(rt, LatestPrice(before.prices, tenant, id), LatestPrice(now.prices, tenant, id), Seen(view, id));
    }
  }

  /** The same stock in both tables, row for row. */
  ghost predicate SameStock(now: Tables, after: Tables, tenant: string) {
    forall id: string | IngredientRow(after, tenant, id).Some? ::
      IngredientRow(now, tenant, id).Some? && Stock(after, tenant, id) == Stock(now, tenant, id)
  }

  lemma StockIdle(before: Tables, now: Tables, after: Tables, tenant: string, view: map<Json, real>, log: seq<Event>,
                  e: Event)
    requires StockAgrees(before, now, tenant, view, log) && SameStock(now, after, tenant) && !IsStockEvent(e.kind)
    ensures StockAgrees(before, after, tenant, view, log + [e])
  {
    forall id: string | IngredientRow(after, tenant, id).Some?
      ensures id in before.ingredients && StockRowAgrees(before, after, tenant, id, view, log + [e])
    {
      EverSetsLevelAfter(log, e, id);
      assert StockRowAgrees(before, now, tenant, id, view, log);
    }
  }

  /** The stock figures of a stock event need no rounding; other events carry none. */
  predicate EventFits(rt: Runtime, e: Event) { IsStockEvent(e.kind) ==> StockFits(rt, e.payload) }

  lemma SupplierEventAgrees(rt: Runtime, before: Tables, now: Tables, after: Tables, entry: Entry, v: View,
                            log: seq<Event>, e: Event)
    requires Agrees(rt, before, now, entry.tenant, v, log) && Describes(e, e.kind, entry)
    requires e.kind.SupplierPriceChange? || e.kind.SupplierSwitch?
    requires Apply(rt, now, e.kind, entry) == Success(after)
    ensures Agrees(rt, before, after, entry.tenant, ReplayEvent(rt, now.skus, entry.tenant, v, e).value, log + [e])
  {
    MenuIdle(rt, before, now, after, entry.tenant, v.menu, log, e);
    StockIdle(before, now, after, entry.tenant, v.stock, log, e);
    if e.kind.SupplierPriceChange? {
      SupplierPriceStep(rt, before, now, after, entry, v, e);
      SkuPriceStep(rt, before, now, after, entry, v, e);
    } else {
      SupplierSwitchStep(rt, before, now, after, entry, v, e);
      SkuPricesIdle(rt, before, now, after, entry.tenant, v.prices);
    }
  }

  lemma MenuEventAgrees(rt: Runtime, before: Tables, now: Tables, after: Tables, entry: Entry, v: View, log: seq<Event>,
                        e: Event)
    requires Agrees(rt, before, now, entry.tenant, v, log) && Describes(e, e.kind, entry)
    requires e.kind.MenuPriceChange? || e.kind.MenuItemAdded? || e.kind.MenuItemRemoved?
    requires Apply(rt, now, e.kind, entry) == Success(after)
    ensures Agrees(rt, before, after, entry.tenant, ReplayEvent(rt, now.skus, entry.tenant, v, e).value, log + [e])
  {
    IngredientsIdle(rt, before, now, after, entry.tenant, v.ingredients);
    SkuPricesIdle(rt, before, now, after, entry.tenant, v.prices);
    StockIdle(before, now, after, entry.tenant, v.stock, log, e);
    if e.kind.MenuPriceChange? {
      MenuPriceStep(rt, before, now, after, entry, v, log, e);
    } else if e.kind.MenuItemAdded? {
      MenuAddedStep(rt, before, now, after, entry, v, log, e);
    } else {
      MenuRemovedStep(rt, before, now, after, entry, v, log, e);
    }
  }

  lemma StockEventAgrees(rt: Runtime, before: Tables, now: Tables, after: Tables, entry: Entry, v: View,
                         log: seq<Event>, e: Event)
    requires Agrees(rt, before, now, entry.tenant, v, log) && Describes(e, e.kind, entry)
    requires IsStockEvent(e.kind) && StockFits(rt, e.payload) && Apply(rt, now, e.kind, entry) == Success(after)
    ensures ReplayEvent(rt, now.skus, entry.tenant, v, e).Success?
    ensures Agrees(rt, before, after, entry.tenant, ReplayEvent(rt, now.skus, entry.tenant, v, e).value, log + [e])
  {
    IngredientMoves(rt, now, after, entry, e.kind);
    hide Apply, MenuAgrees, IngredientsAgree, SkuPricesAgree, StockAgrees;
    MenuIdle(rt, before, now, after, entry.tenant, v.menu, log, e);
    SkuPricesIdle(rt, before, now, after, entry.tenant, v.prices);
    StockEventStep(rt, before, now, after, entry, v, log, e);
    RestockedIngredient(rt, before, now, after, entry, v, e);
  }

  lemma OtherEventAgrees(rt: Runtime, before: Tables, now: Tables, after: Tables, entry: Entry, v: View,
                         log: seq<Event>, e: Event)
    requires Agrees(rt, before, now, entry.tenant, v, log) && Describes(e, e.kind, entry)
    requires e.kind.OrderRecorded? || e.kind.InvoiceRecorded? || e.kind.StaffingChange? || e.kind.DemandSpike?
    requires Apply(rt, now, e.kind, entry) == Success(after)
    ensures Agrees(rt, before, after, entry.tenant, ReplayEvent(rt, now.skus, entry.tenant, v, e).value, log + [e])
  {
    OtherKindsTouch(rt, now, after, e.kind, entry);
    hide Apply;
    MenuIdle(rt, before, now, after, entry.tenant, v.menu, log, e);
    IngredientsIdle(rt, before, now, after, entry.tenant, v.ingredients);
    SkuPricesIdle(rt, before, now, after, entry.tenant, v.prices);
    StockIdle(before, now, after, entry.tenant, v.stock, log, e);
  }

  /** One accepted event keeps replay and tables in agreement, and replay accepts it too. */
  lemma EventAgrees(rt: Runtime, before: Tables, now: Tables, after: Tables, entry: Entry, v: View, log: seq<Event>,
                    e: Event)
    requires Agrees(rt, before, now, entry.tenant, v, log) && Describes(e, e.kind, entry) && EventFits(rt, e)
    requires Apply(rt, now, e.kind, entry) == Success(after)
    ensures ReplayEvent(rt, now.skus, entry.tenant, v, e).Success?
    ensures Agrees(rt, before, after, entry.tenant, ReplayEvent(rt, now.skus, entry.tenant, v, e).value, log + [e])
  {
    hide Apply, Agrees, StockFits;
    if IsStockEvent(e.kind) {
      StockEventAgrees(rt, before, now, after, entry, v, log, e);
    } else if e.kind.SupplierPriceChange? || e.kind.SupplierSwitch? {
      SupplierEventAgrees(rt, before, now, after, entry, v, log, e);
    } else if e.kind.MenuPriceChange? || e.kind.MenuItemAdded? || e.kind.MenuItemRemoved? {
      MenuEventAgrees(rt, before, now, after, entry, v, log, e);
    } else {
      OtherEventAgrees(rt, before, now, after, entry, v, log, e);
    }
  }
}
