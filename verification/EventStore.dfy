/**
  The event store as it runs: handlers that write the tables row by row, and may fail halfway
  through, inside one transaction that either keeps everything or nothing.
 */
module EventStore {
  import opened Wrappers
  import opened Json
  import opened HashChain
  import opened EventTables
  import opened EventReplay
  import opened EventRuns
  import opened EventAppends

  /** A line that fails makes the whole list fail, whatever follows it. */
  lemma {:induction false} OrderFailureSticks(rt: Runtime, t: Tables, e: Entry, order: string, lines: seq<Json>, n: nat)
    requires n <= |lines| && ApplyOrderLines(rt, t, e, order, lines[..n]).Failure?
    ensures ApplyOrderLines(rt, t, e, order, lines) == ApplyOrderLines(rt, t, e, order, lines[..n])
  {
    if n == |lines| {
      assert lines[..n] == lines;
    } else {
      var fewer := lines[..|lines| - 1];
      assert fewer[..n] == lines[..n];
      OrderFailureSticks(rt, t, e, order, fewer, n);
    }
  }

  lemma {:induction false} InvoiceFailureSticks(rt: Runtime, t: Tables, e: Entry, invoice: string, supplier: string,
                                                lines: seq<Json>, n: nat)
    requires n <= |lines| && ApplyInvoiceLines(rt, t, e, invoice, supplier, lines[..n]).Failure?
    ensures ApplyInvoiceLines(rt, t, e, invoice, supplier, lines)
         == ApplyInvoiceLines(rt, t, e, invoice, supplier, lines[..n])
  {
    if n == |lines| {
      assert lines[..n] == lines;
    } else {
      var fewer := lines[..|lines| - 1];
      assert fewer[..n] == lines[..n];
      InvoiceFailureSticks(rt, t, e, invoice, supplier, fewer, n);
    }
  }

  lemma {:induction false} ReplayFailureSticks(rt: Runtime, skus: map<string, Sku>, tenant: string, log: seq<Event>,
                                               n: nat)
    requires n <= |log| && Replay(rt, skus, tenant, log[..n]).Failure?
    ensures Replay(rt, skus, tenant, log) == Replay(rt, skus, tenant, log[..n])
  {
    if n == |log| {
      assert log[..n] == log;
    } else {
      var fewer := log[..|log| - 1];
      assert fewer[..n] == log[..n];
      ReplayFailureSticks(rt, skus, tenant, fewer, n);
    }
  }

  /** What a handler returns for a result of its specification. */
  function Status<T>(r: Result<T, Error>): Result<(), Error> {
    match r
    case Success(_) => Success(())
    case Failure(error) => Failure(error)
  }

  class EventStore {
    const env: Env

    var tenants: set<string>
    var ids: set<int>
    var logs: map<string, seq<Event>>

    var suppliers: map<string, string>
    var skus: map<string, Sku>
    var ingredients: map<string, Ingredient>
    var inventory: map<Shelf, real>
    var menu: map<string, MenuItem>
    var prices: seq<PriceRow>
    var waste: seq<WasteRow>
    var orders: map<string, Order>
    var orderLines: seq<OrderLine>
    var volumes: seq<Volume>
    var invoices: map<string, Invoice>
    var invoiceLines: seq<InvoiceLine>
    var shifts: map<string, Shift>

    constructor (env: Env, seed: Store)
      ensures this.env == env && Contents() == seed
    {
      this.env := env;
      tenants, ids, logs := seed.tenants, seed.ids, seed.logs;
      suppliers, skus, ingredients, inventory := seed.tables.suppliers, seed.tables.skus, seed.tables.ingredients,
          seed.tables.inventory;
      menu, prices, waste := seed.tables.menu, seed.tables.prices, seed.tables.waste;
      orders, orderLines, volumes := seed.tables.orders, seed.tables.orderLines, seed.tables.volumes;
      invoices, invoiceLines, shifts := seed.tables.invoices, seed.tables.invoiceLines, seed.tables.shifts;
    }

    function Rows(): Tables
      reads this
    {
      Tables(suppliers, skus, ingredients, inventory, menu, prices, waste, orders, orderLines, volumes,
             invoices, invoiceLines, shifts)
    }

    function Contents(): Store
      reads this
    {
      Store(tenants, ids, Rows(), logs)
    }

    // -------------------------------------------------------------- stock

    /** `_update_inventory_projection`: the inventory row of an ingredient, created if missing. */
    method UpdateInventory(tenant: string, id: Json, quantity: real) returns (r: Result<real, Error>)
      requires quantity >= 0.0
      modifies `inventory
      ensures FindIngredient(old(Rows()), tenant, id).Failure? ==>
                r == Failure(FindIngredient(old(Rows()), tenant, id).error)
      ensures FindIngredient(old(Rows()), tenant, id).Success? ==> r == Quantity(quantity)
      ensures r.Success? ==> inventory == old(inventory)[Shelf(tenant, id.text) := r.value]
    {
      var ingredient :- FindIngredient(Rows(), tenant, id);
      var stored :- Quantity(quantity);
      inventory := inventory[Shelf(tenant, id.text) := stored];
      return Success(stored);
    }

    method SetLevel(id: string, quantity: real)
      requires id in ingredients
      modifies `ingredients
      ensures ingredients == old(ingredients)[id := old(ingredients)[id].(stock := quantity)]
    {
      ingredients := ingredients[id := ingredients[id].(stock := quantity)];
    }

    method HandleStockout(e: Entry) returns (r: Result<(), Error>)
      modifies `inventory, `ingredients
      ensures r == Status(ApplyStockout(old(Rows()), e))
      ensures r.Success? ==> Rows() == ApplyStockout(old(Rows()), e).value
    {
      var id :- Required(e.payload, "ingredient_id");
      var stored :- UpdateInventory(e.tenant, id, 0.0);
      SetLevel(id.text, stored);
      return Success(());
    }

    method HandleRestock(e: Entry) returns (r: Result<(), Error>)
      modifies `inventory, `ingredients
      ensures r == Status(ApplyRestock(env.rt, old(Rows()), e))
      ensures r.Success? ==> Rows() == ApplyRestock(env.rt, old(Rows()), e).value
    {
      var id :- Required(e.payload, "ingredient_id");
      var quantity :- Amount(env.rt, e.payload, "new_stock_level");
      :- Need(quantity >= 0.0, InvalidEvent);
      var stored :- UpdateInventory(e.tenant, id, quantity);
      SetLevel(id.text, stored);
      return Success(());
    }

    method HandleInventoryAdjustment(e: Entry) returns (r: Result<(), Error>)
      modifies `inventory, `ingredients
      ensures r == Status(ApplyInventoryAdjustment(env.rt, old(Rows()), e))
      ensures r.Success? ==> Rows() == ApplyInventoryAdjustment(env.rt, old(Rows()), e).value
    {
      var id :- Required(e.payload, "ingredient_id");
      var ingredient :- FindIngredient(Rows(), e.tenant, id);
      var shelf := Shelf(e.tenant, id.text);
      var current := if shelf in inventory then inventory[shelf] else ingredient.stock;
      var quantity := current;
      if "new_stock_level" in e.payload {
        quantity :- Number(env.rt, e.payload["new_stock_level"]);
      } else if "stock_delta" in e.payload {
        var delta :- Number(env.rt, e.payload["stock_delta"]);
        quantity := current + delta;
      } else {
        return Failure(InvalidEvent);
      }
      :- Need(quantity >= 0.0, InvalidEvent);
      var stored :- UpdateInventory(e.tenant, id, quantity);
      SetLevel(id.text, stored);
      return Success(());
    }

    method HandleWaste(e: Entry) returns (r: Result<(), Error>)
      modifies `inventory, `ingredients, `waste
      ensures r == Status(ApplyWaste(env.rt, old(Rows()), e))
      ensures r.Success? ==> Rows() == ApplyWaste(env.rt, old(Rows()), e).value
    {
      var id :- Required(e.payload, "ingredient_id");
      var quantity :- Amount(env.rt, e.payload, "quantity");
      var reason :- Required(e.payload, "reason");
      :- Need(quantity > 0.0, InvalidEvent);
      var ingredient :- FindIngredient(Rows(), e.tenant, id);
      var shelf := Shelf(e.tenant, id.text);
      var current := if shelf in inventory then inventory[shelf] else ingredient.stock;
      var left := current - quantity;
      :- Need(left >= 0.0, InvalidEvent);
      var wasted :- Quantity(quantity);
      :- Need(wasted > 0.0, Database);
      waste := waste + [WasteRow(e.tenant, id.text, wasted, env.rt.show(reason), e.time)];
      var stored :- UpdateInventory(e.tenant, id, left);
      SetLevel(id.text, stored);
      return Success(());
    }

    // -------------------------------------------------------------- suppliers and menu

    method HandleSupplierPriceChange(e: Entry) returns (r: Result<(), Error>)
      modifies `prices, `ingredients
      ensures r == Status(ApplySupplierPriceChange(env.rt, old(Rows()), e))
      ensures r.Success? ==> Rows() == ApplySupplierPriceChange(env.rt, old(Rows()), e).value
    {
      var skuId :- Required(e.payload, "supplier_sku_id");
      var price :- Amount(env.rt, e.payload, "new_price");
      :- Need(price >= 0.0, InvalidEvent);
      var sku :- FindSku(Rows(), e.tenant, skuId);
      var stored :- Price(price);
      prices := prices + [PriceRow(e.tenant, skuId.text, stored, e.time)];
      var ingredient :- FindIngredient(Rows(), e.tenant, Str(sku.ingredient));
      ingredients := ingredients[sku.ingredient := ingredient.(price := stored)];
      return Success(());
    }

    method HandleSupplierSwitch(e: Entry) returns (r: Result<(), Error>)
      modifies `ingredients
      ensures r == Status(ApplySupplierSwitch(old(Rows()), e))
      ensures r.Success? ==> Rows() == ApplySupplierSwitch(old(Rows()), e).value
    {
      var id :- Required(e.payload, "ingredient_id");
      var supplierId :- Required(e.payload, "new_supplier_id");
      var supplier :- FindSupplier(Rows(), e.tenant, supplierId);
      var ingredient :- FindIngredient(Rows(), e.tenant, id);
      ingredients := ingredients[id.text := ingredient.(supplier := Some(supplier))];
      return Success(());
    }

    method HandleMenuPriceChange(e: Entry) returns (r: Result<(), Error>)
      modifies `menu
      ensures r == Status(ApplyMenuPriceChange(env.rt, old(Rows()), e))
      ensures r.Success? ==> Rows() == ApplyMenuPriceChange(env.rt, old(Rows()), e).value
    {
      var id :- Required(e.payload, "menu_item_id");
      var price :- Amount(env.rt, e.payload, "new_price");
      :- Need(price >= 0.0, InvalidEvent);
      var item :- FindMenuItem(Rows(), e.tenant, id);
      var stored :- Price(price);
      menu := menu[id.text := item.(price := stored)];
      return Success(());
    }

    method HandleMenuItemAdded(e: Entry) returns (r: Result<(), Error>)
      modifies `menu
      ensures r == Status(ApplyMenuItemAdded(env.rt, old(Rows()), e))
      ensures r.Success? ==> Rows() == ApplyMenuItemAdded(env.rt, old(Rows()), e).value
    {
      var id :- Required(e.payload, "menu_item_id");
      var name :- Required(e.payload, "name");
      var price :- Amount(env.rt, e.payload, "current_price");
      :- Need(price >= 0.0, InvalidEvent);
      var active :- AddedActive(e.payload);
      var key :- Key(id);
      :- Need(key in menu ==> menu[key].tenant == e.tenant, Database);
      var stored :- Price(price);
      if key !in menu {
        menu := menu[key := MenuItem(e.tenant, env.rt.show(name), stored, active)];
      } else {
        menu := menu[key := menu[key].(name := env.rt.show(name), price := stored, active := active)];
      }
      return Success(());
    }

    method HandleMenuItemRemoved(e: Entry) returns (r: Result<(), Error>)
      modifies `menu
      ensures r == Status(ApplyMenuItemRemoved(old(Rows()), e))
      ensures r.Success? ==> Rows() == ApplyMenuItemRemoved(old(Rows()), e).value
    {
      var id :- Required(e.payload, "menu_item_id");
      var item :- FindMenuItem(Rows(), e.tenant, id);
      menu := menu[id.text := item.(active := false)];
      return Success(());
    }

    // -------------------------------------------------------------- orders, invoices, staffing

    method AddOrderLine(e: Entry, order: string, line: Json) returns (r: Result<(), Error>)
      modifies `orderLines, `volumes
      ensures r == Status(ApplyOrderLine(env.rt, old(Rows()), e, order, line))
      ensures r.Success? ==> Rows() == ApplyOrderLine(env.rt, old(Rows()), e, order, line).value
    {
      var fields :- Fields(line);
      var id :- Required(fields, "menu_item_id");
      var count :- Required(fields, "quantity");
      var quantity :- Integer(env.rt, count, Crash);
      var unitPrice :- Amount(env.rt, fields, "unit_price");
      :- Need(quantity > 0, InvalidEvent);
      :- Need(unitPrice >= 0.0, InvalidEvent);
      var item :- FindMenuItem(Rows(), e.tenant, id);
      :- Need(quantity <= MAX_INTEGER, Database);
      var stored :- Price(unitPrice);
      orderLines := orderLines + [OrderLine(e.tenant, order, id.text, quantity, stored)];
      volumes := volumes + [Volume(e.tenant, id.text, quantity, e.time)];
      return Success(());
    }

    method HandleOrderRecorded(e: Entry) returns (r: Result<(), Error>)
      modifies `orders, `orderLines, `volumes
      ensures r == Status(ApplyOrderRecorded(env.rt, old(Rows()), e))
      ensures r.Success? ==> Rows() == ApplyOrderRecorded(env.rt, old(Rows()), e).value
    {
      var given := Get(e.payload, "lines");
      :- Need(given.Arr? && given.items != [], InvalidEvent);
      var lines := given.items;
      var order :- OrderId(env.rt, e);
      :- Need(order !in orders, Database);
      orders := orders[order := Order(e.tenant, e.time)];
      ghost var begun := Rows();
      for i := 0 to |lines|
        invariant ApplyOrderLines(env.rt, begun, e, order, lines[..i]) == Success(Rows())
      {
        assert lines[..i + 1][..i] == lines[..i];
        var added := AddOrderLine(e, order, lines[i]);
        if added.Failure? {
          OrderFailureSticks(env.rt, begun, e, order, lines, i + 1);
          return added;
        }
      }
      assert lines[..|lines|] == lines;
      return Success(());
    }

    method AddInvoiceLine(e: Entry, invoice: string, supplier: string, line: Json) returns (r: Result<(), Error>)
      modifies `invoiceLines
      ensures r == Status(ApplyInvoiceLine(env.rt, old(Rows()), e, invoice, supplier, line))
      ensures r.Success? ==> Rows() == ApplyInvoiceLine(env.rt, old(Rows()), e, invoice, supplier, line).value
    {
      var fields :- Fields(line);
      var skuId :- Required(fields, "supplier_sku_id");
      var quantity :- Amount(env.rt, fields, "quantity");
      var unitPrice :- Amount(env.rt, fields, "unit_price");
      :- Need(quantity > 0.0, InvalidEvent);
      :- Need(unitPrice >= 0.0, InvalidEvent);
      var sku :- FindSku(Rows(), e.tenant, skuId);
      :- Need(sku.supplier == supplier, InvalidEvent);
      var count :- Quantity(quantity);
      :- Need(count > 0.0, Database);
      var stored :- Price(unitPrice);
      invoiceLines := invoiceLines + [InvoiceLine(e.tenant, invoice, skuId.text, count, stored)];
      return Success(());
    }

    method HandleInvoiceRecorded(e: Entry) returns (r: Result<(), Error>)
      modifies `invoices, `invoiceLines
      ensures r == Status(ApplyInvoiceRecorded(env.rt, old(Rows()), e))
      ensures r.Success? ==> Rows() == ApplyInvoiceRecorded(env.rt, old(Rows()), e).value
    {
      hide InvoiceHeader, ApplyInvoiceLine;
      var header :- InvoiceHeader(env.rt, Rows(), e);
      var invoice, row := header.0, header.1;
      invoices := invoices[invoice := row];
      ghost var begun := Rows();
      var lines :- InvoiceItems(e.payload);
      for i := 0 to |lines|
        invariant ApplyInvoiceLines(env.rt, begun, e, invoice, row.supplier, lines[..i]) == Success(Rows())
      {
        assert lines[..i + 1][..i] == lines[..i];
        var added := AddInvoiceLine(e, invoice, row.supplier, lines[i]);
        if added.Failure? {
          InvoiceFailureSticks(env.rt, begun, e, invoice, row.supplier, lines, i + 1);
          return added;
        }
      }
      assert lines[..|lines|] == lines;
      return Success(());
    }

    method HandleStaffingChange(e: Entry) returns (r: Result<(), Error>)
      modifies `shifts
      ensures r == Status(ApplyStaffingChange(env.rt, old(Rows()), e))
      ensures r.Success? ==> Rows() == ApplyStaffingChange(env.rt, old(Rows()), e).value
    {
      var role :- Required(e.payload, "role");
      var dayValue :- Required(e.payload, "day_of_week");
      var countValue :- Required(e.payload, "headcount");
      var day :- Integer(env.rt, dayValue, InvalidEvent);
      var headcount :- Integer(env.rt, countValue, InvalidEvent);
      :- Need(0 <= day <= 6, InvalidEvent);
      :- Need(headcount >= 0, InvalidEvent);
      var shift :- ShiftId(env.rt, Rows(), e, env.rt.show(role), day);
      :- Need(headcount <= MAX_INTEGER, Database);
      if shift !in shifts {
        shifts := shifts[shift := Shift(e.tenant, env.rt.show(role), day, headcount)];
      } else {
        shifts := shifts[shift := shifts[shift].(role := env.rt.show(role), day := day, headcount := headcount)];
      }
      return Success(());
    }

    // -------------------------------------------------------------- the transaction

    /** `_apply_to_current_state`. */
    method Dispatch(kind: EventType, e: Entry) returns (r: Result<(), Error>)
      modifies `ingredients, `inventory, `menu, `prices, `waste, `orders, `orderLines, `volumes, `invoices,
          `invoiceLines, `shifts
      ensures r == Status(Apply(env.rt, old(Rows()), kind, e))
      ensures r.Success? ==> Rows() == Apply(env.rt, old(Rows()), kind, e).value
    {
      match kind
      case SupplierPriceChange => r := HandleSupplierPriceChange(e);
      case SupplierSwitch => r := HandleSupplierSwitch(e);
      case Stockout => r := HandleStockout(e);
      case Restock => r := HandleRestock(e);
      case InventoryAdjustment => r := HandleInventoryAdjustment(e);
      case WasteRecorded => r := HandleWaste(e);
      case MenuItemAdded => r := HandleMenuItemAdded(e);
      case MenuItemRemoved => r := HandleMenuItemRemoved(e);
      case MenuPriceChange => r := HandleMenuPriceChange(e);
      case OrderRecorded => r := HandleOrderRecorded(e);
      case InvoiceRecorded => r := HandleInvoiceRecorded(e);
      case StaffingChange => r := HandleStaffingChange(e);
      case DemandSpike => r := Success(());
    }

    /** What the database does with the read tables of an aborted transaction. */
    method RestoreReadTables(t: Tables)
      modifies `ingredients, `inventory, `menu, `shifts
      ensures ingredients == t.ingredients && inventory == t.inventory && menu == t.menu && shifts == t.shifts
    {
      ingredients, inventory, menu, shifts := t.ingredients, t.inventory, t.menu, t.shifts;
    }

    /** And with its history tables. */
    method RestoreHistory(t: Tables)
      modifies `prices, `waste, `orders, `orderLines, `volumes, `invoices, `invoiceLines
      ensures prices == t.prices && waste == t.waste && orders == t.orders && orderLines == t.orderLines
      ensures volumes == t.volumes && invoices == t.invoices && invoiceLines == t.invoiceLines
    {
      prices, waste, orders, orderLines := t.prices, t.waste, t.orders, t.orderLines;
      volumes, invoices, invoiceLines := t.volumes, t.invoices, t.invoiceLines;
    }

    /** One event's handler, inside a savepoint: all of its rows or none. */
    method ApplyOrRollBack(kind: EventType, e: Entry) returns (r: Result<(), Error>)
      modifies `ingredients, `inventory, `menu, `prices, `waste, `orders, `orderLines, `volumes, `invoices,
          `invoiceLines, `shifts
      ensures r == Status(Apply(env.rt, old(Rows()), kind, e))
      ensures Rows() == if r.Success? then Apply(env.rt, old(Rows()), kind, e).value else old(Rows())
    {
      hide Apply;
      var start := Rows();
      r := Dispatch(kind, e);
      if r.Failure? {
        RestoreReadTables(start);
        RestoreHistory(start);
      }
    }

    /** The row of a call, linked to the latest event of its tenant. */
    method NewEvent(log: seq<Event>, c: Call) returns (event: Event)
      ensures event == NextEvent(env.digest, log, c.kind, c.payload, c.source, c.time, c.id)
    {
      var previous := if log == [] then GENESIS else log[|log| - 1].hash;
      var hash := env.digest.sum(Text(env.digest, previous, c.kind, c.payload, c.time, c.source));
      return Event(c.time, c.id, c.kind, c.payload, Strip(c.source), hash, previous);
    }

    /** The transaction: insert the row, run its handler, and keep both or neither. */
    method Transact(c: Call, event: Event) returns (r: Result<(), Error>)
      modifies this
      ensures r == Status(Apply(env.rt, old(Rows()), c.kind, EntryOf(c)))
      ensures tenants == old(tenants)
      ensures r.Success? ==>
                && Rows() == Apply(env.rt, old(Rows()), c.kind, EntryOf(c)).value
                && ids == old(ids) + {c.id}
                && logs == old(logs)[c.tenant := Insert(LogOf(old(Contents()), c.tenant), event)]
      ensures r.Failure? ==> Rows() == old(Rows()) && ids == old(ids) && logs == old(logs)
    {
      hide Apply, Insert;
      var idsBefore, logsBefore := ids, logs;
      ids := ids + {c.id};
      logs := logs[c.tenant := Insert(if c.tenant in logs then logs[c.tenant] else [], event)];
      r := ApplyOrRollBack(c.kind, EntryOf(c));
      if r.Failure? { ids, logs := idsBefore, logsBefore; }
    }

    /**
      `append_event`: an accepted call leaves the store the specification names; a failed one
      leaves it as it was, even when its handler had already written some of its rows.
     */
    method AppendEvent(c: Call) returns (r: Result<Event, Error>)
      modifies this
      ensures r.Success? <==> Append(env, old(Contents()), c).Success?
      ensures r.Success? ==> r.value == Recorded(env, old(Contents()), c)
      ensures r.Failure? ==> Append(env, old(Contents()), c) == Failure(r.error)
      ensures Contents() == After(env, old(Contents()), c)
      ensures r.Success? <==> Admitted(old(Contents()), c) && Acceptable(env.rt, old(Rows()), c)
      ensures r.Success? ==>
                && Writes(env.rt, old(Rows()), Rows(), c)
                && Logged(LogOf(old(Contents()), c.tenant), LogOf(Contents(), c.tenant), c)
      ensures r.Failure? ==> Contents() == old(Contents())
      ensures ReadInOrder(old(Contents()), c.tenant) ==> ReadInOrder(Contents(), c.tenant)
    {
      hide Apply, NextEvent, Insert, Strip, Acceptable, Writes, Logged, ReadInOrder;
      AcceptedIff(env, Contents(), c);
      AppendWrites(env, Contents(), c);
      if ReadInOrder(Contents(), c.tenant) { AppendKeepsReadingOrder(env, Contents(), c, c.tenant); }
      var known :- Known(Contents(), c);
      var event := NewEvent(if c.tenant in logs then logs[c.tenant] else [], c);
      var applied :- Transact(c, event);
      return Success(event);
    }

    // -------------------------------------------------------------- reading

    /** The replay loop of `reconstruct_state_at`, from an empty state. */
    method ReplayEvents(tenant: string, events: seq<Event>) returns (r: Result<View, Error>)
      ensures r == Replay(env.rt, skus, tenant, events)
    {
      var view := EMPTY_VIEW;
      for i := 0 to |events|
        invariant Replay(env.rt, skus, tenant, events[..i]) == Success(view)
      {
        assert events[..i + 1][..i] == events[..i];
        var next := ReplayEvent(env.rt, skus, tenant, view, events[i]);
        if next.Failure? {
          ReplayFailureSticks(env.rt, skus, tenant, events, i + 1);
          return next;
        }
        view := next.value;
      }
      assert events[..|events|] == events;
      return Success(view);
    }

    /**
      `reconstruct_state_at`: replay of the events up to a time; in a log kept in reading order
      these are its first n events, every one in time and none later.
     */
    method ReconstructStateAt(tenant: string, time: int) returns (r: Result<View, Error>, ghost n: nat)
      ensures r == Replay(env.rt, skus, tenant, UpTo(LogOf(Contents(), tenant), time))
      ensures InOrder(LogOf(Contents(), tenant)) ==>
                && CutAt(LogOf(Contents(), tenant), time, n)
                && r == Replay(env.rt, skus, tenant, LogOf(Contents(), tenant)[..n])
    {
      hide Replay;
      n := 0;
      if InOrder(LogOf(Contents(), tenant)) { n := UpToIsTheCut(LogOf(Contents(), tenant), time); }
      r := ReplayEvents(tenant, UpTo(if tenant in logs then logs[tenant] else [], time));
    }

    /** `verify_chain_integrity` of one tenant. */
    method VerifyChainIntegrity(tenant: string) returns (fault: Option<Fault>)
      ensures fault.None? <==> Verifies(env.digest, LogOf(Contents(), tenant))
      ensures fault.Some? ==>
                var log := LogOf(Contents(), tenant);
                exists i | 0 <= i < |log| ::
                  Check(env.digest, log, i) == fault && forall j | 0 <= j < i :: Linked(env.digest, log, j)
    {
      fault := VerifyChain(env.digest, if tenant in logs then logs[tenant] else []);
    }
  }
}
