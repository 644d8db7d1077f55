/**
  What `append_event` does to the store, kind by kind and in the terms of the call alone: which
  calls it accepts, which rows it writes for them, and what the rows of whole runs add up to.
 */
module EventAppends {
  import opened Wrappers
  import opened Json
  import opened HashChain
  import opened Columns
  import opened EventTables
  import opened EventEffects
  import opened EventReplay
  import opened EventIsolation
  import opened EventRuns
  import opened EventIntegrity

  /** What any call needs, whatever its payload: a source, a known tenant, an id of its own. */
  predicate Admitted(s: Store, c: Call) {
    Strip(c.source) != "" && c.tenant in s.tenants && c.id !in s.ids
  }

  // ---------------------------------------------------------------- accepted calls

  predicate AcceptsWaste(rt: Runtime, t: Tables, c: Call) {
    var id, quantity := Get(c.payload, "ingredient_id"), Figure(rt, c.payload, "quantity");
    && NamesIngredient(t, c.tenant, id) && quantity.Some? && !Get(c.payload, "reason").Null?
    && 0.0 < quantity.value <= Stock(t, c.tenant, id.text) && 0.0 < TenThousandths(quantity.value) < COLUMN_LIMIT
    && LevelFits(Stock(t, c.tenant, id.text) - quantity.value)
  }

  predicate AcceptsAdjustment(rt: Runtime, t: Tables, c: Call) {
    var id := Get(c.payload, "ingredient_id");
    && NamesIngredient(t, c.tenant, id)
    && var level := Named(rt, c.payload, Stock(t, c.tenant, id.text)); level.Some? && LevelFits(level.value)
  }

  predicate AcceptsAddition(rt: Runtime, t: Tables, c: Call) {
    var id := Get(c.payload, "menu_item_id");
    && id.Str? && (id.text in t.menu ==> t.menu[id.text].tenant == c.tenant)
    && PriceFits(Figure(rt, c.payload, "current_price")) && !Get(c.payload, "name").Null?
    && ("active" in c.payload ==> c.payload["active"].Bool?)
  }

  predicate TakesOrderLine(rt: Runtime, t: Tables, tenant: string, line: Json) {
    line.Obj? &&
    var count := Get(line.fields, "quantity");
    && NamesMenuItem(t, tenant, Get(line.fields, "menu_item_id")) && PriceFits(Figure(rt, line.fields, "unit_price"))
    && !count.Null? && rt.integer(count).Some? && 0 < rt.integer(count).value <= MAX_INTEGER
  }

  /** The id a new order or invoice goes under: the one given, or the spare one. */
  function GivenId(given: Json, absent: bool, spare: string): Option<string> {
    if absent then Some(spare) else if given.Str? then Some(given.text) else None
  }

  function OrderIdOf(rt: Runtime, c: Call): Option<string> {
    GivenId(Get(c.payload, "order_id"), Falsy(rt, Get(c.payload, "order_id")), c.spare)
  }

  function InvoiceIdOf(c: Call): Option<string> {
    GivenId(Get(c.payload, "invoice_id"), Get(c.payload, "invoice_id").Null?, c.spare)
  }

  predicate AcceptsOrder(rt: Runtime, t: Tables, c: Call) {
    var lines, id := Get(c.payload, "lines"), OrderIdOf(rt, c);
    && lines.Arr? && lines.items != [] && id.Some? && id.value !in t.orders
    && forall k | 0 <= k < |lines.items| :: TakesOrderLine(rt, t, c.tenant, lines.items[k])
  }

  predicate TakesInvoiceLine(rt: Runtime, t: Tables, tenant: string, supplier: string, line: Json) {
    line.Obj? &&
    var id, q := Get(line.fields, "supplier_sku_id"), Figure(rt, line.fields, "quantity");
    && NamesSku(t, tenant, id) && t.skus[id.text].supplier == supplier
    && PriceFits(Figure(rt, line.fields, "unit_price"))
    && q.Some? && q.value > 0.0 && 0.0 < TenThousandths(q.value) < COLUMN_LIMIT
  }

  /** The total an invoice names: nothing unless it says so. */
  function TotalOf(rt: Runtime, payload: Payload): Option<real> {
    if "total_amount" in payload then rt.number(payload["total_amount"]) else Some(0.0)
  }

  /** The lines an invoice lists: none unless it says so. */
  function LinesOf(payload: Payload): Option<seq<Json>> {
    if "lines" !in payload then Some([]) else if payload["lines"].Arr? then Some(payload["lines"].items) else None
  }

  predicate AcceptsInvoice(rt: Runtime, t: Tables, c: Call) {
    var supplier, number, id := Get(c.payload, "supplier_id"), Get(c.payload, "invoice_number"), InvoiceIdOf(c);
    var total, lines := TotalOf(rt, c.payload), LinesOf(c.payload);
    && NamesSupplier(t, c.tenant, supplier) && !number.Null? && total.Some? && total.value >= 0.0
    && Cents(total.value) < 10000000000.0
    && id.Some? && id.value !in t.invoices
    && (forall k | k in t.invoices && t.invoices[k].tenant == c.tenant :: t.invoices[k].number != rt.show(number))
    && lines.Some?
    && forall k | 0 <= k < |lines.value| :: TakesInvoiceLine(rt, t, c.tenant, supplier.text, lines.value[k])
  }

  predicate AcceptsStaffing(rt: Runtime, t: Tables, c: Call) {
    var role, day, count := Get(c.payload, "role"), Get(c.payload, "day_of_week"), Get(c.payload, "headcount");
    && !role.Null? && !day.Null? && !count.Null?
    && rt.integer(day).Some? && 0 <= rt.integer(day).value <= 6
    && rt.integer(count).Some? && 0 <= rt.integer(count).value <= MAX_INTEGER
    && SpeaksOfOneShift(rt, t, EntryOf(c), rt.show(role), rt.integer(day).value)
  }

  /** Which payloads each kind of event takes, given the tables. */
  predicate Acceptable(rt: Runtime, t: Tables, c: Call) {
    match c.kind
    case SupplierPriceChange =>
      var id := Get(c.payload, "supplier_sku_id");
      && NamesSku(t, c.tenant, id) && NamesIngredient(t, c.tenant, Str(t.skus[id.text].ingredient))
      && PriceFits(Figure(rt, c.payload, "new_price"))
    case SupplierSwitch =>
      NamesIngredient(t, c.tenant, Get(c.payload, "ingredient_id"))
      && NamesSupplier(t, c.tenant, Get(c.payload, "new_supplier_id"))
    case Stockout => NamesIngredient(t, c.tenant, Get(c.payload, "ingredient_id"))
    case Restock =>
      var level := Figure(rt, c.payload, "new_stock_level");
      NamesIngredient(t, c.tenant, Get(c.payload, "ingredient_id")) && level.Some? && LevelFits(level.value)
    case InventoryAdjustment => AcceptsAdjustment(rt, t, c)
    case WasteRecorded => AcceptsWaste(rt, t, c)
    case MenuItemAdded => AcceptsAddition(rt, t, c)
    case MenuItemRemoved => NamesMenuItem(t, c.tenant, Get(c.payload, "menu_item_id"))
    case MenuPriceChange =>
      NamesMenuItem(t, c.tenant, Get(c.payload, "menu_item_id")) && PriceFits(Figure(rt, c.payload, "new_price"))
    case OrderRecorded => AcceptsOrder(rt, t, c)
    case InvoiceRecorded => AcceptsInvoice(rt, t, c)
    case StaffingChange => AcceptsStaffing(rt, t, c)
    case DemandSpike => true
  }

  // ---------------------------------------------------------------- the rows they write

  /** A line that names this item, quantity and price, the price in whole cents. */
  predicate OrderLineSays(rt: Runtime, line: Json, item: string, quantity: int, unitPrice: real) {
    && line.Obj? && Get(line.fields, "menu_item_id") == Str(item)
    && rt.integer(Get(line.fields, "quantity")) == Some(quantity)
    && Figure(rt, line.fields, "unit_price").Some? && unitPrice == Cents(Figure(rt, line.fields, "unit_price").value)
  }

  predicate OrderLineWritten(rt: Runtime, line: Json, row: OrderLine, volume: Volume, tenant: string, order: string,
                             time: int) {
    && row.tenant == tenant && row.order == order && OrderLineSays(rt, line, row.item, row.quantity, row.unitPrice)
    && volume == Volume(tenant, row.item, row.quantity, time)
  }

  predicate InvoiceLineSays(rt: Runtime, line: Json, sku: string, quantity: real, unitPrice: real) {
    && line.Obj? && Get(line.fields, "supplier_sku_id") == Str(sku)
    && Figure(rt, line.fields, "quantity").Some?
    && quantity == TenThousandths(Figure(rt, line.fields, "quantity").value)
    && Figure(rt, line.fields, "unit_price").Some? && unitPrice == Cents(Figure(rt, line.fields, "unit_price").value)
  }

  predicate InvoiceLineWritten(rt: Runtime, line: Json, row: InvoiceLine, tenant: string, invoice: string) {
    row.tenant == tenant && row.invoice == invoice && InvoiceLineSays(rt, line, row.sku, row.quantity, row.unitPrice)
  }

  /** One order, one line and one demand row for each listed line, in order. */
  ghost predicate WritesOrder(rt: Runtime, t: Tables, u: Tables, c: Call) {
    var lines, id := Get(c.payload, "lines"), OrderIdOf(rt, c);
    && lines.Arr? && id.Some? && id.value !in t.orders
    && u == t.(orders := t.orders[id.value := Order(c.tenant, c.time)], orderLines := u.orderLines,
               volumes := u.volumes)
    && |u.orderLines| == |t.orderLines| + |lines.items| && t.orderLines <= u.orderLines
    && |u.volumes| == |t.volumes| + |lines.items| && t.volumes <= u.volumes
    && forall k | 0 <= k < |lines.items| ::
         OrderLineWritten(rt, lines.items[k], u.orderLines[|t.orderLines| + k], u.volumes[|t.volumes| + k], c.tenant,
                          id.value, c.time)
  }

  /** The header row a call asks for. */
  predicate InvoiceSays(rt: Runtime, payload: Payload, tenant: string, time: int, row: Invoice) {
    && row.tenant == tenant && row.time == time && Get(payload, "supplier_id") == Str(row.supplier)
    && row.number == rt.show(Get(payload, "invoice_number"))
    && TotalOf(rt, payload).Some? && row.total == Cents(TotalOf(rt, payload).value)
  }

  /** One invoice under its id, as the payload says it, and one row for each listed line, in order. */
  ghost predicate WritesInvoice(rt: Runtime, t: Tables, u: Tables, c: Call) {
    var lines, id := LinesOf(c.payload), InvoiceIdOf(c);
    && lines.Some? && id.Some? && id.value !in t.invoices && id.value in u.invoices
    && u == t.(invoices := t.invoices[id.value := u.invoices[id.value]], invoiceLines := u.invoiceLines)
    && InvoiceSays(rt, c.payload, c.tenant, c.time, u.invoices[id.value])
    && |u.invoiceLines| == |t.invoiceLines| + |lines.value| && t.invoiceLines <= u.invoiceLines
    && forall k | 0 <= k < |lines.value| ::
         InvoiceLineWritten(rt, lines.value[k], u.invoiceLines[|t.invoiceLines| + k], c.tenant, id.value)
  }

  /** A shift with the role, day and headcount of the payload. */
  predicate ShiftSays(rt: Runtime, payload: Payload, tenant: string, shift: Shift) {
    && shift.tenant == tenant && shift.role == rt.show(Get(payload, "role"))
    && rt.integer(Get(payload, "day_of_week")) == Some(shift.day)
    && rt.integer(Get(payload, "headcount")) == Some(shift.headcount)
  }

  /** One shift of the tenant is as the payload says; the only one of its role and day, unless it was named. */
  ghost predicate WritesShift(rt: Runtime, t: Tables, u: Tables, c: Call) {
    exists k | k in u.shifts ::
      && u == t.(shifts := t.shifts[k := u.shifts[k]]) && ShiftSays(rt, c.payload, c.tenant, u.shifts[k])
      && (k in t.shifts ==> t.shifts[k].tenant == c.tenant)
      && (Falsy(rt, Get(c.payload, "staff_shift_id"))
          ==> Matching(u, c.tenant, u.shifts[k].role, u.shifts[k].day) == {k})
  }

  /** What an accepted call leaves in the tables: these rows, and every other row as it was. */
  ghost predicate Writes(rt: Runtime, t: Tables, u: Tables, c: Call)
    requires Acceptable(rt, t, c)
  {
    match c.kind
    case SupplierPriceChange =>
      var id, p := Get(c.payload, "supplier_sku_id").text, Figure(rt, c.payload, "new_price").value;
      var i := t.skus[id].ingredient;
      u == t.(ingredients := t.ingredients[i := t.ingredients[i].(price := Cents(p))],
              prices := t.prices + [PriceRow(c.tenant, id, Cents(p), c.time)])
    case SupplierSwitch =>
      var i, s := Get(c.payload, "ingredient_id").text, Get(c.payload, "new_supplier_id").text;
      u == t.(ingredients := t.ingredients[i := t.ingredients[i].(supplier := Some(s))])
    case Stockout => u == AtLevel(t, c, 0.0)
    case Restock => u == AtLevel(t, c, Figure(rt, c.payload, "new_stock_level").value)
    case InventoryAdjustment =>
      u == AtLevel(t, c, Named(rt, c.payload, Stock(t, c.tenant, Get(c.payload, "ingredient_id").text)).value)
    case WasteRecorded =>
      var id, q := Get(c.payload, "ingredient_id").text, Figure(rt, c.payload, "quantity").value;
      u == AtLevel(t, c, Stock(t, c.tenant, id) - q).(
             waste := t.waste + [WasteRow(c.tenant, id, TenThousandths(q), rt.show(Get(c.payload, "reason")), c.time)])
    case MenuItemAdded =>
      var id, p := Get(c.payload, "menu_item_id").text, Figure(rt, c.payload, "current_price").value;
      u == t.(menu := t.menu[id := MenuItem(c.tenant, rt.show(Get(c.payload, "name")), Cents(p),
                                            Get(c.payload, "active") != Bool(false))])
    case MenuItemRemoved =>
      var id := Get(c.payload, "menu_item_id").text;
      u == t.(menu := t.menu[id := t.menu[id].(active := false)])
    case MenuPriceChange =>
      var id, p := Get(c.payload, "menu_item_id").text, Figure(rt, c.payload, "new_price").value;
      u == t.(menu := t.menu[id := t.menu[id].(price := Cents(p))])
    case OrderRecorded => WritesOrder(rt, t, u, c)
    case InvoiceRecorded => WritesInvoice(rt, t, u, c)
    case StaffingChange => WritesShift(rt, t, u, c)
    case DemandSpike => u == t
  }

  /** Both places that keep the level of the call's ingredient show this one, to four decimals. */
  function AtLevel(t: Tables, c: Call, level: real): (u: Tables)
    requires NamesIngredient(t, c.tenant, Get(c.payload, "ingredient_id"))
    ensures u == t.(inventory := u.inventory, ingredients := u.ingredients)
  {
    var id := Get(c.payload, "ingredient_id").text;
    t.(inventory := t.inventory[Shelf(c.tenant, id) := TenThousandths(level)],
       ingredients := t.ingredients[id := t.ingredients[id].(stock := TenThousandths(level))])
  }

  // ---------------------------------------------------------------- handler by handler

  /** A handler that accepts what it should, and writes what it should. */
  ghost predicate Meets(rt: Runtime, t: Tables, c: Call, r: Result<Tables, Error>) {
    (r.Success? <==> Acceptable(rt, t, c)) && (r.Success? ==> Writes(rt, t, r.value, c))
  }

  lemma SupplierMeets(rt: Runtime, t: Tables, c: Call)
    ensures c.kind.SupplierPriceChange? ==> Meets(rt, t, c, ApplySupplierPriceChange(rt, t, EntryOf(c)))
    ensures c.kind.SupplierSwitch? ==> Meets(rt, t, c, ApplySupplierSwitch(t, EntryOf(c)))
  {
    hide WritesOrder, WritesInvoice, WritesShift, AcceptsOrder, AcceptsInvoice, AcceptsStaffing, Cents;
  }

  lemma StockoutMeets(rt: Runtime, t: Tables, c: Call)
    ensures c.kind.Stockout? ==> Meets(rt, t, c, ApplyStockout(t, EntryOf(c)))
    ensures c.kind.Restock? ==> Meets(rt, t, c, ApplyRestock(rt, t, EntryOf(c)))
  {
    NothingIsNothing();
    hide WritesOrder, WritesInvoice, WritesShift, AcceptsOrder, AcceptsInvoice, AcceptsStaffing, TenThousandths;
  }

  lemma AdjustmentMeets(rt: Runtime, t: Tables, c: Call)
    requires c.kind.InventoryAdjustment?
    ensures Meets(rt, t, c, ApplyInventoryAdjustment(rt, t, EntryOf(c)))
  {
    hide WritesOrder, WritesInvoice, WritesShift, AcceptsOrder, AcceptsInvoice, AcceptsStaffing, TenThousandths;
  }

  lemma WasteMeets(rt: Runtime, t: Tables, c: Call)
    requires c.kind.WasteRecorded?
    ensures Meets(rt, t, c, ApplyWaste(rt, t, EntryOf(c)))
  {
    hide WritesOrder, WritesInvoice, WritesShift, AcceptsOrder, AcceptsInvoice, AcceptsStaffing, TenThousandths;
  }

  lemma MenuMeets(rt: Runtime, t: Tables, c: Call)
    ensures c.kind.MenuItemRemoved? ==> Meets(rt, t, c, ApplyMenuItemRemoved(t, EntryOf(c)))
    ensures c.kind.MenuPriceChange? ==> Meets(rt, t, c, ApplyMenuPriceChange(rt, t, EntryOf(c)))
  {
    hide WritesOrder, WritesInvoice, WritesShift, AcceptsOrder, AcceptsInvoice, AcceptsStaffing, Cents;
  }

  lemma AdditionMeets(rt: Runtime, t: Tables, c: Call)
    requires c.kind.MenuItemAdded?
    ensures Meets(rt, t, c, ApplyMenuItemAdded(rt, t, EntryOf(c)))
  {
    hide WritesOrder, WritesInvoice, WritesShift, AcceptsOrder, AcceptsInvoice, AcceptsStaffing, Cents;
  }

  lemma OrderLineIff(rt: Runtime, t: Tables, e: Entry, order: string, line: Json)
    ensures GoodOrderLine(rt, t, e.tenant, line) <==> TakesOrderLine(rt, t, e.tenant, line)
    ensures GoodOrderLine(rt, t, e.tenant, line) ==>
              var row := OrderRow(rt, e.tenant, order, line);
              row.tenant == e.tenant && row.order == order
              && OrderLineSays(rt, line, row.item, row.quantity, row.unitPrice)
  {
    hide Cents;
  }

  lemma OrderLinesMeet(rt: Runtime, t: Tables, begun: Tables, e: Entry, order: string, lines: seq<Json>)
    requires begun.menu == t.menu
    ensures ApplyOrderLines(rt, begun, e, order, lines).Success?
            <==> forall k | 0 <= k < |lines| :: TakesOrderLine(rt, t, e.tenant, lines[k])
    ensures ApplyOrderLines(rt, begun, e, order, lines).Success? ==>
              var u := ApplyOrderLines(rt, begun, e, order, lines).value;
              && u == begun.(orderLines := u.orderLines, volumes := u.volumes)
              && |u.orderLines| == |begun.orderLines| + |lines| && begun.orderLines <= u.orderLines
              && |u.volumes| == |begun.volumes| + |lines| && begun.volumes <= u.volumes
              && forall k | 0 <= k < |lines| ::
                   OrderLineWritten(rt, lines[k], u.orderLines[|begun.orderLines| + k],
                                    u.volumes[|begun.volumes| + k], e.tenant, order, e.time)
  {
    OrderIsItsLines(rt, begun, e, order, lines);
    hide ApplyOrderLines, TakesOrderLine, OrderLineSays, ShapedOrderLine, OwnItem, OrderRow;
    forall k | 0 <= k < |lines|
      ensures GoodOrderLine(rt, begun, e.tenant, lines[k]) <==> TakesOrderLine(rt, t, e.tenant, lines[k])
    {
      OrderLineIff(rt, t, e, order, lines[k]);
      MenuDecides(rt, t, begun, e.tenant, lines[k]);
    }
    if ApplyOrderLines(rt, begun, e, order, lines).Success? {
      var u := ApplyOrderLines(rt, begun, e, order, lines).value;
      forall k | 0 <= k < |lines|
        ensures OrderLineWritten(rt, lines[k], u.orderLines[|begun.orderLines| + k], u.volumes[|begun.volumes| + k],
                                 e.tenant, order, e.time)
      {
        assert GoodOrderLine(rt, begun, e.tenant, lines[k]);
        OrderLineIff(rt, begun, e, order, lines[k]);
        assert u.orderLines[|begun.orderLines| + k] == OrderRow(rt, e.tenant, order, lines[k]);
      }
    }
  }

  lemma OrderUnfolds(rt: Runtime, t: Tables, c: Call)
    ensures var lines, id, r := Get(c.payload, "lines"), OrderIdOf(rt, c), ApplyOrderRecorded(rt, t, EntryOf(c));
            if lines.Arr? && lines.items != [] && id.Some? && id.value !in t.orders
            then r == ApplyOrderLines(rt, t.(orders := t.orders[id.value := Order(c.tenant, c.time)]), EntryOf(c),
                                      id.value, lines.items)
            else r.Failure?
  {
    hide ApplyOrderLines, Falsy;
  }

  lemma OrderMeets(rt: Runtime, t: Tables, c: Call)
    requires c.kind.OrderRecorded?
    ensures Meets(rt, t, c, ApplyOrderRecorded(rt, t, EntryOf(c)))
  {
    var lines, id := Get(c.payload, "lines"), OrderIdOf(rt, c);
    OrderUnfolds(rt, t, c);
    hide TakesOrderLine, OrderLineWritten, ApplyOrderLines, ApplyOrderRecorded, OrderIdOf;
    if lines.Arr? && id.Some? {
      var begun := t.(orders := t.orders[id.value := Order(c.tenant, c.time)]);
      OrderLinesMeet(rt, t, begun, EntryOf(c), id.value, lines.items);
    }
  }

  lemma InvoiceLineIff(rt: Runtime, t: Tables, e: Entry, invoice: string, supplier: string, line: Json)
    ensures GoodInvoiceLine(rt, t, e.tenant, supplier, line) <==> TakesInvoiceLine(rt, t, e.tenant, supplier, line)
    ensures GoodInvoiceLine(rt, t, e.tenant, supplier, line) ==>
              var row := InvoiceRow(rt, e.tenant, invoice, line);
              row.tenant == e.tenant && row.invoice == invoice
              && InvoiceLineSays(rt, line, row.sku, row.quantity, row.unitPrice)
  {
    hide Cents, TenThousandths;
  }

  lemma InvoiceLinesMeet(rt: Runtime, t: Tables, begun: Tables, e: Entry, invoice: string, supplier: string,
                         lines: seq<Json>)
    requires begun.skus == t.skus
    ensures ApplyInvoiceLines(rt, begun, e, invoice, supplier, lines).Success?
            <==> forall k | 0 <= k < |lines| :: TakesInvoiceLine(rt, t, e.tenant, supplier, lines[k])
    ensures ApplyInvoiceLines(rt, begun, e, invoice, supplier, lines).Success? ==>
              var u := ApplyInvoiceLines(rt, begun, e, invoice, supplier, lines).value;
              && u == begun.(invoiceLines := u.invoiceLines)
              && |u.invoiceLines| == |begun.invoiceLines| + |lines| && begun.invoiceLines <= u.invoiceLines
              && forall k | 0 <= k < |lines| ::
                   InvoiceLineWritten(rt, lines[k], u.invoiceLines[|begun.invoiceLines| + k], e.tenant, invoice)
  {
    InvoiceIsItsLines(rt, begun, e, invoice, supplier, lines);
    hide ApplyInvoiceLines, TakesInvoiceLine, InvoiceLineSays, ShapedInvoiceLine, OwnSku, InvoiceRow;
    forall k | 0 <= k < |lines|
      ensures GoodInvoiceLine(rt, begun, e.tenant, supplier, lines[k])
              <==> TakesInvoiceLine(rt, t, e.tenant, supplier, lines[k])
    {
      InvoiceLineIff(rt, t, e, invoice, supplier, lines[k]);
      SkusDecide(rt, t, begun, e.tenant, supplier, lines[k]);
    }
    if ApplyInvoiceLines(rt, begun, e, invoice, supplier, lines).Success? {
      var u := ApplyInvoiceLines(rt, begun, e, invoice, supplier, lines).value;
      forall k | 0 <= k < |lines|
        ensures InvoiceLineWritten(rt, lines[k], u.invoiceLines[|begun.invoiceLines| + k], e.tenant, invoice)
      {
        assert GoodInvoiceLine(rt, begun, e.tenant, supplier, lines[k]);
        InvoiceLineIff(rt, begun, e, invoice, supplier, lines[k]);
        assert u.invoiceLines[|begun.invoiceLines| + k] == InvoiceRow(rt, e.tenant, invoice, lines[k]);
      }
    }
  }

  /** The header row is there exactly when the header's own conditions are met. */
  lemma HeaderMeets(rt: Runtime, t: Tables, c: Call)
    ensures var supplier, number, id := Get(c.payload, "supplier_id"), Get(c.payload, "invoice_number"), InvoiceIdOf(c);
            var total, header := TotalOf(rt, c.payload), InvoiceHeader(rt, t, EntryOf(c));
            && (header.Success? <==>
                  && NamesSupplier(t, c.tenant, supplier) && !number.Null? && total.Some? && total.value >= 0.0
                  && Cents(total.value) < 10000000000.0 && id.Some? && id.value !in t.invoices
                  && (forall k | k in t.invoices && t.invoices[k].tenant == c.tenant ::
                        t.invoices[k].number != rt.show(number)))
            && (header.Success? ==>
                  Some(header.value.0) == id && InvoiceSays(rt, c.payload, c.tenant, c.time, header.value.1))
  {
    hide Cents;
  }

  lemma InvoiceUnfolds(rt: Runtime, t: Tables, c: Call)
    ensures var header, lines, r := InvoiceHeader(rt, t, EntryOf(c)), LinesOf(c.payload),
                                    ApplyInvoiceRecorded(rt, t, EntryOf(c));
            if header.Success? && lines.Some?
            then r == ApplyInvoiceLines(rt, t.(invoices := t.invoices[header.value.0 := header.value.1]), EntryOf(c),
                                        header.value.0, header.value.1.supplier, lines.value)
            else r.Failure?
  {
    hide ApplyInvoiceLines, InvoiceHeader;
  }

  lemma InvoiceMeets(rt: Runtime, t: Tables, c: Call)
    requires c.kind.InvoiceRecorded?
    ensures Meets(rt, t, c, ApplyInvoiceRecorded(rt, t, EntryOf(c)))
  {
    var header, lines := InvoiceHeader(rt, t, EntryOf(c)), LinesOf(c.payload);
    HeaderMeets(rt, t, c);
    InvoiceUnfolds(rt, t, c);
    hide TakesInvoiceLine, InvoiceLineWritten, ApplyInvoiceLines, InvoiceHeader, ApplyInvoiceRecorded, TotalOf, Cents,
         LinesOf, InvoiceIdOf;
    if header.Success? && lines.Some? {
      var begun := t.(invoices := t.invoices[header.value.0 := header.value.1]);
      assert header.value.1.supplier == Get(c.payload, "supplier_id").text;
      InvoiceLinesMeet(rt, t, begun, EntryOf(c), header.value.0, header.value.1.supplier, lines.value);
    }
  }

  lemma StaffingMeets(rt: Runtime, t: Tables, c: Call)
    requires c.kind.StaffingChange?
    ensures Meets(rt, t, c, ApplyStaffingChange(rt, t, EntryOf(c)))
  {
    StaffingIsAcceptedIff(rt, t, EntryOf(c));
    hide ApplyStaffingChange, SpeaksOfOneShift, Falsy, Matching;
    if ApplyStaffingChange(rt, t, EntryOf(c)).Success? { StaffingIsWritten(rt, t, c); }
  }

  lemma StaffingIsWritten(rt: Runtime, t: Tables, c: Call)
    requires ApplyStaffingChange(rt, t, EntryOf(c)).Success?
    ensures WritesShift(rt, t, ApplyStaffingChange(rt, t, EntryOf(c)).value, c)
  {
    var e, role := EntryOf(c), rt.show(Get(c.payload, "role"));
    var k := StaffingWrites(rt, t, e);
    var u := ApplyStaffingChange(rt, t, e).value;
    hide ApplyStaffingChange, Falsy, ShiftId, Matching;
    if Falsy(rt, Get(c.payload, "staff_shift_id")) {
      OnlyMatch(rt, t, e, role, rt.integer(Get(c.payload, "day_of_week")).value, u, k);
    }
    assert k in u.shifts;
  }

  /** Every handler accepts what it should and writes what it should. */
  lemma HandlersMeet(rt: Runtime, t: Tables, c: Call)
    ensures Meets(rt, t, c, Apply(rt, t, c.kind, EntryOf(c)))
  {
    hide Meets, ApplySupplierPriceChange, ApplySupplierSwitch, ApplyStockout, ApplyRestock, ApplyInventoryAdjustment,
         ApplyWaste, ApplyMenuItemAdded, ApplyMenuItemRemoved, ApplyMenuPriceChange, ApplyOrderRecorded,
         ApplyInvoiceRecorded, ApplyStaffingChange;
    match c.kind
    case SupplierPriceChange => SupplierMeets(rt, t, c);
    case SupplierSwitch => SupplierMeets(rt, t, c);
    case Stockout => StockoutMeets(rt, t, c);
    case Restock => StockoutMeets(rt, t, c);
    case InventoryAdjustment => AdjustmentMeets(rt, t, c);
    case WasteRecorded => WasteMeets(rt, t, c);
    case MenuItemAdded => AdditionMeets(rt, t, c);
    case MenuItemRemoved => MenuMeets(rt, t, c);
    case MenuPriceChange => MenuMeets(rt, t, c);
    case OrderRecorded => OrderMeets(rt, t, c);
    case InvoiceRecorded => InvoiceMeets(rt, t, c);
    case StaffingChange => StaffingMeets(rt, t, c);
    case DemandSpike => SpikeMeets(rt, t, c);
  }

  lemma SpikeMeets(rt: Runtime, t: Tables, c: Call)
    requires c.kind.DemandSpike?
    ensures Meets(rt, t, c, Success(t))
  {
  }

  // ---------------------------------------------------------------- the call

  /** A call is accepted exactly when it is admitted and its payload is acceptable. */
  lemma AcceptedIff(env: Env, s: Store, c: Call)
    ensures Append(env, s, c).Success? <==> Admitted(s, c) && Acceptable(env.rt, s.tables, c)
  {
    HandlersMeet(env.rt, s.tables, c);
    hide Apply, Acceptable, Writes, Strip;
  }

  /** The log after a call: one more event, which says what the call said. */
  ghost predicate Logged(before: seq<Event>, after: seq<Event>, c: Call) {
    exists e :: && multiset(after) == multiset(before) + multiset{e}
                && e.kind == c.kind && e.payload == c.payload && e.time == c.time && e.id == c.id
                && e.source == Strip(c.source)
  }

  lemma AppendLogs(env: Env, s: Store, c: Call)
    requires Append(env, s, c).Success?
    ensures var u := After(env, s, c);
            && Logged(LogOf(s, c.tenant), LogOf(u, c.tenant), c)
            && (forall other | other != c.tenant :: LogOf(u, other) == LogOf(s, other))
            && u.ids == s.ids + {c.id} && u.tenants == s.tenants
  {
    var e := Recorded(env, s, c);
    InsertAdds(LogOf(s, c.tenant), e);
    hide Apply, Strip, Insert;
    assert LogOf(After(env, s, c), c.tenant) == Insert(LogOf(s, c.tenant), e);
    assert e.kind == c.kind && e.payload == c.payload && e.source == Strip(c.source);
  }

  /** An accepted call writes the rows it asks for, and its event; a refused one changes nothing. */
  lemma AppendWrites(env: Env, s: Store, c: Call)
    ensures var u := After(env, s, c);
            if Append(env, s, c).Success? then
              && Acceptable(env.rt, s.tables, c) && Writes(env.rt, s.tables, u.tables, c)
              && Logged(LogOf(s, c.tenant), LogOf(u, c.tenant), c)
              && (forall other | other != c.tenant :: LogOf(u, other) == LogOf(s, other))
              && u.ids == s.ids + {c.id} && u.tenants == s.tenants
            else u == s
  {
    HandlersMeet(env.rt, s.tables, c);
    if Append(env, s, c).Success? { AppendLogs(env, s, c); }
    hide Apply, Acceptable, Writes, Strip, Insert, Logged, LogOf;
  }

  lemma InsertAdds(log: seq<Event>, e: Event)
    ensures multiset(Insert(log, e)) == multiset(log) + multiset{e}
  {
    var p := Position(log, e);
    assert log == log[..p] + log[p..];
  }

  // ---------------------------------------------------------------- reading order

  /** A tenant's log is read by time stamp and id, and its ids are taken. */
  predicate ReadInOrder(s: Store, tenant: string) {
    InOrder(LogOf(s, tenant)) && forall i | 0 <= i < |LogOf(s, tenant)| :: LogOf(s, tenant)[i].id in s.ids
  }

  lemma AppendKeepsReadingOrder(env: Env, s: Store, c: Call, tenant: string)
    requires ReadInOrder(s, tenant)
    ensures ReadInOrder(After(env, s, c), tenant)
  {
    hide Apply;
    if Append(env, s, c).Success? && c.tenant == tenant {
      var log, e := LogOf(s, tenant), Recorded(env, s, c);
      assert After(env, s, c).ids == s.ids + {c.id};
      assert e.id == c.id;
      InsertKeepsOrder(log, e);
      hide InOrder;
      var after := LogOf(After(env, s, c), tenant);
      forall i | 0 <= i < |after| ensures after[i].id in s.ids + {c.id} {
        InsertAdds(log, e);
        assert after[i] in multiset(after);
        if after[i] != e { assert after[i] in log; }
      }
    }
  }

  /** Whatever clocks and ids the calls meet, every run leaves every log in reading order. */
  lemma {:induction false} LogsStayInOrder(env: Env, seed: Store, calls: seq<Call>, tenant: string)
    requires ReadInOrder(seed, tenant)
    ensures ReadInOrder(Run(env, seed, calls), tenant)
  {
    hide After, ReadInOrder;
    if calls != [] {
      LogsStayInOrder(env, seed, calls[..|calls| - 1], tenant);
      AppendKeepsReadingOrder(env, Run(env, seed, calls[..|calls| - 1]), calls[|calls| - 1], tenant);
    }
  }

  // ---------------------------------------------------------------- which tables a kind writes

  lemma ListWrites(rt: Runtime, t: Tables, u: Tables, c: Call)
    requires Acceptable(rt, t, c) && Writes(rt, t, u, c)
    ensures c.kind.OrderRecorded? ==> WritesOrder(rt, t, u, c)
    ensures c.kind.InvoiceRecorded? ==> WritesInvoice(rt, t, u, c)
    ensures c.kind.StaffingChange? ==> WritesShift(rt, t, u, c)
  {
    hide Acceptable, WritesOrder, WritesInvoice, WritesShift, AtLevel, Named, Figure, Stock, Cents, TenThousandths, Get;
  }

  /** Orders, invoices and shifts are as they were. */
  predicate SameLists(t: Tables, u: Tables) {
    && u.invoices == t.invoices && u.invoiceLines == t.invoiceLines && u.shifts == t.shifts
    && u.orders == t.orders && u.orderLines == t.orderLines && u.volumes == t.volumes
  }

  lemma LevelWrites(rt: Runtime, t: Tables, u: Tables, c: Call)
    requires Acceptable(rt, t, c) && Writes(rt, t, u, c)
    requires c.kind.Stockout? || c.kind.Restock? || c.kind.InventoryAdjustment?
    ensures SameLists(t, u)
  {
    hide Acceptable, AtLevel, WritesOrder, WritesInvoice, WritesShift, Named, Figure, Stock, Cents, TenThousandths, Get;
  }

  lemma WasteWrites(rt: Runtime, t: Tables, u: Tables, c: Call)
    requires Acceptable(rt, t, c) && Writes(rt, t, u, c) && c.kind.WasteRecorded?
    ensures SameLists(t, u)
  {
    hide Acceptable, AtLevel, WritesOrder, WritesInvoice, WritesShift, Named, Figure, Stock, Cents, TenThousandths, Get;
  }

  lemma MenuWrites(rt: Runtime, t: Tables, u: Tables, c: Call)
    requires Acceptable(rt, t, c) && Writes(rt, t, u, c)
    requires c.kind.MenuItemAdded? || c.kind.MenuItemRemoved? || c.kind.MenuPriceChange? || c.kind.DemandSpike?
    ensures SameLists(t, u)
  {
    hide Acceptable, AtLevel, WritesOrder, WritesInvoice, WritesShift, Named, Figure, Stock, Cents, TenThousandths, Get;
  }

  lemma SupplierWrites(rt: Runtime, t: Tables, u: Tables, c: Call)
    requires Acceptable(rt, t, c) && Writes(rt, t, u, c) && (c.kind.SupplierPriceChange? || c.kind.SupplierSwitch?)
    ensures SameLists(t, u)
  {
    hide Acceptable, AtLevel, WritesOrder, WritesInvoice, WritesShift, Named, Figure, Stock, Cents, TenThousandths, Get;
  }

  /** The other kinds leave orders, invoices and shifts alone. */
  lemma OtherWrites(rt: Runtime, t: Tables, u: Tables, c: Call)
    requires Acceptable(rt, t, c) && Writes(rt, t, u, c)
    requires !c.kind.OrderRecorded? && !c.kind.InvoiceRecorded? && !c.kind.StaffingChange?
    ensures SameLists(t, u)
  {
    hide Acceptable, Writes, SameLists;
    if c.kind.WasteRecorded? {
      WasteWrites(rt, t, u, c);
    } else if IsStockEvent(c.kind) {
      LevelWrites(rt, t, u, c);
    } else if c.kind.SupplierPriceChange? || c.kind.SupplierSwitch? {
      SupplierWrites(rt, t, u, c);
    } else {
      MenuWrites(rt, t, u, c);
    }
  }

  lemma OrderKeepsTheRest(rt: Runtime, t: Tables, u: Tables, c: Call)
    requires WritesOrder(rt, t, u, c)
    ensures u.invoices == t.invoices && u.invoiceLines == t.invoiceLines && u.shifts == t.shifts
  {
    hide OrderLineWritten, OrderIdOf;
  }

  lemma ShiftKeepsTheRest(rt: Runtime, t: Tables, u: Tables, c: Call)
    requires WritesShift(rt, t, u, c)
    ensures u.invoices == t.invoices && u.invoiceLines == t.invoiceLines
    ensures exists k | k in u.shifts ::
              u.shifts == t.shifts[k := u.shifts[k]] && ShiftSays(rt, c.payload, c.tenant, u.shifts[k])
              && (k in t.shifts ==> t.shifts[k].tenant == c.tenant)
  {
    hide ShiftSays, Falsy, Matching;
  }

  lemma InvoiceKeepsTheRest(rt: Runtime, t: Tables, u: Tables, c: Call)
    requires WritesInvoice(rt, t, u, c)
    ensures u.shifts == t.shifts
    ensures var id := InvoiceIdOf(c);
            && id.Some? && id.value !in t.invoices && id.value in u.invoices
            && u.invoices == t.invoices[id.value := u.invoices[id.value]]
            && InvoiceSays(rt, c.payload, c.tenant, c.time, u.invoices[id.value])
  {
    hide InvoiceLineWritten, InvoiceSays, InvoiceIdOf, LinesOf;
  }

  /** Of invoices, invoice lines and shifts a call writes only what its kind is for. */
  lemma KindsWriteTheirOwn(rt: Runtime, t: Tables, u: Tables, c: Call)
    requires Acceptable(rt, t, c) && Writes(rt, t, u, c)
    ensures !c.kind.InvoiceRecorded? ==> u.invoices == t.invoices && u.invoiceLines == t.invoiceLines
    ensures !c.kind.StaffingChange? ==> u.shifts == t.shifts
  {
    ListWrites(rt, t, u, c);
    if c.kind.OrderRecorded? {
      OrderKeepsTheRest(rt, t, u, c);
    } else if c.kind.InvoiceRecorded? {
      InvoiceKeepsTheRest(rt, t, u, c);
    } else if c.kind.StaffingChange? {
      ShiftKeepsTheRest(rt, t, u, c);
    } else {
      OtherWrites(rt, t, u, c);
    }
    hide Acceptable, Writes, WritesOrder, WritesInvoice, WritesShift;
  }
}
