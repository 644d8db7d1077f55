/**
  What the handlers owe the schema: every accepted event leaves all foreign keys, checks and
  unique constraints of the tables satisfied, and an order or invoice is written line by line
  exactly as its payload lists it, or not at all.
 */
module EventIntegrity {
  import opened Wrappers
  import opened Json
  import opened HashChain
  import opened Columns
  import opened EventTables
  import opened EventReplay
  import opened EventIsolation
  import opened EventRuns

  // ---------------------------------------------------------------- constraints

  predicate SkusOk(t: Tables) {
    forall k | k in t.skus ::
      && t.skus[k].supplier in t.suppliers && t.suppliers[t.skus[k].supplier] == t.skus[k].tenant
      && t.skus[k].ingredient in t.ingredients && t.ingredients[t.skus[k].ingredient].tenant == t.skus[k].tenant
  }

  predicate IngredientsOk(t: Tables) {
    forall k | k in t.ingredients ::
      && t.ingredients[k].price >= 0.0 && t.ingredients[k].stock >= 0.0
      && (t.ingredients[k].supplier.Some? ==>
            t.ingredients[k].supplier.value in t.suppliers
            && t.suppliers[t.ingredients[k].supplier.value] == t.ingredients[k].tenant)
  }

  /** An inventory row stands on an ingredient of its tenant; its key makes it the only one. */
  predicate ShelvesOk(t: Tables) {
    forall s | s in t.inventory ::
      && s.ingredient in t.ingredients && t.ingredients[s.ingredient].tenant == s.tenant
      && t.inventory[s] >= 0.0
  }

  predicate MenuOk(t: Tables) { forall k | k in t.menu :: t.menu[k].price >= 0.0 }

  predicate OwnSku(t: Tables, sku: string, tenant: string) { sku in t.skus && t.skus[sku].tenant == tenant }

  predicate OwnItem(t: Tables, item: string, tenant: string) { item in t.menu && t.menu[item].tenant == tenant }

  predicate PriceOk(t: Tables, r: PriceRow) { OwnSku(t, r.sku, r.tenant) && r.price >= 0.0 }

  predicate WasteOk(t: Tables, r: WasteRow) {
    r.ingredient in t.ingredients && t.ingredients[r.ingredient].tenant == r.tenant && r.quantity > 0.0
  }

  predicate OrderLineOk(t: Tables, r: OrderLine) {
    && r.order in t.orders && t.orders[r.order].tenant == r.tenant && OwnItem(t, r.item, r.tenant)
    && 0 < r.quantity <= MAX_INTEGER && r.unitPrice >= 0.0
  }

  predicate VolumeOk(t: Tables, r: Volume) { OwnItem(t, r.item, r.tenant) && 0 < r.quantity <= MAX_INTEGER }

  predicate InvoiceOk(t: Tables, r: Invoice) {
    r.supplier in t.suppliers && t.suppliers[r.supplier] == r.tenant && r.total >= 0.0
  }

  /** An invoice line stands on its tenant's invoice, and its SKU is sold by the invoiced supplier. */
  predicate InvoiceLineOk(t: Tables, r: InvoiceLine) {
    && r.invoice in t.invoices && t.invoices[r.invoice].tenant == r.tenant && OwnSku(t, r.sku, r.tenant)
    && t.skus[r.sku].supplier == t.invoices[r.invoice].supplier
    && r.quantity > 0.0 && r.unitPrice >= 0.0
  }

  predicate ShiftOk(r: Shift) { 0 <= r.day <= 6 && 0 <= r.headcount <= MAX_INTEGER }

  predicate NumbersUnique(t: Tables) {
    forall a, b | a in t.invoices && b in t.invoices ::
      t.invoices[a].tenant == t.invoices[b].tenant && t.invoices[a].number == t.invoices[b].number ==> a == b
  }

  predicate CurrentOk(t: Tables) {
    SkusOk(t) && IngredientsOk(t) && ShelvesOk(t) && MenuOk(t) && forall k | k in t.shifts :: ShiftOk(t.shifts[k])
  }

  predicate HistoryOk(t: Tables) {
    && (forall r | r in t.prices :: PriceOk(t, r))
    && (forall r | r in t.waste :: WasteOk(t, r))
    && (forall r | r in t.orderLines :: OrderLineOk(t, r))
    && (forall r | r in t.volumes :: VolumeOk(t, r))
  }

  predicate InvoicesOk(t: Tables) {
    && NumbersUnique(t)
    && (forall k | k in t.invoices :: InvoiceOk(t, t.invoices[k]))
    && (forall r | r in t.invoiceLines :: InvoiceLineOk(t, r))
  }

  /** Every foreign key, check and unique constraint the schema declares on the modelled columns. */
  predicate Intact(t: Tables) { CurrentOk(t) && HistoryOk(t) && InvoicesOk(t) }

  /** Rows other rows point at are never taken away and never change hands. */
  ghost predicate KeepsParents(t: Tables, u: Tables) {
    && u.suppliers == t.suppliers && u.skus == t.skus
    && (forall k | k in t.ingredients :: k in u.ingredients && u.ingredients[k].tenant == t.ingredients[k].tenant)
    && (forall k | k in t.menu :: k in u.menu && u.menu[k].tenant == t.menu[k].tenant)
    && (forall k | k in t.orders :: k in u.orders && u.orders[k] == t.orders[k])
    && (forall k | k in t.invoices :: k in u.invoices && u.invoices[k] == t.invoices[k])
  }

  lemma ChildrenStay(t: Tables, u: Tables)
    requires KeepsParents(t, u)
    ensures forall r :: PriceOk(t, r) ==> PriceOk(u, r)
    ensures forall r :: WasteOk(t, r) ==> WasteOk(u, r)
    ensures forall r :: OrderLineOk(t, r) ==> OrderLineOk(u, r)
    ensures forall r :: VolumeOk(t, r) ==> VolumeOk(u, r)
    ensures forall r :: InvoiceLineOk(t, r) ==> InvoiceLineOk(u, r)
  {
  }

  /** New rows that meet their constraints, beside old rows whose parents all stay. */
  ghost predicate SoundGrowth(t: Tables, u: Tables) {
    && KeepsParents(t, u)
    && (forall r | r in u.prices :: r in t.prices || PriceOk(u, r))
    && (forall r | r in u.waste :: r in t.waste || WasteOk(u, r))
    && (forall r | r in u.orderLines :: r in t.orderLines || OrderLineOk(u, r))
    && (forall r | r in u.volumes :: r in t.volumes || VolumeOk(u, r))
    && (forall r | r in u.invoiceLines :: r in t.invoiceLines || InvoiceLineOk(u, r))
    && (forall k | k in u.invoices :: k in t.invoices || InvoiceOk(u, u.invoices[k]))
  }

  lemma GrowthIntact(t: Tables, u: Tables)
    requires Intact(t) && SoundGrowth(t, u) && CurrentOk(u) && NumbersUnique(u)
    ensures Intact(u)
  {
    ChildrenStay(t, u);
    hide PriceOk, WasteOk, OrderLineOk, VolumeOk, InvoiceLineOk, CurrentOk, NumbersUnique;
  }

  lemma StockIntact(rt: Runtime, t: Tables, u: Tables, kind: EventType, e: Entry)
    requires Intact(t) && IsStockEvent(kind) && Apply(rt, t, kind, e) == Success(u)
    ensures Intact(u)
  {
    WasteRowIsOk(rt, t, u, kind, e);
    hide Apply;
    var id, quantity := StockShape(rt, t, u, kind, e);
    LevelKeepsParents(t, u, e.tenant, id, quantity);
    hide PriceOk, OrderLineOk, VolumeOk, InvoiceLineOk, NumbersUnique, CurrentOk, KeepsParents;
    GrowthIntact(t, u);
  }

  lemma LevelKeepsParents(t: Tables, u: Tables, tenant: string, id: string, quantity: real)
    requires CurrentOk(t) && id in t.ingredients && t.ingredients[id].tenant == tenant && quantity >= 0.0
    requires u == SetStock(t, tenant, id, quantity).(waste := u.waste)
    ensures KeepsParents(t, u) && CurrentOk(u)
  {
  }

  lemma WasteRowIsOk(rt: Runtime, t: Tables, u: Tables, kind: EventType, e: Entry)
    requires IsStockEvent(kind) && Apply(rt, t, kind, e) == Success(u)
    ensures forall r | r in u.waste :: r in t.waste || WasteOk(t, r)
  {
  }

  lemma SupplierIntact(rt: Runtime, t: Tables, u: Tables, kind: EventType, e: Entry)
    requires Intact(t) && (kind.SupplierPriceChange? || kind.SupplierSwitch?) && Apply(rt, t, kind, e) == Success(u)
    ensures Intact(u)
  {
    SupplierShape(rt, t, u, kind, e);
    hide Apply, WasteOk, OrderLineOk, VolumeOk, InvoiceLineOk, NumbersUnique;
    GrowthIntact(t, u);
  }

  /** A supplier event rewrites one ingredient of its tenant, within its constraints. */
  lemma SupplierShape(rt: Runtime, t: Tables, u: Tables, kind: EventType, e: Entry)
    requires (kind.SupplierPriceChange? || kind.SupplierSwitch?) && Apply(rt, t, kind, e) == Success(u)
    ensures u == t.(ingredients := u.ingredients, prices := u.prices)
    ensures KeepsParents(t, u)
    ensures IngredientsOk(t) && ShelvesOk(t) ==> IngredientsOk(u) && ShelvesOk(u)
    ensures forall r | r in u.prices :: r in t.prices || PriceOk(t, r)
  {
  }

  lemma MenuIntact(rt: Runtime, t: Tables, u: Tables, kind: EventType, e: Entry)
    requires Intact(t) && (kind.MenuPriceChange? || kind.MenuItemAdded? || kind.MenuItemRemoved?)
    requires Apply(rt, t, kind, e) == Success(u)
    ensures Intact(u)
  {
    MenuShape(rt, t, u, kind, e);
    hide Apply, PriceOk, WasteOk, OrderLineOk, VolumeOk, InvoiceLineOk, NumbersUnique;
    GrowthIntact(t, u);
  }

  lemma MenuShape(rt: Runtime, t: Tables, u: Tables, kind: EventType, e: Entry)
    requires (kind.MenuPriceChange? || kind.MenuItemAdded? || kind.MenuItemRemoved?)
             && Apply(rt, t, kind, e) == Success(u)
    ensures u == t.(menu := u.menu) && KeepsParents(t, u)
    ensures MenuOk(t) ==> MenuOk(u)
  {
  }

  lemma StaffingIntact(rt: Runtime, t: Tables, u: Tables, e: Entry)
    requires Intact(t) && ApplyStaffingChange(rt, t, e) == Success(u)
    ensures Intact(u)
  {
    StaffingShape(rt, t, u, e);
    hide ApplyStaffingChange, PriceOk, WasteOk, OrderLineOk, VolumeOk, InvoiceLineOk, NumbersUnique, ShiftOk;
    GrowthIntact(t, u);
  }

  lemma StaffingShape(rt: Runtime, t: Tables, u: Tables, e: Entry)
    requires ApplyStaffingChange(rt, t, e) == Success(u)
    ensures u == t.(shifts := u.shifts)
    ensures forall k | k in u.shifts :: ShiftOk(u.shifts[k]) || (k in t.shifts && u.shifts[k] == t.shifts[k])
  {
  }

  // ---------------------------------------------------------------- order and invoice lines

  /** A line whose fields pass the order handler's checks. */
  predicate ShapedOrderLine(rt: Runtime, line: Json) {
    line.Obj? &&
    match (Required(line.fields, "menu_item_id"), Required(line.fields, "quantity"),
           Amount(rt, line.fields, "unit_price"))
    case (Success(id), Success(count), Success(unitPrice)) =>
      && id.Str? && rt.integer(count).Some? && 0 < rt.integer(count).value <= MAX_INTEGER
      && unitPrice >= 0.0 && Cents(unitPrice) < COLUMN_LIMIT
    case _ => false
  }

  /** A line the order handler accepts, on its own. */
  predicate GoodOrderLine(rt: Runtime, t: Tables, tenant: string, line: Json) {
    ShapedOrderLine(rt, line) && OwnItem(t, line.fields["menu_item_id"].text, tenant)
  }

  /** The row an accepted line becomes. */
  function OrderRow(rt: Runtime, tenant: string, order: string, line: Json): OrderLine
    requires ShapedOrderLine(rt, line)
  {
    OrderLine(tenant, order, line.fields["menu_item_id"].text, rt.integer(line.fields["quantity"]).value,
              Cents(rt.number(line.fields["unit_price"]).value))
  }

  lemma OneOrderLine(rt: Runtime, t: Tables, e: Entry, order: string, line: Json)
    ensures ApplyOrderLine(rt, t, e, order, line).Success? <==> GoodOrderLine(rt, t, e.tenant, line)
    ensures GoodOrderLine(rt, t, e.tenant, line) ==>
              var row := OrderRow(rt, e.tenant, order, line);
              ApplyOrderLine(rt, t, e, order, line)
              == Success(t.(orderLines := t.orderLines + [row],
                            volumes := t.volumes + [Volume(e.tenant, row.item, row.quantity, e.time)]))
  {
  }

  /**
    An order is accepted exactly when each of its lines is acceptable on its own, and then its
    rows are those lines in order, with one demand row of the same item and quantity each.
   */
  lemma {:induction false} OrderIsItsLines(rt: Runtime, t: Tables, e: Entry, order: string, lines: seq<Json>)
    ensures ApplyOrderLines(rt, t, e, order, lines).Success?
            <==> forall k | 0 <= k < |lines| :: GoodOrderLine(rt, t, e.tenant, lines[k])
    ensures ApplyOrderLines(rt, t, e, order, lines).Success? ==>
              var u := ApplyOrderLines(rt, t, e, order, lines).value;
              && u == t.(orderLines := u.orderLines, volumes := u.volumes)
              && |u.orderLines| == |t.orderLines| + |lines| && t.orderLines <= u.orderLines
              && |u.volumes| == |t.volumes| + |lines| && t.volumes <= u.volumes
              && forall k | 0 <= k < |lines| ::
                   && u.orderLines[|t.orderLines| + k] == OrderRow(rt, e.tenant, order, lines[k])
                   && u.volumes[|t.volumes| + k]
                      == Volume(e.tenant, u.orderLines[|t.orderLines| + k].item,
                                u.orderLines[|t.orderLines| + k].quantity, e.time)
  {
    hide ShapedOrderLine, OwnItem, OrderRow, ApplyOrderLine;
    if lines != [] {
      var fewer, last := lines[..|lines| - 1], lines[|lines| - 1];
      OrderIsItsLines(rt, t, e, order, fewer);
      if ApplyOrderLines(rt, t, e, order, fewer).Success? {
        var u := ApplyOrderLines(rt, t, e, order, fewer).value;
        OneOrderLine(rt, u, e, order, last);
        MenuDecides(rt, t, u, e.tenant, last);
      }
    }
  }

  lemma MenuDecides(rt: Runtime, t: Tables, u: Tables, tenant: string, line: Json)
    requires t.menu == u.menu
    ensures GoodOrderLine(rt, t, tenant, line) <==> GoodOrderLine(rt, u, tenant, line)
  {
  }

  /** A line whose fields pass the invoice handler's checks. */
  predicate ShapedInvoiceLine(rt: Runtime, line: Json) {
    line.Obj? &&
    match (Required(line.fields, "supplier_sku_id"), Amount(rt, line.fields, "quantity"),
           Amount(rt, line.fields, "unit_price"))
    case (Success(id), Success(quantity), Success(unitPrice)) =>
      && id.Str? && quantity > 0.0 && 0.0 < TenThousandths(quantity) < COLUMN_LIMIT
      && unitPrice >= 0.0 && Cents(unitPrice) < COLUMN_LIMIT
    case _ => false
  }

  /** A line the invoice handler accepts, on its own: the SKU must be the invoiced supplier's. */
  predicate GoodInvoiceLine(rt: Runtime, t: Tables, tenant: string, supplier: string, line: Json) {
    ShapedInvoiceLine(rt, line)
    && OwnSku(t, line.fields["supplier_sku_id"].text, tenant)
    && t.skus[line.fields["supplier_sku_id"].text].supplier == supplier
  }

  function InvoiceRow(rt: Runtime, tenant: string, invoice: string, line: Json): InvoiceLine
    requires ShapedInvoiceLine(rt, line)
  {
    InvoiceLine(tenant, invoice, line.fields["supplier_sku_id"].text,
                TenThousandths(rt.number(line.fields["quantity"]).value),
                Cents(rt.number(line.fields["unit_price"]).value))
  }

  lemma OneInvoiceLine(rt: Runtime, t: Tables, e: Entry, invoice: string, supplier: string, line: Json)
    ensures ApplyInvoiceLine(rt, t, e, invoice, supplier, line).Success?
            <==> GoodInvoiceLine(rt, t, e.tenant, supplier, line)
    ensures GoodInvoiceLine(rt, t, e.tenant, supplier, line) ==>
              ApplyInvoiceLine(rt, t, e, invoice, supplier, line)
              == Success(t.(invoiceLines := t.invoiceLines + [InvoiceRow(rt, e.tenant, invoice, line)]))
  {
  }

  /** The same for an invoice: accepted exactly when every line is, and then those lines in order. */
  lemma {:induction false} InvoiceIsItsLines(rt: Runtime, t: Tables, e: Entry, invoice: string, supplier: string,
                                             lines: seq<Json>)
    ensures ApplyInvoiceLines(rt, t, e, invoice, supplier, lines).Success?
            <==> forall k | 0 <= k < |lines| :: GoodInvoiceLine(rt, t, e.tenant, supplier, lines[k])
    ensures ApplyInvoiceLines(rt, t, e, invoice, supplier, lines).Success? ==>
              var u := ApplyInvoiceLines(rt, t, e, invoice, supplier, lines).value;
              && u == t.(invoiceLines := u.invoiceLines)
              && |u.invoiceLines| == |t.invoiceLines| + |lines| && t.invoiceLines <= u.invoiceLines
              && forall k | 0 <= k < |lines| ::
                   u.invoiceLines[|t.invoiceLines| + k] == InvoiceRow(rt, e.tenant, invoice, lines[k])
  {
    hide ShapedInvoiceLine, OwnSku, InvoiceRow, ApplyInvoiceLine;
    if lines != [] {
      var fewer, last := lines[..|lines| - 1], lines[|lines| - 1];
      InvoiceIsItsLines(rt, t, e, invoice, supplier, fewer);
      if ApplyInvoiceLines(rt, t, e, invoice, supplier, fewer).Success? {
        var u := ApplyInvoiceLines(rt, t, e, invoice, supplier, fewer).value;
        OneInvoiceLine(rt, u, e, invoice, supplier, last);
        SkusDecide(rt, t, u, e.tenant, supplier, last);
      }
    }
  }

  lemma SkusDecide(rt: Runtime, t: Tables, u: Tables, tenant: string, supplier: string, line: Json)
    requires t.skus == u.skus
    ensures GoodInvoiceLine(rt, t, tenant, supplier, line) <==> GoodInvoiceLine(rt, u, tenant, supplier, line)
  {
  }

  lemma OrderIntact(rt: Runtime, t: Tables, u: Tables, e: Entry)
    requires Intact(t) && ApplyOrderRecorded(rt, t, e) == Success(u)
    ensures Intact(u)
  {
    OrderGrows(rt, t, u, e);
    hide ApplyOrderRecorded, SoundGrowth;
    GrowthIntact(t, u);
  }

  lemma OrderGrows(rt: Runtime, t: Tables, u: Tables, e: Entry)
    requires ApplyOrderRecorded(rt, t, e) == Success(u)
    ensures u == t.(orders := u.orders, orderLines := u.orderLines, volumes := u.volumes) && SoundGrowth(t, u)
  {
    var order, lines := OrderId(rt, e).value, Get(e.payload, "lines").items;
    var begun := t.(orders := t.orders[order := Order(e.tenant, e.time)]);
    OrderLinesTouch(rt, begun, e, order, lines);
    OrderRowsAreOk(rt, t, begun, u, e, order, lines);
    hide ApplyOrderLines, OrderLineOk, VolumeOk;
  }

  lemma OrderRowsAreOk(rt: Runtime, t: Tables, begun: Tables, u: Tables, e: Entry, order: string, lines: seq<Json>)
    requires begun == t.(orders := t.orders[order := Order(e.tenant, e.time)])
    requires ApplyOrderLines(rt, begun, e, order, lines) == Success(u)
    ensures forall r | r in u.orderLines :: r in t.orderLines || OrderLineOk(u, r)
    ensures forall r | r in u.volumes :: r in t.volumes || VolumeOk(u, r)
  {
    OrderIsItsLines(rt, begun, e, order, lines);
    hide ApplyOrderLines;
    forall i | |t.orderLines| <= i < |u.orderLines|
      ensures OrderLineOk(u, u.orderLines[i]) && VolumeOk(u, u.volumes[|t.volumes| + (i - |t.orderLines|)])
    {
      var k := i - |t.orderLines|;
      assert GoodOrderLine(rt, begun, e.tenant, lines[k]);
      assert u.orderLines[|t.orderLines| + k] == OrderRow(rt, e.tenant, order, lines[k]);
    }
    forall i | |t.volumes| <= i < |u.volumes| ensures VolumeOk(u, u.volumes[i]) {
      var j := |t.orderLines| + (i - |t.volumes|);
      assert OrderLineOk(u, u.orderLines[j]);
    }
  }

  lemma InvoiceRowsAreOk(rt: Runtime, t: Tables, begun: Tables, u: Tables, e: Entry, header: (string, Invoice),
                         lines: seq<Json>)
    requires begun == t.(invoices := t.invoices[header.0 := header.1]) && header.1.tenant == e.tenant
    requires ApplyInvoiceLines(rt, begun, e, header.0, header.1.supplier, lines) == Success(u)
    ensures forall r | r in u.invoiceLines :: r in t.invoiceLines || InvoiceLineOk(u, r)
  {
    InvoiceIsItsLines(rt, begun, e, header.0, header.1.supplier, lines);
    hide ApplyInvoiceLines;
    forall i | |t.invoiceLines| <= i < |u.invoiceLines| ensures InvoiceLineOk(u, u.invoiceLines[i]) {
      var k := i - |t.invoiceLines|;
      assert GoodInvoiceLine(rt, begun, e.tenant, header.1.supplier, lines[k]);
      assert u.invoiceLines[|t.invoiceLines| + k] == InvoiceRow(rt, e.tenant, header.0, lines[k]);
    }
  }

  lemma HeaderIsOk(rt: Runtime, t: Tables, e: Entry)
    requires NumbersUnique(t) && InvoiceHeader(rt, t, e).Success?
    ensures var header := InvoiceHeader(rt, t, e).value;
            && header.0 !in t.invoices && header.1.tenant == e.tenant && InvoiceOk(t, header.1)
            && NumbersUnique(t.(invoices := t.invoices[header.0 := header.1]))
  {
    var header := InvoiceHeader(rt, t, e).value;
    assert !InvoiceNumberTaken(t, e.tenant, header.1.number);
  }

  lemma InvoiceIntact(rt: Runtime, t: Tables, u: Tables, e: Entry)
    requires Intact(t) && ApplyInvoiceRecorded(rt, t, e) == Success(u)
    ensures Intact(u)
  {
    InvoiceGrows(rt, t, u, e);
    hide ApplyInvoiceRecorded, SoundGrowth;
    GrowthIntact(t, u);
  }

  lemma InvoiceGrows(rt: Runtime, t: Tables, u: Tables, e: Entry)
    requires NumbersUnique(t) && ApplyInvoiceRecorded(rt, t, e) == Success(u)
    ensures u == t.(invoices := u.invoices, invoiceLines := u.invoiceLines) && SoundGrowth(t, u) && NumbersUnique(u)
  {
    HeaderIsOk(rt, t, e);
    var header, lines := InvoiceHeader(rt, t, e).value, InvoiceItems(e.payload).value;
    var begun := t.(invoices := t.invoices[header.0 := header.1]);
    InvoiceLinesTouch(rt, begun, e, header.0, header.1.supplier, lines);
    InvoiceRowsAreOk(rt, t, begun, u, e, header, lines);
    hide ApplyInvoiceLines, InvoiceHeader, InvoiceLineOk, NumbersUnique;
  }

  /** No accepted event violates a constraint. */
  lemma EventIntact(rt: Runtime, t: Tables, u: Tables, kind: EventType, e: Entry)
    requires Intact(t) && Apply(rt, t, kind, e) == Success(u)
    ensures Intact(u)
  {
    hide Intact;
    match kind
    case OrderRecorded => OrderIntact(rt, t, u, e);
    case InvoiceRecorded => InvoiceIntact(rt, t, u, e);
    case StaffingChange => StaffingIntact(rt, t, u, e);
    case DemandSpike =>
    case SupplierPriceChange => SupplierIntact(rt, t, u, kind, e);
    case SupplierSwitch => SupplierIntact(rt, t, u, kind, e);
    case MenuPriceChange => MenuIntact(rt, t, u, kind, e);
    case MenuItemAdded => MenuIntact(rt, t, u, kind, e);
    case MenuItemRemoved => MenuIntact(rt, t, u, kind, e);
    case _ => StockIntact(rt, t, u, kind, e);
  }

  /** In every state a run reaches from intact tables, every constraint of the schema holds. */
  lemma {:induction false} RunIntact(env: Env, seed: Store, calls: seq<Call>)
    requires Intact(seed.tables)
    ensures Intact(Run(env, seed, calls).tables)
  {
    hide Apply, Intact;
    if calls != [] {
      var before, c := calls[..|calls| - 1], calls[|calls| - 1];
      var s := Run(env, seed, before);
      RunIntact(env, seed, before);
      if Append(env, s, c).Success? {
        EventIntact(env.rt, s.tables, After(env, s, c).tables, c.kind, EntryOf(c));
      }
    }
  }
}
