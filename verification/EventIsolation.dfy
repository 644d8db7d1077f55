/**
  What one accepted event may touch: rows of its own tenant only, and rows of a history
  table are added, never changed. Stock is kept in two places that never differ.
 */
module EventIsolation {
  import opened Wrappers
  import opened Json
  import opened HashChain
  import opened EventTables
  import opened EventEffects
  import opened EventReplay

  // ---------------------------------------------------------------- foreign rows

  ghost predicate MenuKept(t: Tables, u: Tables, tenant: string) {
    forall id: string, other: string | other != tenant :: MenuRow(u, other, id) == MenuRow(t, other, id)
  }

  ghost predicate IngredientsKept(t: Tables, u: Tables, tenant: string) {
    forall id: string, other: string | other != tenant :: IngredientRow(u, other, id) == IngredientRow(t, other, id)
  }

  ghost predicate ShelvesKept(t: Tables, u: Tables, tenant: string) {
    forall s: Shelf | s.tenant != tenant ::
      (s in u.inventory <==> s in t.inventory) && (s in t.inventory ==> u.inventory[s] == t.inventory[s])
  }

  predicate OrdersKept(t: Tables, u: Tables, tenant: string) {
    && (forall k | k in t.orders :: k in u.orders && u.orders[k] == t.orders[k])
    && (forall k | k in u.orders && k !in t.orders :: u.orders[k].tenant == tenant)
  }

  predicate InvoicesKept(t: Tables, u: Tables, tenant: string) {
    && (forall k | k in t.invoices :: k in u.invoices && u.invoices[k] == t.invoices[k])
    && (forall k | k in u.invoices && k !in t.invoices :: u.invoices[k].tenant == tenant)
  }

  predicate ShiftsKept(t: Tables, u: Tables, tenant: string) {
    && (forall k | k in t.shifts && t.shifts[k].tenant != tenant :: k in u.shifts && u.shifts[k] == t.shifts[k])
    && (forall k | k in u.shifts && u.shifts[k].tenant != tenant :: k in t.shifts)
  }

  /** A history table that only grew, by rows of one tenant. */
  predicate Grew<R(==)>(before: seq<R>, after: seq<R>, owner: R -> string, tenant: string) {
    before <= after && forall i | |before| <= i < |after| :: owner(after[i]) == tenant
  }

  predicate HistoryKept(t: Tables, u: Tables, tenant: string) {
    && Grew(t.prices, u.prices, (r: PriceRow) => r.tenant, tenant)
    && Grew(t.waste, u.waste, (r: WasteRow) => r.tenant, tenant)
    && Grew(t.orderLines, u.orderLines, (r: OrderLine) => r.tenant, tenant)
    && Grew(t.volumes, u.volumes, (r: Volume) => r.tenant, tenant)
    && Grew(t.invoiceLines, u.invoiceLines, (r: InvoiceLine) => r.tenant, tenant)
  }

  /** Nothing of any other tenant differs, and no history row is lost or changed. */
  ghost predicate OnlyTouches(t: Tables, u: Tables, tenant: string) {
    && u.suppliers == t.suppliers && u.skus == t.skus
    && MenuKept(t, u, tenant) && IngredientsKept(t, u, tenant) && ShelvesKept(t, u, tenant)
    && OrdersKept(t, u, tenant) && InvoicesKept(t, u, tenant) && ShiftsKept(t, u, tenant)
    && HistoryKept(t, u, tenant)
  }

  lemma {:induction false} OrderLinesGrow(rt: Runtime, t: Tables, e: Entry, order: string, lines: seq<Json>)
    requires ApplyOrderLines(rt, t, e, order, lines).Success?
    ensures var u := ApplyOrderLines(rt, t, e, order, lines).value;
            && Grew(t.orderLines, u.orderLines, (r: OrderLine) => r.tenant, e.tenant)
            && Grew(t.volumes, u.volumes, (r: Volume) => r.tenant, e.tenant)
  {
    if lines != [] { OrderLinesGrow(rt, t, e, order, lines[..|lines| - 1]); }
  }

  lemma {:induction false} InvoiceLinesGrow(rt: Runtime, t: Tables, e: Entry, invoice: string, supplier: string,
                                            lines: seq<Json>)
    requires ApplyInvoiceLines(rt, t, e, invoice, supplier, lines).Success?
    ensures var u := ApplyInvoiceLines(rt, t, e, invoice, supplier, lines).value;
            Grew(t.invoiceLines, u.invoiceLines, (r: InvoiceLine) => r.tenant, e.tenant)
  {
    hide ApplyInvoiceLine;
    if lines != [] {
      var fewer := lines[..|lines| - 1];
      InvoiceLinesGrow(rt, t, e, invoice, supplier, fewer);
      InvoiceLineIsRecorded(rt, ApplyInvoiceLines(rt, t, e, invoice, supplier, fewer).value, e, invoice, supplier,
                            lines[|lines| - 1]);
    }
  }

  lemma OrderTouches(rt: Runtime, t: Tables, u: Tables, e: Entry)
    requires ApplyOrderRecorded(rt, t, e) == Success(u)
    ensures OnlyTouches(t, u, e.tenant)
  {
    var order := OrderId(rt, e).value;
    var begun := t.(orders := t.orders[order := Order(e.tenant, e.time)]);
    var lines := Get(e.payload, "lines").items;
    OrderLinesTouch(rt, begun, e, order, lines);
    OrderLinesGrow(rt, begun, e, order, lines);
  }

  lemma InvoiceTouches(rt: Runtime, t: Tables, u: Tables, e: Entry)
    requires ApplyInvoiceRecorded(rt, t, e) == Success(u)
    ensures OnlyTouches(t, u, e.tenant)
  {
    var header := InvoiceHeader(rt, t, e).value;
    var begun := t.(invoices := t.invoices[header.0 := header.1]);
    var lines := InvoiceItems(e.payload).value;
    InvoiceLinesTouch(rt, begun, e, header.0, header.1.supplier, lines);
    InvoiceLinesGrow(rt, begun, e, header.0, header.1.supplier, lines);
  }

  /** Every stock event writes one level, in both places, and perhaps a waste row. */
  lemma StockShape(rt: Runtime, t: Tables, u: Tables, kind: EventType, e: Entry) returns (id: string, quantity: real)
    requires IsStockEvent(kind) && Apply(rt, t, kind, e) == Success(u)
    ensures id in t.ingredients && t.ingredients[id].tenant == e.tenant && quantity >= 0.0
    ensures u == SetStock(t, e.tenant, id, quantity).(waste := u.waste)
    ensures Grew(t.waste, u.waste, (r: WasteRow) => r.tenant, e.tenant)
  {
    id := e.payload["ingredient_id"].text;
    quantity := u.ingredients[id].stock;
  }

  lemma StockTouches(rt: Runtime, t: Tables, u: Tables, kind: EventType, e: Entry)
    requires IsStockEvent(kind) && Apply(rt, t, kind, e) == Success(u)
    ensures OnlyTouches(t, u, e.tenant)
  {
    hide Apply;
    var id, quantity := StockShape(rt, t, u, kind, e);
  }

  lemma SupplierTouches(rt: Runtime, t: Tables, u: Tables, kind: EventType, e: Entry)
    requires kind.SupplierPriceChange? || kind.SupplierSwitch?
    requires Apply(rt, t, kind, e) == Success(u)
    ensures OnlyTouches(t, u, e.tenant)
  {
  }

  lemma MenuTouches(rt: Runtime, t: Tables, u: Tables, kind: EventType, e: Entry)
    requires kind.MenuPriceChange? || kind.MenuItemAdded? || kind.MenuItemRemoved?
    requires Apply(rt, t, kind, e) == Success(u)
    ensures OnlyTouches(t, u, e.tenant)
  {
  }

  lemma StaffingTouches(rt: Runtime, t: Tables, u: Tables, e: Entry)
    requires ApplyStaffingChange(rt, t, e) == Success(u)
    ensures OnlyTouches(t, u, e.tenant)
  {
  }

  /** No accepted event of one tenant changes a row of another. */
  lemma EventOnlyTouches(rt: Runtime, t: Tables, u: Tables, kind: EventType, e: Entry)
    requires Apply(rt, t, kind, e) == Success(u)
    ensures OnlyTouches(t, u, e.tenant)
  {
    match kind
    case OrderRecorded => OrderTouches(rt, t, u, e);
    case InvoiceRecorded => InvoiceTouches(rt, t, u, e);
    case StaffingChange => StaffingTouches(rt, t, u, e);
    case DemandSpike =>
    case SupplierPriceChange => SupplierTouches(rt, t, u, kind, e);
    case SupplierSwitch => SupplierTouches(rt, t, u, kind, e);
    case MenuPriceChange => MenuTouches(rt, t, u, kind, e);
    case MenuItemAdded => MenuTouches(rt, t, u, kind, e);
    case MenuItemRemoved => MenuTouches(rt, t, u, kind, e);
    case _ => StockTouches(rt, t, u, kind, e);
  }
}
