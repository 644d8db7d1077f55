/**
  The read tables of the event store and the twelve handlers that bring them up to date
  with one event. A handler yields the new tables, or the error that rolls them back.
 */
module EventTables {
  import opened Wrappers
  import opened Json
  import opened HashChain
  import opened Columns

  /** What the handlers take from the Python runtime: `Decimal(str(v))`, `int(v)`, `str(v)`. */
  datatype Runtime = Runtime(number: Json -> Option<real>, integer: Json -> Option<int>, show: Json -> string)

  datatype Error = InvalidEvent | Database | NoTenant | Crash

  datatype Sku = Sku(tenant: string, supplier: string, ingredient: string)
  datatype Ingredient = Ingredient(tenant: string, price: real, supplier: Option<string>, stock: real)
  datatype MenuItem = MenuItem(tenant: string, name: string, price: real, active: bool)
  datatype Shelf = Shelf(tenant: string, ingredient: string)
  datatype PriceRow = PriceRow(tenant: string, sku: string, price: real, time: int)
  datatype WasteRow = WasteRow(tenant: string, ingredient: string, quantity: real, reason: string, time: int)
  datatype Order = Order(tenant: string, time: int)
  datatype OrderLine = OrderLine(tenant: string, order: string, item: string, quantity: int, unitPrice: real)
  datatype Volume = Volume(tenant: string, item: string, quantity: int, time: int)
  datatype Invoice = Invoice(tenant: string, supplier: string, number: string, total: real, time: int)
  datatype InvoiceLine = InvoiceLine(tenant: string, invoice: string, sku: string, quantity: real, unitPrice: real)
  datatype Shift = Shift(tenant: string, role: string, day: int, headcount: int)

  datatype Tables = Tables(
    suppliers: map<string, string>,          // owner by id
    skus: map<string, Sku>,
    ingredients: map<string, Ingredient>,
    inventory: map<Shelf, real>,
    menu: map<string, MenuItem>,
    prices: seq<PriceRow>,
    waste: seq<WasteRow>,
    orders: map<string, Order>,
    orderLines: seq<OrderLine>,
    volumes: seq<Volume>,
    invoices: map<string, Invoice>,
    invoiceLines: seq<InvoiceLine>,
    shifts: map<string, Shift>)

  /** What a handler reads of its event; `spare` is the row id the database would generate. */
  datatype Entry = Entry(tenant: string, payload: Payload, time: int, spare: string)

  // ---------------------------------------------------------------- payload fields

  function Required(payload: Payload, name: string): (r: Result<Json, Error>)
    ensures r.Success? ==> name in payload && payload[name] == r.value && !r.value.Null?
  {
    var value := Get(payload, name);
    if value.Null? then Failure(InvalidEvent) else Success(value)
  }

  function Number(rt: Runtime, value: Json): Result<real, Error> {
    match rt.number(value)
    case Some(x) => Success(x)
    case None => Failure(InvalidEvent)
  }

  function Amount(rt: Runtime, payload: Payload, name: string): (r: Result<real, Error>)
    ensures r.Success? ==> name in payload && rt.number(payload[name]) == Some(r.value)
  {
    var value :- Required(payload, name);
    Number(rt, value)
  }

  /** The fields of an order or invoice line; a line that has none is an error of the handler. */
  function Fields(line: Json): (r: Result<Payload, Error>)
    ensures r.Success? ==> line == Obj(r.value)
  {
    if line.Obj? then Success(line.fields) else Failure(Crash)
  }

  function Integer(rt: Runtime, value: Json, otherwise: Error): Result<int, Error> {
    match rt.integer(value)
    case Some(n) => Success(n)
    case None => Failure(otherwise)
  }

  // ---------------------------------------------------------------- columns

  function Price(x: real): Result<real, Error> {
    if Cents(x) < COLUMN_LIMIT then Success(Cents(x)) else Failure(Database)
  }

  function Total(x: real): Result<real, Error> {
    if Cents(x) < 10000000000.0 then Success(Cents(x)) else Failure(Database)
  }

  function Quantity(x: real): Result<real, Error> {
    if TenThousandths(x) < COLUMN_LIMIT then Success(TenThousandths(x)) else Failure(Database)
  }

  // ---------------------------------------------------------------- look-ups

  /** An id compared with a text column: anything but text is an error of the query. */
  function Key(id: Json): (r: Result<string, Error>)
    ensures r.Success? ==> id == Str(r.value)
  {
    if id.Str? then Success(id.text) else Failure(Database)
  }

  function FindIngredient(t: Tables, tenant: string, id: Json): (r: Result<Ingredient, Error>)
    ensures r.Success? ==>
              && id.Str? && id.text in t.ingredients && t.ingredients[id.text] == r.value
              && r.value.tenant == tenant
  {
    var key :- Key(id);
    if key in t.ingredients && t.ingredients[key].tenant == tenant then Success(t.ingredients[key])
    else Failure(InvalidEvent)
  }

  function FindMenuItem(t: Tables, tenant: string, id: Json): (r: Result<MenuItem, Error>)
    ensures r.Success? ==> id.Str? && id.text in t.menu && t.menu[id.text] == r.value && r.value.tenant == tenant
  {
    var key :- Key(id);
    if key in t.menu && t.menu[key].tenant == tenant then Success(t.menu[key])
    else Failure(InvalidEvent)
  }

  function FindSupplier(t: Tables, tenant: string, id: Json): (r: Result<string, Error>)
    ensures r.Success? ==> id == Str(r.value) && r.value in t.suppliers && t.suppliers[r.value] == tenant
  {
    var key :- Key(id);
    if key in t.suppliers && t.suppliers[key] == tenant then Success(key)
    else Failure(InvalidEvent)
  }

  function FindSku(t: Tables, tenant: string, id: Json): (r: Result<Sku, Error>)
    ensures r.Success? ==> id.Str? && id.text in t.skus && t.skus[id.text] == r.value && r.value.tenant == tenant
  {
    var key :- Key(id);
    if key in t.skus && t.skus[key].tenant == tenant then Success(t.skus[key])
    else Failure(InvalidEvent)
  }

  /** Stock on hand: the inventory row, or the ingredient's own field when there is none. */
  function Stock(t: Tables, tenant: string, id: string): real
    requires id in t.ingredients
  {
    if Shelf(tenant, id) in t.inventory then t.inventory[Shelf(tenant, id)] else t.ingredients[id].stock
  }

  function SetStock(t: Tables, tenant: string, id: string, quantity: real): Tables
    requires id in t.ingredients
  {
    t.(inventory := t.inventory[Shelf(tenant, id) := quantity],
       ingredients := t.ingredients[id := t.ingredients[id].(stock := quantity)])
  }

  // ---------------------------------------------------------------- handlers

  function ApplySupplierPriceChange(rt: Runtime, t: Tables, e: Entry): Result<Tables, Error> {
    var skuId :- Required(e.payload, "supplier_sku_id");
    var price :- Amount(rt, e.payload, "new_price");
    :- Need(price >= 0.0, InvalidEvent);
    var sku :- FindSku(t, e.tenant, skuId);
    var stored :- Price(price);
    var ingredient :- FindIngredient(t, e.tenant, Str(sku.ingredient));
    Success(t.(prices := t.prices + [PriceRow(e.tenant, skuId.text, stored, e.time)],
               ingredients := t.ingredients[sku.ingredient := ingredient.(price := stored)]))
  }

  function ApplySupplierSwitch(t: Tables, e: Entry): Result<Tables, Error> {
    var id :- Required(e.payload, "ingredient_id");
    var supplierId :- Required(e.payload, "new_supplier_id");
    var supplier :- FindSupplier(t, e.tenant, supplierId);
    var ingredient :- FindIngredient(t, e.tenant, id);
    Success(t.(ingredients := t.ingredients[id.text := ingredient.(supplier := Some(supplier))]))
  }

  function ApplyStockout(t: Tables, e: Entry): Result<Tables, Error> {
    var id :- Required(e.payload, "ingredient_id");
    var ingredient :- FindIngredient(t, e.tenant, id);
    Success(SetStock(t, e.tenant, id.text, 0.0))
  }

  function ApplyRestock(rt: Runtime, t: Tables, e: Entry): Result<Tables, Error> {
    var id :- Required(e.payload, "ingredient_id");
    var quantity :- Amount(rt, e.payload, "new_stock_level");
    :- Need(quantity >= 0.0, InvalidEvent);
    var ingredient :- FindIngredient(t, e.tenant, id);
    var stored :- Quantity(quantity);
    Success(SetStock(t, e.tenant, id.text, stored))
  }

  /** The level an adjustment asks for: absolute if it names one, else a change to what is there. */
  function Adjusted(rt: Runtime, payload: Payload, current: real): Result<real, Error> {
    if "new_stock_level" in payload then Number(rt, payload["new_stock_level"])
    else if "stock_delta" in payload then
      var delta :- Number(rt, payload["stock_delta"]);
      Success(current + delta)
    else Failure(InvalidEvent)
  }

  function ApplyInventoryAdjustment(rt: Runtime, t: Tables, e: Entry): Result<Tables, Error> {
    var id :- Required(e.payload, "ingredient_id");
    var ingredient :- FindIngredient(t, e.tenant, id);
    var quantity :- Adjusted(rt, e.payload, Stock(t, e.tenant, id.text));
    :- Need(quantity >= 0.0, InvalidEvent);
    var stored :- Quantity(quantity);
    Success(SetStock(t, e.tenant, id.text, stored))
  }

  function ApplyWaste(rt: Runtime, t: Tables, e: Entry): Result<Tables, Error> {
    var id :- Required(e.payload, "ingredient_id");
    var quantity :- Amount(rt, e.payload, "quantity");
    var reason :- Required(e.payload, "reason");
    :- Need(quantity > 0.0, InvalidEvent);
    var ingredient :- FindIngredient(t, e.tenant, id);
    var left := Stock(t, e.tenant, id.text) - quantity;
    :- Need(left >= 0.0, InvalidEvent);
    var wasted :- Quantity(quantity);
    :- Need(wasted > 0.0, Database);
    var stored :- Quantity(left);
    Success(SetStock(t, e.tenant, id.text, stored).(
              waste := t.waste + [WasteRow(e.tenant, id.text, wasted, rt.show(reason), e.time)]))
  }

  function ApplyMenuPriceChange(rt: Runtime, t: Tables, e: Entry): Result<Tables, Error> {
    var id :- Required(e.payload, "menu_item_id");
    var price :- Amount(rt, e.payload, "new_price");
    :- Need(price >= 0.0, InvalidEvent);
    var item :- FindMenuItem(t, e.tenant, id);
    var stored :- Price(price);
    Success(t.(menu := t.menu[id.text := item.(price := stored)]))
  }

  /** Whether an added item starts active: yes unless the payload says otherwise. */
  function AddedActive(payload: Payload): Result<bool, Error> {
    if "active" !in payload then Success(true)
    else if payload["active"].Bool? then Success(payload["active"].truth)
    else Failure(InvalidEvent)
  }

  function ApplyMenuItemAdded(rt: Runtime, t: Tables, e: Entry): Result<Tables, Error> {
    var id :- Required(e.payload, "menu_item_id");
    var name :- Required(e.payload, "name");
    var price :- Amount(rt, e.payload, "current_price");
    :- Need(price >= 0.0, InvalidEvent);
    var active :- AddedActive(e.payload);
    var key :- Key(id);
    :- Need(key in t.menu ==> t.menu[key].tenant == e.tenant, Database);
    var stored :- Price(price);
    Success(t.(menu := t.menu[key := MenuItem(e.tenant, rt.show(name), stored, active)]))
  }

  function ApplyMenuItemRemoved(t: Tables, e: Entry): Result<Tables, Error> {
    var id :- Required(e.payload, "menu_item_id");
    var item :- FindMenuItem(t, e.tenant, id);
    Success(t.(menu := t.menu[id.text := item.(active := false)]))
  }

  /** Python's truth of an optional id. */
  predicate Falsy(rt: Runtime, id: Json) {
    id == Null || id == Bool(false) || id == Str("") || id == Arr([]) || id == Obj(map[])
    || (id.Num? && rt.number(id) == Some(0.0))
  }

  /** The id of a new order: the one given, or the spare one. */
  function OrderId(rt: Runtime, e: Entry): Result<string, Error> {
    var id := Get(e.payload, "order_id");
    if Falsy(rt, id) then Success(e.spare) else Key(id)
  }

  const MAX_INTEGER := 2147483647

  function ApplyOrderLine(rt: Runtime, t: Tables, e: Entry, order: string, line: Json): Result<Tables, Error> {
    var fields :- Fields(line);
    var id :- Required(fields, "menu_item_id");
    var count :- Required(fields, "quantity");
    var quantity :- Integer(rt, count, Crash);
    var unitPrice :- Amount(rt, fields, "unit_price");
    :- Need(quantity > 0, InvalidEvent);
    :- Need(unitPrice >= 0.0, InvalidEvent);
    var item :- FindMenuItem(t, e.tenant, id);
    :- Need(quantity <= MAX_INTEGER, Database);
    var stored :- Price(unitPrice);
    Success(t.(orderLines := t.orderLines + [OrderLine(e.tenant, order, id.text, quantity, stored)],
               volumes := t.volumes + [Volume(e.tenant, id.text, quantity, e.time)]))
  }

  function ApplyOrderLines(rt: Runtime, t: Tables, e: Entry, order: string, lines: seq<Json>): Result<Tables, Error> {
    if lines == [] then Success(t)
    else
      var before :- ApplyOrderLines(rt, t, e, order, lines[..|lines| - 1]);
      ApplyOrderLine(rt, before, e, order, lines[|lines| - 1])
  }

  function ApplyOrderRecorded(rt: Runtime, t: Tables, e: Entry): Result<Tables, Error> {
    var lines := Get(e.payload, "lines");
    :- Need(lines.Arr? && lines.items != [], InvalidEvent);
    var order :- OrderId(rt, e);
    :- Need(order !in t.orders, Database);
    ApplyOrderLines(rt, t.(orders := t.orders[order := Order(e.tenant, e.time)]), e, order, lines.items)
  }

  function InvoiceId(e: Entry): Result<string, Error> {
    var id := Get(e.payload, "invoice_id");
    if id.Null? then Success(e.spare) else Key(id)
  }

  predicate InvoiceNumberTaken(t: Tables, tenant: string, number: string) {
    exists k | k in t.invoices :: t.invoices[k].tenant == tenant && t.invoices[k].number == number
  }

  /** The header row of an invoice, once every check on it has passed. */
  function InvoiceHeader(rt: Runtime, t: Tables, e: Entry): Result<(string, Invoice), Error> {
    var supplierId :- Required(e.payload, "supplier_id");
    var number :- Required(e.payload, "invoice_number");
    var supplier :- FindSupplier(t, e.tenant, supplierId);
    var total :- if "total_amount" in e.payload then Number(rt, e.payload["total_amount"]) else Success(0.0);
    :- Need(total >= 0.0, InvalidEvent);
    var invoice :- InvoiceId(e);
    var stored :- Total(total);
    :- Need(invoice !in t.invoices && !InvoiceNumberTaken(t, e.tenant, rt.show(number)), Database);
    Success((invoice, Invoice(e.tenant, supplier, rt.show(number), stored, e.time)))
  }

  function InvoiceItems(payload: Payload): Result<seq<Json>, Error> {
    if "lines" !in payload then Success([])
    else if payload["lines"].Arr? then Success(payload["lines"].items)
    else Failure(InvalidEvent)
  }

  function ApplyInvoiceLine(rt: Runtime, t: Tables, e: Entry, invoice: string, supplier: string,
                            line: Json): Result<Tables, Error> {
    var fields :- Fields(line);
    var skuId :- Required(fields, "supplier_sku_id");
    var quantity :- Amount(rt, fields, "quantity");
    var unitPrice :- Amount(rt, fields, "unit_price");
    :- Need(quantity > 0.0, InvalidEvent);
    :- Need(unitPrice >= 0.0, InvalidEvent);
    var sku :- FindSku(t, e.tenant, skuId);
    :- Need(sku.supplier == supplier, InvalidEvent);
    var count :- Quantity(quantity);
    :- Need(count > 0.0, Database);
    var stored :- Price(unitPrice);
    Success(t.(invoiceLines := t.invoiceLines + [InvoiceLine(e.tenant, invoice, skuId.text, count, stored)]))
  }

  function ApplyInvoiceLines(rt: Runtime, t: Tables, e: Entry, invoice: string, supplier: string, lines: seq<Json>)
    : Result<Tables, Error>
  {
    if lines == [] then Success(t)
    else
      var before :- ApplyInvoiceLines(rt, t, e, invoice, supplier, lines[..|lines| - 1]);
      ApplyInvoiceLine(rt, before, e, invoice, supplier, lines[|lines| - 1])
  }

  function ApplyInvoiceRecorded(rt: Runtime, t: Tables, e: Entry): Result<Tables, Error> {
    var header :- InvoiceHeader(rt, t, e);
    var lines :- InvoiceItems(e.payload);
    ApplyInvoiceLines(rt, t.(invoices := t.invoices[header.0 := header.1]), e, header.0, header.1.supplier, lines)
  }

  /** The shifts a staffing change without a shift id speaks of. */
  function Matching(t: Tables, tenant: string, role: string, day: int): set<string> {
    set k | k in t.shifts && t.shifts[k].tenant == tenant && t.shifts[k].role == role && t.shifts[k].day == day
  }

  lemma OneKey(keys: set<string>, a: string, b: string)
    requires |keys| == 1 && a in keys && b in keys
    ensures a == b
  {
    assert |keys - {a}| == 0;
    assert b !in keys - {a};
  }

  function Only(keys: set<string>): (k: string)
    requires |keys| == 1
    ensures keys == {k}
  {
    assert keys != {};
    assert forall a, b | a in keys && b in keys :: a == b by {
      forall a, b | a in keys && b in keys ensures a == b { OneKey(keys, a, b); }
    }
    var k :| k in keys;
    k
  }

  /** The row a staffing change writes: the shift it names or matches, or a new one. */
  function ShiftId(rt: Runtime, t: Tables, e: Entry, role: string, day: int): (r: Result<string, Error>)
    ensures r.Success? && r.value in t.shifts ==> t.shifts[r.value].tenant == e.tenant
  {
    var id := Get(e.payload, "staff_shift_id");
    if !Falsy(rt, id) then
      var key :- Key(id);
      :- Need(key in t.shifts ==> t.shifts[key].tenant == e.tenant, Database);
      Success(key)
    else
      var matches := Matching(t, e.tenant, role, day);
      if |matches| > 1 then Failure(Database)
      else if |matches| == 1 then Success(Only(matches))
      else
        var key :- if id.Null? then Success(e.spare) else Key(id);
        :- Need(key !in t.shifts, Database);
        Success(key)
  }

  function ApplyStaffingChange(rt: Runtime, t: Tables, e: Entry): Result<Tables, Error> {
    var role :- Required(e.payload, "role");
    var dayValue :- Required(e.payload, "day_of_week");
    var countValue :- Required(e.payload, "headcount");
    var day :- Integer(rt, dayValue, InvalidEvent);
    var headcount :- Integer(rt, countValue, InvalidEvent);
    :- Need(0 <= day <= 6, InvalidEvent);
    :- Need(headcount >= 0, InvalidEvent);
    var shift :- ShiftId(rt, t, e, rt.show(role), day);
    :- Need(headcount <= MAX_INTEGER, Database);
    Success(t.(shifts := t.shifts[shift := Shift(e.tenant, rt.show(role), day, headcount)]))
  }

  /** `_apply_to_current_state`: the handler of the event's kind, if it has one. */
  function Apply(rt: Runtime, t: Tables, kind: EventType, e: Entry): Result<Tables, Error> {
    match kind
    case SupplierPriceChange => ApplySupplierPriceChange(rt, t, e)
    case SupplierSwitch => ApplySupplierSwitch(t, e)
    case Stockout => ApplyStockout(t, e)
    case Restock => ApplyRestock(rt, t, e)
    case InventoryAdjustment => ApplyInventoryAdjustment(rt, t, e)
    case WasteRecorded => ApplyWaste(rt, t, e)
    case MenuItemAdded => ApplyMenuItemAdded(rt, t, e)
    case MenuItemRemoved => ApplyMenuItemRemoved(t, e)
    case MenuPriceChange => ApplyMenuPriceChange(rt, t, e)
    case OrderRecorded => ApplyOrderRecorded(rt, t, e)
    case InvoiceRecorded => ApplyInvoiceRecorded(rt, t, e)
    case StaffingChange => ApplyStaffingChange(rt, t, e)
    case DemandSpike => Success(t)
  }
}
