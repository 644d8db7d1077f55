/**
  What each handler means for the tables: exactly which events it accepts, what it changes, and
  that it changes nothing else.
 */
module EventEffects {
  import opened Wrappers
  import opened Json
  import opened HashChain
  import opened Columns
  import opened EventTables

  predicate NamesIngredient(t: Tables, tenant: string, id: Json) {
    id.Str? && id.text in t.ingredients && t.ingredients[id.text].tenant == tenant
  }

  predicate NamesMenuItem(t: Tables, tenant: string, id: Json) {
    id.Str? && id.text in t.menu && t.menu[id.text].tenant == tenant
  }

  predicate NamesSku(t: Tables, tenant: string, id: Json) {
    id.Str? && id.text in t.skus && t.skus[id.text].tenant == tenant
  }

  predicate NamesSupplier(t: Tables, tenant: string, id: Json) {
    id.Str? && id.text in t.suppliers && t.suppliers[id.text] == tenant
  }

  /** The figure a payload names, if it names one. */
  function Figure(rt: Runtime, payload: Payload, name: string): Option<real> {
    if Get(payload, name).Null? then None else rt.number(Get(payload, name))
  }

  // ---------------------------------------------------------------- stock

  /** All rows but those of one ingredient's stock. */
  ghost predicate OnlyLevelMoves(t: Tables, u: Tables, tenant: string, id: string) {
    && u == t.(inventory := u.inventory, ingredients := u.ingredients, waste := u.waste)
    && u.ingredients.Keys == t.ingredients.Keys
    && (forall k | k in t.ingredients && k != id :: u.ingredients[k] == t.ingredients[k])
    && (id in t.ingredients ==> u.ingredients[id] == t.ingredients[id].(stock := u.ingredients[id].stock))
    && (forall s: Shelf | s != Shelf(tenant, id) ::
          (s in u.inventory <==> s in t.inventory) && (s in t.inventory ==> u.inventory[s] == t.inventory[s]))
  }

  /** Both places that keep a level show this one, and nothing but the level has moved. */
  ghost predicate LevelSet(t: Tables, u: Tables, tenant: string, id: string, level: real) {
    && OnlyLevelMoves(t, u, tenant, id)
    && id in u.ingredients && u.ingredients[id].stock == level
    && Shelf(tenant, id) in u.inventory && u.inventory[Shelf(tenant, id)] == level
  }

  lemma SetStockSets(t: Tables, tenant: string, id: string, level: real)
    requires id in t.ingredients
    ensures LevelSet(t, SetStock(t, tenant, id, level), tenant, id, level)
  {
  }

  /** A stockout of an ingredient of the tenant leaves none of it; nothing else is a reason to refuse it. */
  lemma StockoutEmpties(t: Tables, e: Entry)
    ensures var id := Get(e.payload, "ingredient_id");
            && (ApplyStockout(t, e).Success? <==> NamesIngredient(t, e.tenant, id))
            && (ApplyStockout(t, e).Success? ==>
                  LevelSet(t, ApplyStockout(t, e).value, e.tenant, id.text, 0.0)
                  && ApplyStockout(t, e).value.waste == t.waste)
  {
    hide LevelSet;
    var id := Get(e.payload, "ingredient_id");
    if NamesIngredient(t, e.tenant, id) { SetStockSets(t, e.tenant, id.text, 0.0); }
  }

  predicate LevelFits(level: real) { level >= 0.0 && TenThousandths(level) < COLUMN_LIMIT }

  /** A restock sets the level to its figure, to four decimals; it needs one that is not negative and fits. */
  lemma RestockSets(rt: Runtime, t: Tables, e: Entry)
    ensures var id, figure := Get(e.payload, "ingredient_id"), Figure(rt, e.payload, "new_stock_level");
            && (ApplyRestock(rt, t, e).Success?
                <==> NamesIngredient(t, e.tenant, id) && figure.Some? && LevelFits(figure.value))
            && (ApplyRestock(rt, t, e).Success? ==>
                  LevelSet(t, ApplyRestock(rt, t, e).value, e.tenant, id.text, TenThousandths(figure.value))
                  && ApplyRestock(rt, t, e).value.waste == t.waste)
  {
    hide LevelSet;
    var id, figure := Get(e.payload, "ingredient_id"), Figure(rt, e.payload, "new_stock_level");
    if NamesIngredient(t, e.tenant, id) && figure.Some? {
      SetStockSets(t, e.tenant, id.text, TenThousandths(figure.value));
    }
  }

  /** What an adjustment names: a level wins over a change, and a name without a figure is an error. */
  function Named(rt: Runtime, payload: Payload, current: real): Option<real> {
    if "new_stock_level" in payload then rt.number(payload["new_stock_level"])
    else if "stock_delta" in payload && rt.number(payload["stock_delta"]).Some?
    then Some(current + rt.number(payload["stock_delta"]).value)
    else None
  }

  /** An adjustment sets the level it names, or adds its change to the stock on hand; never below zero. */
  lemma AdjustmentSets(rt: Runtime, t: Tables, e: Entry)
    ensures var id := Get(e.payload, "ingredient_id");
            if NamesIngredient(t, e.tenant, id) then
              var level := Named(rt, e.payload, Stock(t, e.tenant, id.text));
              && (ApplyInventoryAdjustment(rt, t, e).Success? <==> level.Some? && LevelFits(level.value))
              && (ApplyInventoryAdjustment(rt, t, e).Success? ==>
                    LevelSet(t, ApplyInventoryAdjustment(rt, t, e).value, e.tenant, id.text,
                             TenThousandths(level.value))
                    && ApplyInventoryAdjustment(rt, t, e).value.waste == t.waste)
            else ApplyInventoryAdjustment(rt, t, e).Failure?
  {
    hide LevelSet;
    var id := Get(e.payload, "ingredient_id");
    if NamesIngredient(t, e.tenant, id) {
      var level := Named(rt, e.payload, Stock(t, e.tenant, id.text));
      if level.Some? { SetStockSets(t, e.tenant, id.text, TenThousandths(level.value)); }
    }
  }

  /**
    Waste is accepted for a reason, a positive quantity and no more than there is; then both
    levels fall by it and one row says so.
   */
  lemma WasteTakesAway(rt: Runtime, t: Tables, e: Entry)
    ensures var id, quantity := Get(e.payload, "ingredient_id"), Figure(rt, e.payload, "quantity");
            if NamesIngredient(t, e.tenant, id) && quantity.Some? then
              var q, stock := quantity.value, Stock(t, e.tenant, id.text);
              && (ApplyWaste(rt, t, e).Success?
                  <==> 0.0 < q <= stock && !Get(e.payload, "reason").Null?
                       && 0.0 < TenThousandths(q) < COLUMN_LIMIT && LevelFits(stock - q))
              && (ApplyWaste(rt, t, e).Success? ==>
                    var u := ApplyWaste(rt, t, e).value;
                    && LevelSet(t, u, e.tenant, id.text, TenThousandths(stock - q))
                    && u.waste == t.waste + [WasteRow(e.tenant, id.text, TenThousandths(q),
                                                      rt.show(Get(e.payload, "reason")), e.time)])
            else ApplyWaste(rt, t, e).Failure?
  {
    hide LevelSet;
    var id, quantity := Get(e.payload, "ingredient_id"), Figure(rt, e.payload, "quantity");
    if NamesIngredient(t, e.tenant, id) && quantity.Some? {
      var left := TenThousandths(Stock(t, e.tenant, id.text) - quantity.value);
      SetStockSets(t, e.tenant, id.text, left);
      if ApplyWaste(rt, t, e).Success? {
        WasteRowIsApart(t, SetStock(t, e.tenant, id.text, left), ApplyWaste(rt, t, e).value.waste, e.tenant, id.text,
                        left);
      }
    }
  }

  lemma WasteRowIsApart(t: Tables, u: Tables, waste: seq<WasteRow>, tenant: string, id: string, level: real)
    requires LevelSet(t, u, tenant, id, level)
    ensures LevelSet(t, u.(waste := waste), tenant, id, level)
  {
  }

  // ---------------------------------------------------------------- suppliers

  /** All rows but one ingredient's and the price history. */
  predicate OnlyIngredientMoves(t: Tables, u: Tables, id: string) {
    && u == t.(ingredients := u.ingredients, prices := u.prices)
    && u.ingredients.Keys == t.ingredients.Keys
    && (forall k | k in t.ingredients && k != id :: u.ingredients[k] == t.ingredients[k])
  }

  predicate PriceFits(p: Option<real>) { p.Some? && p.value >= 0.0 && Cents(p.value) < COLUMN_LIMIT }

  /** A SKU's new price is appended to its history and becomes the price of its ingredient, in whole cents. */
  lemma SupplierPriceReprices(rt: Runtime, t: Tables, e: Entry)
    ensures var id, p := Get(e.payload, "supplier_sku_id"), Figure(rt, e.payload, "new_price");
            if NamesSku(t, e.tenant, id) && NamesIngredient(t, e.tenant, Str(t.skus[id.text].ingredient)) then
              var i := t.skus[id.text].ingredient;
              && (ApplySupplierPriceChange(rt, t, e).Success? <==> PriceFits(p))
              && (ApplySupplierPriceChange(rt, t, e).Success? ==>
                    var u := ApplySupplierPriceChange(rt, t, e).value;
                    && OnlyIngredientMoves(t, u, i)
                    && u.ingredients[i] == t.ingredients[i].(price := Cents(p.value))
                    && u.prices == t.prices + [PriceRow(e.tenant, id.text, Cents(p.value), e.time)])
            else ApplySupplierPriceChange(rt, t, e).Failure?
  {
  }

  /** Supplier and ingredient must both be the tenant's; then the ingredient changes hands and nothing else. */
  lemma SwitchMovesTheSupplier(t: Tables, e: Entry)
    ensures var id, s := Get(e.payload, "ingredient_id"), Get(e.payload, "new_supplier_id");
            && (ApplySupplierSwitch(t, e).Success?
                <==> NamesIngredient(t, e.tenant, id) && NamesSupplier(t, e.tenant, s))
            && (ApplySupplierSwitch(t, e).Success? ==>
                  var u := ApplySupplierSwitch(t, e).value;
                  && OnlyIngredientMoves(t, u, id.text) && u.prices == t.prices
                  && u.ingredients[id.text] == t.ingredients[id.text].(supplier := Some(s.text)))
  {
  }

  // ---------------------------------------------------------------- menu

  predicate OnlyMenuItemMoves(t: Tables, u: Tables, id: string) {
    && u == t.(menu := u.menu) && u.menu.Keys == t.menu.Keys + {id}
    && forall k | k in t.menu && k != id :: u.menu[k] == t.menu[k]
  }

  lemma MenuPriceReprices(rt: Runtime, t: Tables, e: Entry)
    ensures var id, p := Get(e.payload, "menu_item_id"), Figure(rt, e.payload, "new_price");
            && (ApplyMenuPriceChange(rt, t, e).Success? <==> NamesMenuItem(t, e.tenant, id) && PriceFits(p))
            && (ApplyMenuPriceChange(rt, t, e).Success? ==>
                  var u := ApplyMenuPriceChange(rt, t, e).value;
                  && OnlyMenuItemMoves(t, u, id.text)
                  && u.menu[id.text] == t.menu[id.text].(price := Cents(p.value)))
  {
  }

  /** A removed item keeps its row, name and price: only its flag falls. */
  lemma RemovalDeactivates(t: Tables, e: Entry)
    ensures var id := Get(e.payload, "menu_item_id");
            && (ApplyMenuItemRemoved(t, e).Success? <==> NamesMenuItem(t, e.tenant, id))
            && (ApplyMenuItemRemoved(t, e).Success? ==>
                  var u := ApplyMenuItemRemoved(t, e).value;
                  && OnlyMenuItemMoves(t, u, id.text)
                  && u.menu[id.text] == t.menu[id.text].(active := false))
  {
  }

  /** An id is free for a tenant unless another tenant has it; an item added again is overwritten. */
  lemma AdditionOverwrites(rt: Runtime, t: Tables, e: Entry)
    ensures var id, p, name, active := Get(e.payload, "menu_item_id"), Figure(rt, e.payload, "current_price"),
                                       Get(e.payload, "name"), Get(e.payload, "active");
            && (ApplyMenuItemAdded(rt, t, e).Success?
                <==> id.Str? && (id.text in t.menu ==> t.menu[id.text].tenant == e.tenant) && PriceFits(p)
                     && !name.Null? && ("active" in e.payload ==> active.Bool?))
            && (ApplyMenuItemAdded(rt, t, e).Success? ==>
                  var u := ApplyMenuItemAdded(rt, t, e).value;
                  && OnlyMenuItemMoves(t, u, id.text)
                  && u.menu[id.text] == MenuItem(e.tenant, rt.show(name), Cents(p.value), active != Bool(false)))
  {
  }

  // ---------------------------------------------------------------- orders and invoices, line by line

  /** A line is recorded with an equal demand row, or nothing is. */
  lemma OrderLineIsRecorded(rt: Runtime, t: Tables, e: Entry, order: string, line: Json)
    ensures if line.Obj? then
              var id, count, p := Get(line.fields, "menu_item_id"), Get(line.fields, "quantity"),
                  Figure(rt, line.fields, "unit_price");
              && (ApplyOrderLine(rt, t, e, order, line).Success?
                  <==> NamesMenuItem(t, e.tenant, id) && PriceFits(p) && !count.Null? && rt.integer(count).Some?
                       && 0 < rt.integer(count).value <= MAX_INTEGER)
              && (ApplyOrderLine(rt, t, e, order, line).Success? ==>
                    var u, n := ApplyOrderLine(rt, t, e, order, line).value, rt.integer(count).value;
                    && u == t.(orderLines := u.orderLines, volumes := u.volumes)
                    && u.orderLines == t.orderLines + [OrderLine(e.tenant, order, id.text, n, Cents(p.value))]
                    && u.volumes == t.volumes + [Volume(e.tenant, id.text, n, e.time)])
            else ApplyOrderLine(rt, t, e, order, line) == Failure(Crash)
  {
  }

  /** An invoice line names a SKU of the tenant and of the invoiced supplier. */
  lemma InvoiceLineIsRecorded(rt: Runtime, t: Tables, e: Entry, invoice: string, supplier: string, line: Json)
    ensures if line.Obj? then
              var id, q, p := Get(line.fields, "supplier_sku_id"), Figure(rt, line.fields, "quantity"),
                  Figure(rt, line.fields, "unit_price");
              && (ApplyInvoiceLine(rt, t, e, invoice, supplier, line).Success?
                  <==> NamesSku(t, e.tenant, id) && t.skus[id.text].supplier == supplier && PriceFits(p)
                       && q.Some? && q.value > 0.0 && 0.0 < TenThousandths(q.value) < COLUMN_LIMIT)
              && (ApplyInvoiceLine(rt, t, e, invoice, supplier, line).Success? ==>
                    var u := ApplyInvoiceLine(rt, t, e, invoice, supplier, line).value;
                    && u == t.(invoiceLines := u.invoiceLines)
                    && u.invoiceLines == t.invoiceLines
                                         + [InvoiceLine(e.tenant, invoice, id.text, TenThousandths(q.value),
                                                        Cents(p.value))])
            else ApplyInvoiceLine(rt, t, e, invoice, supplier, line) == Failure(Crash)
  {
  }

  // ---------------------------------------------------------------- staffing

  /** The change speaks of one shift: one it may name, the only match, or a new one. */
  predicate SpeaksOfOneShift(rt: Runtime, t: Tables, e: Entry, role: string, day: int) {
    var id := Get(e.payload, "staff_shift_id");
    if !Falsy(rt, id) then id.Str? && (id.text in t.shifts ==> t.shifts[id.text].tenant == e.tenant)
    else
      var matches := |Matching(t, e.tenant, role, day)|;
      || matches == 1
      || (matches == 0 && (id.Null? || id.Str?) && (if id.Null? then e.spare else id.text) !in t.shifts)
  }

  /** Accepted exactly when its figures are in range and it speaks of one shift of the tenant. */
  lemma StaffingIsAcceptedIff(rt: Runtime, t: Tables, e: Entry)
    ensures var role, day, headcount := Get(e.payload, "role"), Get(e.payload, "day_of_week"),
                                        Get(e.payload, "headcount");
            ApplyStaffingChange(rt, t, e).Success?
            <==> && !role.Null? && !day.Null? && !headcount.Null?
                 && rt.integer(day).Some? && 0 <= rt.integer(day).value <= 6
                 && rt.integer(headcount).Some? && 0 <= rt.integer(headcount).value <= MAX_INTEGER
                 && SpeaksOfOneShift(rt, t, e, rt.show(role), rt.integer(day).value)
  {
    hide Falsy, Matching;
  }

  /**
    One shift of the tenant gets the headcount and no other row moves. Without a shift id it is
    the only shift of that role and day afterwards, and two matching shifts beforehand are refused.
   */
  lemma StaffingSetsOneShift(rt: Runtime, t: Tables, e: Entry)
    requires ApplyStaffingChange(rt, t, e).Success?
    ensures var u, role := ApplyStaffingChange(rt, t, e).value, rt.show(Get(e.payload, "role"));
            var day, headcount := rt.integer(Get(e.payload, "day_of_week")), rt.integer(Get(e.payload, "headcount"));
            && day.Some? && headcount.Some? && 0 <= day.value <= 6 && 0 <= headcount.value <= MAX_INTEGER
            && u == t.(shifts := u.shifts)
            && exists k :: && k in u.shifts && u.shifts[k] == Shift(e.tenant, role, day.value, headcount.value)
                           && (k in t.shifts ==> t.shifts[k].tenant == e.tenant)
                           && u.shifts.Keys == t.shifts.Keys + {k}
                           && (forall other | other in t.shifts && other != k :: u.shifts[other] == t.shifts[other])
                           && (Falsy(rt, Get(e.payload, "staff_shift_id"))
                               ==> Matching(u, e.tenant, role, day.value) == {k})
  {
    var role, day := rt.show(Get(e.payload, "role")), rt.integer(Get(e.payload, "day_of_week")).value;
    var u := ApplyStaffingChange(rt, t, e).value;
    var k := StaffingWrites(rt, t, e);
    hide ApplyStaffingChange, Falsy, ShiftId, Matching;
    if Falsy(rt, Get(e.payload, "staff_shift_id")) { OnlyMatch(rt, t, e, role, day, u, k); }
    assert k in u.shifts && u.shifts.Keys == t.shifts.Keys + {k};
  }

  lemma StaffingWrites(rt: Runtime, t: Tables, e: Entry) returns (k: string)
    requires ApplyStaffingChange(rt, t, e).Success?
    ensures var role, day, headcount := rt.show(Get(e.payload, "role")), rt.integer(Get(e.payload, "day_of_week")),
                                        rt.integer(Get(e.payload, "headcount"));
            && day.Some? && headcount.Some? && 0 <= day.value <= 6 && 0 <= headcount.value <= MAX_INTEGER
            && ShiftId(rt, t, e, role, day.value) == Success(k) && (k in t.shifts ==> t.shifts[k].tenant == e.tenant)
            && ApplyStaffingChange(rt, t, e).value
               == t.(shifts := t.shifts[k := Shift(e.tenant, role, day.value, headcount.value)])
  {
    hide ShiftId;
    k := ShiftId(rt, t, e, rt.show(Get(e.payload, "role")), rt.integer(Get(e.payload, "day_of_week")).value).value;
  }

  lemma OnlyMatch(rt: Runtime, t: Tables, e: Entry, role: string, day: int, u: Tables, k: string)
    requires Falsy(rt, Get(e.payload, "staff_shift_id")) && ShiftId(rt, t, e, role, day) == Success(k)
    requires k in u.shifts && u.shifts[k].tenant == e.tenant && u.shifts[k].role == role && u.shifts[k].day == day
    requires u.shifts == t.shifts[k := u.shifts[k]]
    ensures Matching(u, e.tenant, role, day) == {k}
  {
    var before := Matching(t, e.tenant, role, day);
    if |before| == 1 {
      assert before == {k};
    } else {
      assert before == {};
    }
    assert Matching(u, e.tenant, role, day) == before + {k};
  }

  // ---------------------------------------------------------------- what undoes what

  /** Both entries speak of one thing of one tenant. */
  predicate SameSubject(e: Entry, f: Entry, name: string) {
    e.tenant == f.tenant && Get(e.payload, name) == Get(f.payload, name)
  }

  /** An adjustment by the wasted quantity puts both levels back, as long as the figures fit the column. */
  lemma WasteIsUndone(rt: Runtime, t: Tables, u: Tables, e: Entry, back: Entry)
    requires ApplyWaste(rt, t, e) == Success(u) && SameSubject(e, back, "ingredient_id")
    requires "new_stock_level" !in back.payload && "stock_delta" in back.payload
    requires rt.number(back.payload["stock_delta"]) == Figure(rt, e.payload, "quantity")
    requires NamesIngredient(t, e.tenant, Get(e.payload, "ingredient_id"))
    requires var stock := Stock(t, e.tenant, Get(e.payload, "ingredient_id").text); Fits(stock) && stock < COLUMN_LIMIT
    requires Figure(rt, e.payload, "quantity").Some? && Fits(Figure(rt, e.payload, "quantity").value)
    ensures var id := Get(e.payload, "ingredient_id").text;
            && ApplyInventoryAdjustment(rt, u, back).Success?
            && LevelSet(t, ApplyInventoryAdjustment(rt, u, back).value, e.tenant, id, Stock(t, e.tenant, id))
  {
    hide ApplyWaste, ApplyInventoryAdjustment, OnlyLevelMoves;
    var id, q := Get(e.payload, "ingredient_id").text, Figure(rt, e.payload, "quantity").value;
    var stock := Stock(t, e.tenant, id);
    FitsAdds(stock, q);
    FitsIff(stock - q);
    FitsIff(stock);
    WasteTakesAway(rt, t, e);
    AdjustmentSets(rt, u, back);
    hide TenThousandths, Fits, LevelSet;
    LevelIsStock(t, u, e.tenant, id, stock - q);
    LevelsCompose(t, u, ApplyInventoryAdjustment(rt, u, back).value, e.tenant, id, stock - q, stock);
  }

  lemma LevelIsStock(t: Tables, u: Tables, tenant: string, id: string, level: real)
    requires LevelSet(t, u, tenant, id, level)
    ensures id in u.ingredients && Stock(u, tenant, id) == level
    ensures NamesIngredient(t, tenant, Str(id)) ==> NamesIngredient(u, tenant, Str(id))
  {
  }

  lemma LevelsCompose(t: Tables, u: Tables, v: Tables, tenant: string, id: string, first: real, second: real)
    requires LevelSet(t, u, tenant, id, first) && LevelSet(u, v, tenant, id, second)
    ensures LevelSet(t, v, tenant, id, second)
  {
  }

  /** After a stockout no waste of that ingredient is accepted. */
  lemma NothingLeftToWaste(rt: Runtime, t: Tables, u: Tables, e: Entry, waste: Entry)
    requires ApplyStockout(t, e) == Success(u) && SameSubject(e, waste, "ingredient_id")
    ensures ApplyWaste(rt, u, waste).Failure?
  {
    StockoutEmpties(t, e);
    WasteTakesAway(rt, u, waste);
    hide ApplyStockout, ApplyWaste, LevelSet;
    LevelIsStock(t, u, e.tenant, Get(e.payload, "ingredient_id").text, 0.0);
  }

  /** Waste of everything there is, and only that, leaves nothing. */
  lemma WasteOfAllLeavesNothing(rt: Runtime, t: Tables, u: Tables, e: Entry)
    requires ApplyWaste(rt, t, e) == Success(u) && NamesIngredient(t, e.tenant, Get(e.payload, "ingredient_id"))
    requires var stock := Stock(t, e.tenant, Get(e.payload, "ingredient_id").text); Fits(stock)
    requires Figure(rt, e.payload, "quantity").Some? && Fits(Figure(rt, e.payload, "quantity").value)
    ensures var id := Get(e.payload, "ingredient_id").text;
            && id in u.ingredients
            && (Stock(u, e.tenant, id) == 0.0 <==> Figure(rt, e.payload, "quantity").value == Stock(t, e.tenant, id))
  {
    var id, q := Get(e.payload, "ingredient_id").text, Figure(rt, e.payload, "quantity").value;
    FitsAdds(Stock(t, e.tenant, id), q);
    FitsIff(Stock(t, e.tenant, id) - q);
    WasteTakesAway(rt, t, e);
    hide ApplyWaste, TenThousandths, Fits, LevelSet;
    LevelIsStock(t, u, e.tenant, id, Stock(t, e.tenant, id) - q);
  }

  /** Switching back to the supplier an ingredient had restores every table. */
  lemma SwitchIsUndone(t: Tables, u: Tables, e: Entry, back: Entry)
    requires ApplySupplierSwitch(t, e) == Success(u) && SameSubject(e, back, "ingredient_id")
    requires NamesIngredient(t, e.tenant, Get(e.payload, "ingredient_id"))
    requires t.ingredients[Get(e.payload, "ingredient_id").text].supplier.Some?
    requires Get(back.payload, "new_supplier_id")
             == Str(t.ingredients[Get(e.payload, "ingredient_id").text].supplier.value)
    requires NamesSupplier(t, e.tenant, Get(back.payload, "new_supplier_id"))
    ensures ApplySupplierSwitch(u, back) == Success(t)
  {
    var id := Get(e.payload, "ingredient_id").text;
    SwitchMovesTheSupplier(t, e);
    SwitchMovesTheSupplier(u, back);
    hide ApplySupplierSwitch;
    var v := ApplySupplierSwitch(u, back).value;
    assert v.ingredients == t.ingredients;
  }

  /** Adding a removed item again, under its own name and price, restores every table. */
  lemma RemovalIsUndone(rt: Runtime, t: Tables, u: Tables, e: Entry, back: Entry)
    requires ApplyMenuItemRemoved(t, e) == Success(u) && SameSubject(e, back, "menu_item_id")
    requires NamesMenuItem(t, e.tenant, Get(e.payload, "menu_item_id"))
    requires var item := t.menu[Get(e.payload, "menu_item_id").text];
             && item.active && PriceFits(Some(item.price)) && WholeCents(item.price)
             && !Get(back.payload, "name").Null? && rt.show(Get(back.payload, "name")) == item.name
             && Figure(rt, back.payload, "current_price") == Some(item.price) && "active" !in back.payload
    ensures ApplyMenuItemAdded(rt, u, back) == Success(t)
  {
    var id := Get(e.payload, "menu_item_id").text;
    CentsIff(t.menu[id].price);
    RemovalDeactivates(t, e);
    AdditionOverwrites(rt, u, back);
    hide ApplyMenuItemRemoved, ApplyMenuItemAdded, Cents, WholeCents;
    var v := ApplyMenuItemAdded(rt, u, back).value;
    assert v.menu == t.menu;
  }
}
