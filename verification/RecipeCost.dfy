/**
  Two ways to cost a menu item: the detector adds up one pass over all recipe rows, grouped
  by item; the simulator queries one item and adds up its rows. They agree on every item.
 */
module RecipeCost {
  import opened Wrappers

  datatype Recipe = Recipe(id: string, tenant: string, item: string, active: bool)
  datatype RecipeLine = RecipeLine(tenant: string, recipe: string, ingredient: string, quantity: real)
  datatype PricedIngredient = PricedIngredient(id: string, tenant: string, price: real)

  /** One row of the join the two queries share. */
  datatype CostRow = CostRow(item: string, quantity: real, price: real)

  datatype Fault = QuantityNotPositive | PriceNegative

  // ---------------------------------------------------------------- the two queries

  function LineRows(r: Recipe, l: RecipeLine, ingredients: seq<PricedIngredient>, tenant: string): seq<CostRow> {
    if ingredients == [] then []
    else
      var i := ingredients[0];
      (if l.recipe == r.id && l.tenant == r.tenant && i.id == l.ingredient && i.tenant == l.tenant && i.tenant == tenant
       then [CostRow(r.item, l.quantity, i.price)] else [])
      + LineRows(r, l, ingredients[1..], tenant)
  }

  function RecipeRows(r: Recipe, lines: seq<RecipeLine>, ingredients: seq<PricedIngredient>,
                      tenant: string): seq<CostRow> {
    if lines == [] then []
    else LineRows(r, lines[0], ingredients, tenant) + RecipeRows(r, lines[1..], ingredients, tenant)
  }

  /** Every cost row of a tenant's active recipes. */
  function AllRows(recipes: seq<Recipe>, lines: seq<RecipeLine>, ingredients: seq<PricedIngredient>,
                   tenant: string): seq<CostRow> {
    if recipes == [] then []
    else
      (if recipes[0].tenant == tenant && recipes[0].active
       then RecipeRows(recipes[0], lines, ingredients, tenant)
       else [])
      + AllRows(recipes[1..], lines, ingredients, tenant)
  }

  /** The cost rows of one menu item. */
  function ItemRows(recipes: seq<Recipe>, lines: seq<RecipeLine>, ingredients: seq<PricedIngredient>, tenant: string,
                    item: string)
    : seq<CostRow>
  {
    if recipes == [] then []
    else
      (if recipes[0].tenant == tenant && recipes[0].item == item && recipes[0].active
       then RecipeRows(recipes[0], lines, ingredients, tenant) else [])
      + ItemRows(recipes[1..], lines, ingredients, tenant, item)
  }

  function Select(rows: seq<CostRow>, item: string): seq<CostRow> {
    if rows == [] then []
    else One(rows[0], item) + Select(rows[1..], item)
  }

  lemma Regroup(a: seq<CostRow>, b: seq<CostRow>, c: seq<CostRow>)
    ensures a + (b + c) == a + b + c
  {
  }

  function One(row: CostRow, item: string): seq<CostRow> { if row.item == item then [row] else [] }

  lemma SelectFirst(row: CostRow, rows: seq<CostRow>, item: string)
    ensures Select([row] + rows, item) == One(row, item) + Select(rows, item)
  {
    assert ([row] + rows)[1..] == rows;
  }

  lemma {:induction false} SelectAdds(a: seq<CostRow>, b: seq<CostRow>, item: string)
    ensures Select(a + b, item) == Select(a, item) + Select(b, item)
  {
    if a == [] {
      assert a + b == b;
    } else {
      hide Select, One;
      SelectFirst(a[0], a[1..], item);
      SelectFirst(a[0], a[1..] + b, item);
      SelectAdds(a[1..], b, item);
      Regroup(One(a[0], item), Select(a[1..], item), Select(b, item));
      Regroup([a[0]], a[1..], b);
      assert a == [a[0]] + a[1..];
    }
  }

  lemma {:induction false} LineRowsAreOfTheItem(r: Recipe, l: RecipeLine, ingredients: seq<PricedIngredient>,
                                                tenant: string)
    ensures forall row | row in LineRows(r, l, ingredients, tenant) :: row.item == r.item
  {
    if ingredients != [] { LineRowsAreOfTheItem(r, l, ingredients[1..], tenant); }
  }

  lemma {:induction false} RecipeRowsAreOfTheItem(r: Recipe, lines: seq<RecipeLine>, ingredients: seq<PricedIngredient>,
                                                  tenant: string)
    ensures forall row | row in RecipeRows(r, lines, ingredients, tenant) :: row.item == r.item
  {
    if lines != [] {
      LineRowsAreOfTheItem(r, lines[0], ingredients, tenant);
      RecipeRowsAreOfTheItem(r, lines[1..], ingredients, tenant);
    }
  }

  lemma {:induction false} SelectUniform(rows: seq<CostRow>, owner: string, item: string)
    requires forall row | row in rows :: row.item == owner
    ensures Select(rows, item) == if owner == item then rows else []
  {
    if rows != [] {
      SelectUniform(rows[1..], owner, item);
      assert [rows[0]] + rows[1..] == rows;
    }
  }

  /** The per-item query returns the rows of the grouped query that belong to the item. */
  lemma {:induction false} ItemRowsAreSelected(recipes: seq<Recipe>, lines: seq<RecipeLine>,
                                               ingredients: seq<PricedIngredient>,
                                               tenant: string, item: string)
    ensures ItemRows(recipes, lines, ingredients, tenant, item)
         == Select(AllRows(recipes, lines, ingredients, tenant), item)
  {
    if recipes != [] {
      ItemRowsAreSelected(recipes[1..], lines, ingredients, tenant, item);
      var first := if recipes[0].tenant == tenant && recipes[0].active
                   then RecipeRows(recipes[0], lines, ingredients, tenant) else [];
      RecipeRowsAreOfTheItem(recipes[0], lines, ingredients, tenant);
      SelectUniform(first, recipes[0].item, item);
      SelectAdds(first, AllRows(recipes[1..], lines, ingredients, tenant), item);
    }
  }

  /** The recipe's line on an ingredient, all of one tenant. */
  predicate Joins(r: Recipe, l: RecipeLine, i: PricedIngredient, tenant: string) {
    l.recipe == r.id && l.tenant == r.tenant && i.id == l.ingredient && i.tenant == l.tenant && i.tenant == tenant
  }

  lemma {:induction false} LineRowsAreTheJoin(r: Recipe, l: RecipeLine, ingredients: seq<PricedIngredient>,
                                              tenant: string, row: CostRow)
    ensures row in LineRows(r, l, ingredients, tenant)
            <==> exists i | i in ingredients :: Joins(r, l, i, tenant) && row == CostRow(r.item, l.quantity, i.price)
  {
    if ingredients != [] {
      LineRowsAreTheJoin(r, l, ingredients[1..], tenant, row);
      assert ingredients == [ingredients[0]] + ingredients[1..];
    }
  }

  lemma {:induction false} RecipeRowsAreTheJoin(r: Recipe, lines: seq<RecipeLine>, ingredients: seq<PricedIngredient>,
                                                tenant: string, row: CostRow)
    ensures row in RecipeRows(r, lines, ingredients, tenant)
            <==> exists l, i | l in lines && i in ingredients ::
                   Joins(r, l, i, tenant) && row == CostRow(r.item, l.quantity, i.price)
  {
    hide LineRows, Joins;
    if lines != [] {
      RecipeRowsAreTheJoin(r, lines[1..], ingredients, tenant, row);
      LineRowsAreTheJoin(r, lines[0], ingredients, tenant, row);
      assert lines == [lines[0]] + lines[1..];
    }
  }

  /** A cost row of an item is a line of one of the tenant's active recipes for it, priced by its ingredient. */
  lemma {:induction false} ItemRowsAreTheJoin(recipes: seq<Recipe>, lines: seq<RecipeLine>,
                                              ingredients: seq<PricedIngredient>, tenant: string, item: string,
                                              row: CostRow)
    ensures row in ItemRows(recipes, lines, ingredients, tenant, item)
            <==> exists r, l, i | r in recipes && l in lines && i in ingredients ::
                   && r.tenant == tenant && r.item == item && r.active && Joins(r, l, i, tenant)
                   && row == CostRow(item, l.quantity, i.price)
  {
    hide RecipeRows, Joins;
    if recipes != [] {
      ItemRowsAreTheJoin(recipes[1..], lines, ingredients, tenant, item, row);
      RecipeRowsAreTheJoin(recipes[0], lines, ingredients, tenant, row);
      assert recipes == [recipes[0]] + recipes[1..];
    }
  }

  // ---------------------------------------------------------------- sums

  function Value(row: CostRow): real { row.quantity * row.price }

  function Total(rows: seq<CostRow>): real {
    if rows == [] then 0.0 else Value(rows[0]) + Total(rows[1..])
  }

  lemma TotalFirst(row: CostRow, rows: seq<CostRow>)
    ensures Total([row] + rows) == Value(row) + Total(rows)
  {
    assert ([row] + rows)[1..] == rows;
  }

  lemma {:induction false} TotalAdds(a: seq<CostRow>, b: seq<CostRow>)
    ensures Total(a + b) == Total(a) + Total(b)
  {
    if a == [] {
      assert a + b == b;
    } else {
      hide Total, Value;
      TotalFirst(a[0], a[1..]);
      TotalFirst(a[0], a[1..] + b);
      TotalAdds(a[1..], b);
      Regroup([a[0]], a[1..], b);
      assert a == [a[0]] + a[1..];
    }
  }

  /** The sum of quantities times prices, row by row. */
  lemma TotalIsTheSum(rows: seq<CostRow>, item: string, quantity: real, price: real)
    ensures Total([]) == 0.0
    ensures Total(rows + [CostRow(item, quantity, price)]) == Total(rows) + quantity * price
  {
    TotalAdds(rows, [CostRow(item, quantity, price)]);
  }

  lemma SplitAt(rows: seq<CostRow>, k: nat)
    requires k < |rows|
    ensures rows == rows[..k] + ([rows[k]] + rows[k + 1..])
  {
  }

  lemma TotalWithout(rows: seq<CostRow>, k: nat)
    requires k < |rows|
    ensures Total(rows) == Value(rows[k]) + Total(rows[..k] + rows[k + 1..])
    ensures multiset(rows[..k] + rows[k + 1..]) == multiset(rows) - multiset{rows[k]}
  {
    hide Total, Value;
    SplitAt(rows, k);
    TotalFirst(rows[k], rows[k + 1..]);
    TotalAdds(rows[..k], [rows[k]] + rows[k + 1..]);
    TotalAdds(rows[..k], rows[k + 1..]);
  }

  /** The database may return rows in any order: a sum does not depend on it. */
  lemma {:induction false} TotalIgnoresOrder(a: seq<CostRow>, b: seq<CostRow>)
    requires multiset(a) == multiset(b)
    ensures Total(a) == Total(b)
    decreases |a|
  {
    hide Total, Value;
    if a == [] {
      assert |multiset(b)| == 0 && b == [];
    } else {
      assert a[0] in multiset(b);
      var k :| 0 <= k < |b| && b[k] == a[0];
      TotalWithout(a, 0);
      TotalWithout(b, k);
      TotalIgnoresOrder(a[..0] + a[1..], b[..k] + b[k + 1..]);
    }
  }

  // ---------------------------------------------------------------- the two loops

  /** A map that holds, for each item with a row, the total of its rows. */
  ghost predicate CostsOf(costs: map<string, real>, rows: seq<CostRow>) {
    && (forall item :: item in costs <==> Select(rows, item) != [])
    && (forall item | item in costs :: costs[item] == Total(Select(rows, item)))
  }

  /** One more row adds its value to its own item and to no other. */
  lemma OneMoreSelected(rows: seq<CostRow>, row: CostRow, item: string)
    ensures Select(rows + [row], item) == Select(rows, item) + if row.item == item then [row] else []
    ensures Total(Select(rows + [row], item))
            == Total(Select(rows, item)) + if row.item == item then Value(row) else 0.0
  {
    hide Value;
    SelectAdds(rows, [row], item);
    TotalAdds(Select(rows, item), if row.item == item then [row] else []);
  }

  lemma OneMoreRow(costs: map<string, real>, rows: seq<CostRow>, row: CostRow)
    requires CostsOf(costs, rows)
    ensures CostsOf(costs[row.item := (if row.item in costs then costs[row.item] else 0.0) + Value(row)], rows + [row])
  {
    NoRowsNoCost(row.item, rows);
    hide Value, Total, Select;
    var more := costs[row.item := (if row.item in costs then costs[row.item] else 0.0) + Value(row)];
    forall item: string
      ensures item in more <==> Select(rows + [row], item) != []
      ensures item in more ==> more[item] == Total(Select(rows + [row], item))
    {
      OneMoreSelected(rows, row, item);
    }
  }

  lemma NoRowsNoCost(item: string, rows: seq<CostRow>)
    ensures Select(rows, item) == [] ==> Total(Select(rows, item)) == 0.0
  {
  }

  lemma NoRowsNoCosts()
    ensures CostsOf(map[], [])
  {
  }

  /** `_recipe_costs`: one pass, one running sum per menu item that has a row. */
  method GroupCosts(rows: seq<CostRow>) returns (costs: map<string, real>)
    ensures CostsOf(costs, rows)
  {
    hide CostsOf;
    costs := map[];
    NoRowsNoCosts();
    for n := 0 to |rows|
      invariant CostsOf(costs, rows[..n])
    {
      var row := rows[n];
      OneMoreRow(costs, rows[..n], row);
      assert rows[..n + 1] == rows[..n] + [row];
      var sofar := if row.item in costs then costs[row.item] else 0.0;
      assert row.quantity * row.price == Value(row);
      costs := costs[row.item := sofar + row.quantity * row.price];
    }
    assert rows[..|rows|] == rows;
  }

  predicate Sane(row: CostRow) { row.quantity > 0.0 && row.price >= 0.0 }

  /** `_load_recipe_cost`: no rows means no cost; an insane row is an error. */
  method LoadRecipeCost(rows: seq<CostRow>) returns (r: Result<Option<real>, Fault>)
    ensures r.Success? <==> forall i | 0 <= i < |rows| :: Sane(rows[i])
    ensures r.Success? ==> r.value == if rows == [] then None else Some(Total(rows))
    ensures r.Failure? ==>
              exists i | 0 <= i < |rows| ::
                && !Sane(rows[i]) && (forall j | 0 <= j < i :: Sane(rows[j]))
                && r.error == if rows[i].quantity <= 0.0 then QuantityNotPositive else PriceNegative
  {
    if rows == [] { return Success(None); }
    var total := 0.0;
    for n := 0 to |rows|
      invariant forall i | 0 <= i < n :: Sane(rows[i])
      invariant total == Total(rows[..n])
    {
      var row := rows[n];
      if row.quantity <= 0.0 { assert !Sane(rows[n]); return Failure(QuantityNotPositive); }
      if row.price < 0.0 { assert !Sane(rows[n]); return Failure(PriceNegative); }
      assert rows[..n + 1] == rows[..n] + [row];
      TotalAdds(rows[..n], [row]);
      total := total + row.quantity * row.price;
    }
    assert rows[..|rows|] == rows;
    return Success(Some(total));
  }

  /** What the grouped map says of an item. */
  function Grouped(costs: map<string, real>, item: string): Option<real> {
    if item in costs then Some(costs[item]) else None
  }

  lemma {:induction false} SelectPermutes(a: seq<CostRow>, item: string)
    ensures forall row :: multiset(Select(a, item))[row] == if row.item == item then multiset(a)[row] else 0
  {
    if a != [] {
      SelectPermutes(a[1..], item);
      assert a == [a[0]] + a[1..];
    }
  }

  /**
    The detector's grouped map and the simulator's per-item sum give the same cost for every
    menu item, or both none, whatever order each query's rows came back in.
   */
  method DetectorAgreesWithSimulator(recipes: seq<Recipe>, lines: seq<RecipeLine>, ingredients: seq<PricedIngredient>,
                                     tenant: string, item: string, all: seq<CostRow>, own: seq<CostRow>)
    returns (detected: Option<real>, simulated: Option<real>)
    requires forall i | 0 <= i < |lines| :: lines[i].quantity > 0.0
    requires forall i | 0 <= i < |ingredients| :: ingredients[i].price >= 0.0
    requires multiset(all) == multiset(AllRows(recipes, lines, ingredients, tenant))
    requires multiset(own) == multiset(ItemRows(recipes, lines, ingredients, tenant, item))
    ensures detected == simulated
    ensures simulated == if own == [] then None else Some(Total(own))
  {
    var costs := GroupCosts(all);
    detected := Grouped(costs, item);
    OwnRowsAreSane(recipes, lines, ingredients, tenant, item, own);
    var loaded := LoadRecipeCost(own);
    simulated := loaded.value;
    SelectionIsOwn(recipes, lines, ingredients, tenant, item, all, own);
    assert multiset(Select(all, item)) == multiset(own);
    TotalIgnoresOrder(Select(all, item), own);
    assert |multiset(Select(all, item))| == |multiset(own)|;
  }

  lemma SelectionIsOwn(recipes: seq<Recipe>, lines: seq<RecipeLine>, ingredients: seq<PricedIngredient>, tenant: string,
                       item: string,
                       all: seq<CostRow>, own: seq<CostRow>)
    requires multiset(all) == multiset(AllRows(recipes, lines, ingredients, tenant))
    requires multiset(own) == multiset(ItemRows(recipes, lines, ingredients, tenant, item))
    ensures multiset(Select(all, item)) == multiset(own)
  {
    var listed := AllRows(recipes, lines, ingredients, tenant);
    ItemRowsAreSelected(recipes, lines, ingredients, tenant, item);
    SelectPermutes(all, item);
    SelectPermutes(listed, item);
    assert forall row :: multiset(Select(all, item))[row] == multiset(own)[row];
  }

  lemma {:induction false} LineRowsAreSane(r: Recipe, l: RecipeLine, ingredients: seq<PricedIngredient>, tenant: string)
    requires l.quantity > 0.0 && forall i | 0 <= i < |ingredients| :: ingredients[i].price >= 0.0
    ensures forall row | row in LineRows(r, l, ingredients, tenant) :: Sane(row)
  {
    if ingredients != [] { LineRowsAreSane(r, l, ingredients[1..], tenant); }
  }

  lemma {:induction false} RecipeRowsAreSane(r: Recipe, lines: seq<RecipeLine>, ingredients: seq<PricedIngredient>,
                                             tenant: string)
    requires forall i | 0 <= i < |lines| :: lines[i].quantity > 0.0
    requires forall i | 0 <= i < |ingredients| :: ingredients[i].price >= 0.0
    ensures forall row | row in RecipeRows(r, lines, ingredients, tenant) :: Sane(row)
  {
    if lines != [] {
      LineRowsAreSane(r, lines[0], ingredients, tenant);
      RecipeRowsAreSane(r, lines[1..], ingredients, tenant);
    }
  }

  lemma {:induction false} ItemRowsAreSane(recipes: seq<Recipe>, lines: seq<RecipeLine>,
                                           ingredients: seq<PricedIngredient>,
                                           tenant: string, item: string)
    requires forall i | 0 <= i < |lines| :: lines[i].quantity > 0.0
    requires forall i | 0 <= i < |ingredients| :: ingredients[i].price >= 0.0
    ensures forall row | row in ItemRows(recipes, lines, ingredients, tenant, item) :: Sane(row)
  {
    if recipes != [] {
      RecipeRowsAreSane(recipes[0], lines, ingredients, tenant);
      ItemRowsAreSane(recipes[1..], lines, ingredients, tenant, item);
    }
  }

  lemma OwnRowsAreSane(recipes: seq<Recipe>, lines: seq<RecipeLine>, ingredients: seq<PricedIngredient>, tenant: string,
                       item: string,
                       own: seq<CostRow>)
    requires forall i | 0 <= i < |lines| :: lines[i].quantity > 0.0
    requires forall i | 0 <= i < |ingredients| :: ingredients[i].price >= 0.0
    requires multiset(own) == multiset(ItemRows(recipes, lines, ingredients, tenant, item))
    ensures forall i | 0 <= i < |own| :: Sane(own[i])
  {
    ItemRowsAreSane(recipes, lines, ingredients, tenant, item);
    forall i | 0 <= i < |own| ensures Sane(own[i]) {
      assert own[i] in multiset(ItemRows(recipes, lines, ingredients, tenant, item));
    }
  }
}
