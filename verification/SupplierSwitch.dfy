/**
  The supplier-switch simulation: the cost difference carried through every active recipe that
  uses the ingredient, and which gate a switch can end at.
 */
module SupplierSwitch {
  import opened Wrappers
  import Policy
  import opened Pricing

  /** An active recipe's use of the ingredient, with the demand rows of its menu item. */
  datatype Usage = Usage(quantity: real, menuPrice: real, history: seq<real>)

  // ---------------------------------------------------------------- demand

  function PositiveSum(rows: seq<real>): real {
    if rows == [] then 0.0
    else PositiveSum(rows[..|rows| - 1]) + if rows[|rows| - 1] > 0.0 then rows[|rows| - 1] else 0.0
  }

  function PositiveCount(rows: seq<real>): nat {
    if rows == [] then 0 else PositiveCount(rows[..|rows| - 1]) + if rows[|rows| - 1] > 0.0 then 1 else 0
  }

  function DemandOf(rows: seq<real>): Option<real> {
    if PositiveCount(rows) == 0 then None else Some(PositiveSum(rows) / PositiveCount(rows) as real)
  }

  /** `_load_demand_baseline`: the average of the positive rows, if there are any. */
  method LoadDemandBaseline(rows: seq<real>) returns (demand: Option<real>)
    ensures demand == DemandOf(rows)
  {
    var sum, count := 0.0, 0;
    for i := 0 to |rows|
      invariant sum == PositiveSum(rows[..i]) && count == PositiveCount(rows[..i])
    {
      assert rows[..i + 1][..i] == rows[..i];
      if rows[i] > 0.0 {
        sum := sum + rows[i];
        count := count + 1;
      }
    }
    assert rows[..|rows|] == rows;
    return if count == 0 then None else Some(sum / count as real);
  }

  lemma {:induction false} CountsPositiveRows(rows: seq<real>)
    ensures PositiveCount(rows) > 0 <==> exists i :: 0 <= i < |rows| && rows[i] > 0.0
  {
    if rows != [] {
      var fewer := rows[..|rows| - 1];
      CountsPositiveRows(fewer);
      assert forall i | 0 <= i < |fewer| :: fewer[i] == rows[i];
    }
  }

  function Times(x: real, n: nat): real { x * n as real }

  lemma OneMoreTime(x: real, n: nat)
    ensures Times(x, n + 1) == Times(x, n) + x
  {
    assert (n + 1) as real == n as real + 1.0;
  }

  lemma {:induction false} SumBounds(rows: seq<real>, low: real, high: real)
    requires forall i | 0 <= i < |rows| && rows[i] > 0.0 :: low <= rows[i] <= high
    ensures Times(low, PositiveCount(rows)) <= PositiveSum(rows) <= Times(high, PositiveCount(rows))
  {
    if rows == [] {
      assert Times(low, 0) == 0.0 && Times(high, 0) == 0.0;
    } else {
      hide Times;
      var fewer := rows[..|rows| - 1];
      SumBounds(fewer, low, high);
      OneMoreTime(low, PositiveCount(fewer));
      OneMoreTime(high, PositiveCount(fewer));
    }
  }

  lemma MeanBounds(sum: real, n: nat, low: real, high: real)
    requires n > 0 && Times(low, n) <= sum <= Times(high, n)
    ensures low <= sum / n as real <= high
  {
    var mean := sum / n as real;
    assert mean * n as real == sum;
    Scaled(low, mean, n as real);
    Scaled(mean, high, n as real);
  }

  /** The baseline exists exactly when some row is positive, and lies among the positive rows. */
  lemma DemandIsAmongTheRows(rows: seq<real>, low: real, high: real)
    requires forall i | 0 <= i < |rows| && rows[i] > 0.0 :: low <= rows[i] <= high
    ensures DemandOf(rows).Some? <==> exists i :: 0 <= i < |rows| && rows[i] > 0.0
    ensures DemandOf(rows).Some? ==> low <= DemandOf(rows).value <= high
  {
    SumBounds(rows, low, high);
    CountsPositiveRows(rows);
    if PositiveCount(rows) > 0 { MeanBounds(PositiveSum(rows), PositiveCount(rows), low, high); }
  }

  /** A row that is not positive changes nothing; a positive one joins the average with equal weight. */
  lemma DemandOfMore(rows: seq<real>, row: real)
    ensures var more, n := rows + [row], PositiveCount(rows);
            if row <= 0.0 then DemandOf(more) == DemandOf(rows)
            else PositiveCount(more) == n + 1 && DemandOf(more).Some?
                 && DemandOf(more).value * (n + 1) as real == DemandOf(rows).GetOr(0.0) * n as real + row
  {
    assert (rows + [row])[..|rows|] == rows;
    var n := PositiveCount(rows);
    if n > 0 {
      Undivided(PositiveSum(rows), n as real);
    } else {
      NoPositiveRows(rows);
    }
    if row > 0.0 { Undivided(PositiveSum(rows) + row, (n + 1) as real); }
  }

  lemma Undivided(sum: real, n: real)
    requires n > 0.0
    ensures sum / n * n == sum
  {
  }

  lemma {:induction false} NoPositiveRows(rows: seq<real>)
    ensures PositiveCount(rows) == 0 ==> PositiveSum(rows) == 0.0
  {
    if rows != [] { NoPositiveRows(rows[..|rows| - 1]); }
  }

  // ---------------------------------------------------------------- the simulation

  function Weight(u: Usage): real { DemandOf(u.history).GetOr(1.0) }

  /** How much of the ingredient the menu uses, by demand. */
  function Used(usages: seq<Usage>): real {
    if usages == [] then 0.0
    else Used(usages[..|usages| - 1]) + usages[|usages| - 1].quantity * Weight(usages[|usages| - 1])
  }

  /** What the dishes that use it bring in, by demand. */
  function Turnover(usages: seq<Usage>): real {
    if usages == [] then 0.0
    else Turnover(usages[..|usages| - 1]) + usages[|usages| - 1].menuPrice * Weight(usages[|usages| - 1])
  }

  /** The modelled margin change: what is saved on the amount used, over the turnover. */
  function MarginChange(price: real, newPrice: real, usages: seq<Usage>): real {
    if Turnover(usages) > 0.0 then (price - newPrice) * Used(usages) / Turnover(usages) else 0.0
  }

  function Confidence(inventory: Option<real>): real {
    if inventory.Some? && inventory.value <= 0.0 then 0.40 else 0.50
  }

  /** The loop of the simulation: contribution lost or saved, and turnover, usage by usage. */
  method Propagate(price: real, newPrice: real, usages: seq<Usage>) returns (impact: real, baseline: real)
    ensures impact == (price - newPrice) * Used(usages) && baseline == Turnover(usages)
  {
    hide Used, Turnover, DemandOf;
    impact, baseline := 0.0, 0.0;
    var saving := price - newPrice;
    NoUsage();
    for i := 0 to |usages|
      invariant impact == Mul(saving, Used(usages[..i]))
      invariant baseline == Turnover(usages[..i])
    {
      hide Mul;
      var usage := usages[i];
      assert usages[..i + 1][..i] == usages[..i];
      OneMoreUsage(usages[..i + 1]);
      var loaded := LoadDemandBaseline(usage.history);
      var demand := loaded.GetOr(1.0);
      var costDelta := usage.quantity * (newPrice - price);
      Distribute(saving, Used(usages[..i]), usage.quantity, demand, costDelta);
      impact := impact + -costDelta * demand;
      baseline := baseline + usage.menuPrice * demand;
    }
    assert usages[..|usages|] == usages;
  }

  lemma NoUsage()
    ensures Used([]) == 0.0 && Turnover([]) == 0.0
  {
  }

  /** `simulate_supplier_switch`: margin change, confidence and stockout risk. */
  method SimulateSupplierSwitch(price: real, newPrice: real, usages: seq<Usage>, inventory: Option<real>)
    returns (marginChange: real, confidence: real, stockoutRisk: real)
    requires price > 0.0 && newPrice > 0.0
    ensures marginChange == MarginChange(price, newPrice, usages) && confidence == Confidence(inventory)
    ensures stockoutRisk == if inventory.Some? && inventory.value <= 0.0 then 0.35 else 0.25
  {
    hide Used, Turnover;
    var impact, baseline := Propagate(price, newPrice, usages);
    marginChange := if baseline > 0.0 then impact / baseline else 0.0;
    stockoutRisk := Min(1.0, 0.10 + 0.15);
    confidence := 0.50;
    if inventory.Some? && inventory.value <= 0.0 {
      stockoutRisk := Min(1.0, stockoutRisk + 0.10);
      confidence := Min(confidence, 0.40);
    }
  }

  lemma Distribute(saving: real, used: real, quantity: real, demand: real, costDelta: real)
    requires costDelta == quantity * -saving
    ensures Mul(saving, used + quantity * demand) == Mul(saving, used) + -costDelta * demand
  {
    assert saving * (used + quantity * demand) == saving * used + saving * (quantity * demand);
    assert saving * (quantity * demand) == (quantity * saving) * demand;
  }

  predicate SaneUsage(u: Usage) { u.quantity > 0.0 && u.menuPrice >= 0.0 }

  lemma WeightIsPositive(u: Usage)
    ensures Weight(u) > 0.0
  {
    if DemandOf(u.history).Some? { PositiveRowsSumUp(u.history); }
  }

  lemma {:induction false} PositiveRowsSumUp(rows: seq<real>)
    ensures PositiveCount(rows) > 0 ==> PositiveSum(rows) > 0.0
    ensures PositiveSum(rows) >= 0.0
  {
    if rows != [] { PositiveRowsSumUp(rows[..|rows| - 1]); }
  }

  function Mul(x: real, y: real): real { x * y }

  function DishUse(u: Usage): real { u.quantity * Weight(u) }

  function DishTurnover(u: Usage): real { u.menuPrice * Weight(u) }

  lemma OneMoreUsage(usages: seq<Usage>)
    requires usages != []
    ensures var fewer, last := usages[..|usages| - 1], usages[|usages| - 1];
            Used(usages) == Used(fewer) + DishUse(last) && Turnover(usages) == Turnover(fewer) + DishTurnover(last)
  {
    hide Weight;
  }

  lemma DishSigns(u: Usage)
    ensures DishUse(u) > 0.0 <==> u.quantity > 0.0
    ensures DishTurnover(u) > 0.0 <==> u.menuPrice > 0.0
    ensures u.menuPrice == 0.0 ==> DishTurnover(u) == 0.0
  {
    WeightIsPositive(u);
    hide Weight;
    Scaled(u.quantity, 0.0, Weight(u));
    Scaled(u.menuPrice, 0.0, Weight(u));
  }

  lemma {:induction false} UsedIsPositive(usages: seq<Usage>)
    requires forall i | 0 <= i < |usages| :: SaneUsage(usages[i])
    ensures Used(usages) >= 0.0 && (Used(usages) > 0.0 <==> usages != [])
  {
    if usages == [] {
      NoUsage();
    } else {
      UsedIsPositive(usages[..|usages| - 1]);
      OneMoreUsage(usages);
      DishSigns(usages[|usages| - 1]);
      hide Used, Turnover, DishUse, DishTurnover;
    }
  }

  /** The menu turns over money exactly when some dish on it is sold for money. */
  lemma {:induction false} TurnoverIff(usages: seq<Usage>)
    requires forall i | 0 <= i < |usages| :: SaneUsage(usages[i])
    ensures Turnover(usages) >= 0.0
    ensures Turnover(usages) > 0.0 <==> exists i :: 0 <= i < |usages| && usages[i].menuPrice > 0.0
  {
    if usages != [] {
      var fewer, last := usages[..|usages| - 1], usages[|usages| - 1];
      TurnoverIff(fewer);
      OneMoreUsage(usages);
      DishSigns(last);
      hide Used, Turnover, DishUse, DishTurnover;
      assert forall i | 0 <= i < |fewer| :: fewer[i] == usages[i];
      assert usages[|fewer|] == last;
    }
  }

  /** A switch pays exactly when it is cheaper and some dish on sale for money uses the ingredient. */
  lemma SwitchPaysIff(price: real, newPrice: real, usages: seq<Usage>)
    requires forall i | 0 <= i < |usages| :: SaneUsage(usages[i])
    ensures MarginChange(price, newPrice, usages) > 0.0
            <==> newPrice < price && exists i :: 0 <= i < |usages| && usages[i].menuPrice > 0.0
  {
    UsedIsPositive(usages);
    TurnoverIff(usages);
    hide Used, Turnover, SaneUsage;
    if Turnover(usages) > 0.0 { SignOfQuotient(price - newPrice, Used(usages), Turnover(usages)); }
  }

  lemma SignOfQuotient(saving: real, used: real, turnover: real)
    requires used > 0.0 && turnover > 0.0
    ensures saving * used / turnover > 0.0 <==> saving > 0.0
  {
    var q := saving * used / turnover;
    assert q * turnover == saving * used;
    Scaled(q, 0.0, turnover);
    Scaled(saving, 0.0, used);
  }

  /** What a switch changes on one dish alone: the saving on its portion over its price. */
  function DishChange(price: real, newPrice: real, u: Usage): real
    requires u.menuPrice > 0.0
  {
    (price - newPrice) * u.quantity / u.menuPrice
  }

  /** One dish's saving, by demand, is its own change times its turnover. */
  lemma DishSaves(price: real, newPrice: real, u: Usage)
    requires u.menuPrice > 0.0
    ensures Mul(price - newPrice, DishUse(u)) == Mul(DishChange(price, newPrice, u), DishTurnover(u))
    ensures DishTurnover(u) > 0.0
  {
    WeightIsPositive(u);
    hide Weight;
    Regrouped(price - newPrice, u.quantity, u.menuPrice, Weight(u));
    Scaled(u.menuPrice, 0.0, Weight(u));
  }

  lemma Regrouped(saving: real, quantity: real, menuPrice: real, weight: real)
    requires menuPrice > 0.0
    ensures Mul(saving, quantity * weight) == Mul(saving * quantity / menuPrice, menuPrice * weight)
  {
    var own := saving * quantity / menuPrice;
    assert own * menuPrice == saving * quantity;
    assert saving * (quantity * weight) == (saving * quantity) * weight;
    assert own * (menuPrice * weight) == (own * menuPrice) * weight;
  }

  lemma MulGrows(x: real, y: real, unit: real)
    requires unit > 0.0
    ensures x <= y <==> Mul(x, unit) <= Mul(y, unit)
  {
    Scaled(x, y, unit);
  }

  lemma OneMoreDish(low: real, high: real, own: real, before: real, turnover: real, saved: real, saving: real)
    requires turnover > 0.0 && low <= own <= high && saving == Mul(own, turnover)
    requires Mul(low, before) <= saved <= Mul(high, before)
    ensures Mul(low, before + turnover) <= saved + saving <= Mul(high, before + turnover)
  {
    hide Mul;
    MulGrows(low, own, turnover);
    MulGrows(own, high, turnover);
    Spread(low, before, turnover);
    Spread(high, before, turnover);
  }

  lemma Spread(x: real, a: real, b: real)
    ensures Mul(x, a + b) == Mul(x, a) + Mul(x, b)
  {
  }

  lemma NothingTimes(x: real)
    ensures Mul(x, 0.0) == 0.0
  {
  }

  /** Every dish is sold for money, and its own change lies between the two. */
  predicate AllBetween(price: real, newPrice: real, usages: seq<Usage>, low: real, high: real) {
    forall i | 0 <= i < |usages| ::
      usages[i].menuPrice > 0.0 && low <= DishChange(price, newPrice, usages[i]) <= high
  }

  lemma {:induction false} SavingIsBetween(price: real, newPrice: real, usages: seq<Usage>, low: real, high: real)
    requires AllBetween(price, newPrice, usages, low, high) && usages != []
    ensures Mul(low, Turnover(usages)) <= Mul(price - newPrice, Used(usages)) <= Mul(high, Turnover(usages))
    ensures Turnover(usages) > 0.0
  {
    var fewer, last := usages[..|usages| - 1], usages[|usages| - 1];
    OneMoreUsage(usages);
    DishSaves(price, newPrice, last);
    hide DishChange, Used, Turnover, DishUse, DishTurnover, Mul;
    NoUsage();
    NothingTimes(low);
    NothingTimes(high);
    NothingTimes(price - newPrice);
    Spread(price - newPrice, Used(fewer), DishUse(last));
    if fewer != [] { SavingIsBetween(price, newPrice, fewer, low, high); }
    OneMoreDish(low, high, DishChange(price, newPrice, last), Turnover(fewer), DishTurnover(last),
                Mul(price - newPrice, Used(fewer)), Mul(price - newPrice, DishUse(last)));
  }

  lemma QuotientIsBetween(low: real, high: real, sum: real, turnover: real)
    requires turnover > 0.0 && Mul(low, turnover) <= sum <= Mul(high, turnover)
    ensures low <= sum / turnover <= high
  {
    var q := sum / turnover;
    assert Mul(q, turnover) == sum;
    hide Mul;
    MulGrows(low, q, turnover);
    MulGrows(q, high, turnover);
  }

  lemma ChangeIsTheQuotient(price: real, newPrice: real, usages: seq<Usage>)
    requires Turnover(usages) > 0.0
    ensures MarginChange(price, newPrice, usages) == Mul(price - newPrice, Used(usages)) / Turnover(usages)
  {
    hide Used, Turnover;
  }

  /**
    The change over the menu lies between the smallest and the largest change of a single dish,
    whatever the demand for each; with one dish demand does not matter at all.
   */
  lemma ChangeIsAmongTheDishes(price: real, newPrice: real, usages: seq<Usage>, low: real, high: real)
    requires usages != [] && AllBetween(price, newPrice, usages, low, high)
    ensures low <= MarginChange(price, newPrice, usages) <= high
  {
    SavingIsBetween(price, newPrice, usages, low, high);
    ChangeIsTheQuotient(price, newPrice, usages);
    hide Turnover, Used, AllBetween, MarginChange, Mul;
    QuotientIsBetween(low, high, Mul(price - newPrice, Used(usages)), Turnover(usages));
  }

  /**
    No supplier switch ever runs by itself: with depleted inventory it is held, an increase of
    more than half is blocked, and everything else waits for a human.
   */
  lemma SwitchOutcome(ingredient: string, price: real, newPrice: real, inventory: Option<real>)
    requires price > 0.0 && newPrice > 0.0
    ensures var outcome := Decide(Policy.SupplierSwitch(ingredient, Policy.Number(newPrice)), Confidence(inventory),
                                  Some(price));
            && !outcome.Executed?
            && (outcome.HeldLowConfidence? <==> inventory.Some? && inventory.value <= 0.0)
            && (outcome.BlockedByCritic? <==> !(inventory.Some? && inventory.value <= 0.0) && newPrice > 1.5 * price)
  {
    var rise := (newPrice - price) / price;
    assert rise * price == newPrice - price;
    Scaled(rise, 0.5, price);
  }
}
