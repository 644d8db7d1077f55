/**
  The pricing pipeline over exact rational numbers: what the simulator predicts for a price
  change, which gate a change ends at, and when the reasoner's candidates can pay off.
  Rounding is stated where the code rounds; any rounding to nearest is allowed there.
 */
module Pricing {
  import opened Wrappers
  import opened Policy

  const ELASTICITY := -1.2
  const FALLBACK_COST_RATIO := 0.30

  datatype Prediction = Prediction(marginChange: real, demandChange: real, confidence: real)

  function Max(a: real, b: real): real { if a >= b then a else b }

  function Min(a: real, b: real): real { if a <= b then a else b }

  // ---------------------------------------------------------------- the simulator

  /** Relative change of contribution times demand, from one price to another at a given cost. */
  function ContributionChange(price: real, newPrice: real, cost: real, demand: real): real
    requires price > 0.0
  {
    var demandChange := ELASTICITY * ((newPrice - price) / price);
    var predictedDemand := demand * (1.0 + demandChange);
    var baseline := (price - cost) * demand;
    var predicted := (newPrice - cost) * Max(0.0, predictedDemand);
    if baseline > 0.0 then (predicted - baseline) / baseline else (newPrice - price) / price
  }

  /** `simulate_price_change`, before its last rounding. */
  function SimulatePriceChange(price: real, newPrice: real, recipeCost: Option<real>, history: Option<real>): Prediction
    requires price > 0.0 && newPrice > 0.0
  {
    var change := (newPrice - price) / price;
    var confidence := Max(0.30, 1.0 - Abs(change) * 1.5);
    var demand := history.GetOr(1.0);
    match recipeCost
    case Some(cost) =>
      if price - cost > 0.0 then
        Prediction(ContributionChange(price, newPrice, cost, demand), ELASTICITY * change, confidence)
      else
        Prediction(change, ELASTICITY * change, Min(confidence, 0.45))
    case None =>
      var cost := price * FALLBACK_COST_RATIO;
      Prediction(ContributionChange(price, newPrice, cost, demand), ELASTICITY * change, Min(confidence, 0.55))
  }

  /** A rounding to nearest on a decimal grid; ties may go either way. */
  predicate RoundsTo(x: real, r: real, perUnit: real) {
    (r * perUnit).Floor as real == r * perUnit && -0.5 <= x * perUnit - r * perUnit <= 0.5
  }

  predicate RoundsToCents(x: real, r: real) { RoundsTo(x, r, 100.0) }
  predicate RoundsConfidence(x: real, r: real) { RoundsTo(x, r, 1000.0) }
  predicate RoundsMargin(x: real, r: real) { RoundsTo(x, r, 10000.0) }

  /** The recorded demand of an item, if any, is positive: non-positive rows are skipped. */
  predicate PositiveHistory(history: Option<real>) { history.Some? ==> history.value > 0.0 }

  /** The margin of a change, multiplied out: the demand baseline has cancelled. */
  lemma MarginMultiplied(price: real, newPrice: real, cost: real, demand: real)
    requires price > 0.0 && cost < price && demand > 0.0
    requires 6.0 * (newPrice - price) <= 5.0 * price
    ensures ContributionChange(price, newPrice, cost, demand) * (price * (price - cost))
         == 1.2 * (newPrice - price) * (cost - price / 6.0 - (newPrice - price))
  {
    var x := (newPrice - price) / price;
    var m := ContributionChange(price, newPrice, cost, demand);
    assert x * price == newPrice - price;
    FactorIsNonNegative(price, newPrice - price, x);
    var factor := 1.0 - 1.2 * x;
    var kept := price - cost;
    assert demand * factor >= 0.0;
    assert Max(0.0, demand * (1.0 + ELASTICITY * x)) == demand * factor;
    Cancel(newPrice - cost, kept, factor, demand, m);
    assert m * kept == (newPrice - cost) * factor - kept;
    Expand(price, newPrice, cost, x);
    assert m * (price * kept) == (m * kept) * price;
  }

  lemma Scaled(x: real, y: real, unit: real)
    requires unit > 0.0
    ensures x <= y <==> x * unit <= y * unit
  {
    if x <= y { assert (y - x) * unit >= 0.0; } else { assert (x - y) * unit > 0.0; }
  }

  lemma FactorIsNonNegative(price: real, rise: real, x: real)
    requires price > 0.0 && x * price == rise && 6.0 * rise <= 5.0 * price
    ensures 1.0 - 1.2 * x >= 0.0
  {
    Scaled(x, 5.0 / 6.0, price);
  }

  lemma Cancel(gain: real, kept: real, factor: real, demand: real, m: real)
    requires kept > 0.0 && demand > 0.0
    requires m == (gain * (demand * factor) - kept * demand) / (kept * demand)
    ensures m * kept == gain * factor - kept
  {
    assert kept * demand > 0.0;
    assert m * (kept * demand) == gain * (demand * factor) - kept * demand;
    assert (m * kept) * demand == (gain * factor - kept) * demand;
  }

  lemma Expand(price: real, newPrice: real, cost: real, x: real)
    requires x * price == newPrice - price
    ensures ((newPrice - cost) * (1.0 - 1.2 * x) - (price - cost)) * price
         == 1.2 * (newPrice - price) * (cost - price / 6.0 - (newPrice - price))
  {
    var d := newPrice - price;
    assert (newPrice - cost) * (1.0 - 1.2 * x) * price == (newPrice - cost) * (price - 1.2 * d);
  }

  /** The prediction does not depend on how much of an item is sold, or whether that is known. */
  lemma DemandCancels(price: real, newPrice: real, cost: Option<real>, one: Option<real>, other: Option<real>)
    requires price > 0.0 && newPrice > 0.0 && PositiveHistory(one) && PositiveHistory(other)
    ensures SimulatePriceChange(price, newPrice, cost, one) == SimulatePriceChange(price, newPrice, cost, other)
  {
    var known := cost.GetOr(price * FALLBACK_COST_RATIO);
    if price - known > 0.0 {
      SameMargin(price, newPrice, known, one.GetOr(1.0), other.GetOr(1.0));
    }
  }

  lemma SameMargin(price: real, newPrice: real, cost: real, one: real, other: real)
    requires price > 0.0 && cost < price && one > 0.0 && other > 0.0
    ensures ContributionChange(price, newPrice, cost, one) == ContributionChange(price, newPrice, cost, other)
  {
    if 6.0 * (newPrice - price) <= 5.0 * price {
      MarginMultiplied(price, newPrice, cost, one);
      MarginMultiplied(price, newPrice, cost, other);
      var scale := price * (price - cost);
      assert scale > 0.0;
      var m, n := ContributionChange(price, newPrice, cost, one), ContributionChange(price, newPrice, cost, other);
      assert (m - n) * scale == 0.0;
    } else {
      DemandVanishes(price, newPrice, cost, one);
      DemandVanishes(price, newPrice, cost, other);
    }
  }

  /** A rise beyond five sixths of the price is predicted to sell nothing. */
  lemma DemandVanishes(price: real, newPrice: real, cost: real, demand: real)
    requires price > 0.0 && cost < price && demand > 0.0
    requires 6.0 * (newPrice - price) > 5.0 * price
    ensures ContributionChange(price, newPrice, cost, demand) == -1.0
  {
    var x := (newPrice - price) / price;
    assert x * price == newPrice - price;
    Scaled(x, 5.0 / 6.0, price);
    assert demand * (1.0 + ELASTICITY * x) <= 0.0;
    var baseline := (price - cost) * demand;
    assert baseline > 0.0;
    assert (0.0 - baseline) / baseline == -1.0 by {
      assert (0.0 - baseline) == -1.0 * baseline;
    }
  }

  /** A rise pays exactly when it is smaller than cost/price - 1/6 of the price. */
  lemma RisePaysIff(price: real, newPrice: real, cost: real, history: Option<real>)
    requires price > 0.0 && 0.0 <= cost < price && newPrice > price && PositiveHistory(history)
    ensures SimulatePriceChange(price, newPrice, Some(cost), history).marginChange > 0.0
            <==> newPrice - price < cost - price / 6.0
  {
    var demand := history.GetOr(1.0);
    if 6.0 * (newPrice - price) <= 5.0 * price {
      MarginMultiplied(price, newPrice, cost, demand);
      SignOfMargin(ContributionChange(price, newPrice, cost, demand), price * (price - cost), newPrice - price,
                   cost - price / 6.0 - (newPrice - price));
    } else {
      DemandVanishes(price, newPrice, cost, demand);
    }
  }

  lemma SignOfMargin(m: real, scale: real, rise: real, room: real)
    requires scale > 0.0 && m * scale == 1.2 * rise * room
    ensures m > 0.0 <==> rise * room > 0.0
    ensures rise > 0.0 ==> (m > 0.0 <==> room > 0.0)
    ensures rise < 0.0 ==> (m > 0.0 <==> room < 0.0)
  {
    if m > 0.0 { assert m * scale > 0.0; } else { assert m * scale <= 0.0; }
    if rise > 0.0 {
      if room > 0.0 { assert rise * room > 0.0; } else { assert rise * room <= 0.0; }
    } else if rise < 0.0 {
      if room < 0.0 { assert rise * room > 0.0; } else { assert rise * room <= 0.0; }
    }
  }

  /** A cut pays exactly when it is larger than cost/price - 1/6 falls below zero. */
  lemma CutPaysIff(price: real, newPrice: real, cost: real, history: Option<real>)
    requires price > 0.0 && 0.0 <= cost < price && 0.0 < newPrice < price && PositiveHistory(history)
    ensures SimulatePriceChange(price, newPrice, Some(cost), history).marginChange > 0.0
            <==> price - newPrice < price / 6.0 - cost
  {
    var demand := history.GetOr(1.0);
    MarginMultiplied(price, newPrice, cost, demand);
    SignOfMargin(ContributionChange(price, newPrice, cost, demand), price * (price - cost), newPrice - price,
                 cost - price / 6.0 - (newPrice - price));
  }

  // ---------------------------------------------------------------- the gates

  datatype Outcome = HeldLowConfidence | BlockedByCritic | PendingApproval | Executed

  /** Confidence gate, critic, risk: the order `execute_tool_call` takes them in. */
  function Decide(action: Action, confidence: real, current: Option<real>): Outcome {
    if !(confidence >= CONFIDENCE_THRESHOLD) then HeldLowConfidence
    else if !CriticApproves(action, current) then BlockedByCritic
    else if ClassifyRisk(action, Number(confidence), current).RequiresApproval() then PendingApproval
    else Executed
  }

  /** The outcome of a price change whose recorded confidence is `confidence`. */
  function PriceOutcome(item: string, price: real, newPrice: real, confidence: real): Outcome {
    Decide(PriceChange(item, Number(newPrice)), confidence, Some(price))
  }

  /** Confidence in terms of the relative change, rounded or not. */
  lemma ConfidenceBands(price: real, newPrice: real, confidence: real, rounded: real)
    requires price > 0.0 && newPrice > 0.0
    requires confidence == Max(0.30, 1.0 - Abs((newPrice - price) / price) * 1.5)
             && RoundsConfidence(confidence, rounded)
    ensures WithinFraction(price, newPrice, 0.10) ==> 0.80 <= rounded <= 1.0
    ensures WithinFraction(price, newPrice, 0.30) ==> 0.50 <= rounded
    ensures 0.0 <= rounded <= 1.0
  {
    var x := Abs((newPrice - price) / price);
    AbsOfQuotient(price, newPrice);
    RelativeChange(price, newPrice, 0.10);
    RelativeChange(price, newPrice, 0.30);
    if WithinFraction(price, newPrice, 0.10) { assert confidence >= 0.85; }
    if WithinFraction(price, newPrice, 0.30) { assert confidence >= 0.55; }
    assert confidence <= 1.0;
    RoundsBelowOne(confidence, rounded);
  }

  lemma RoundsBelowOne(x: real, r: real)
    requires 0.0 <= x <= 1.0 && RoundsConfidence(x, r)
    ensures 0.0 <= r <= 1.0
  {
    var n := (r * 1000.0).Floor;
    assert -0.5 <= n as real <= 1000.5;
    assert 0 <= n <= 1000;
  }

  lemma AbsOfQuotient(price: real, newPrice: real)
    requires price > 0.0
    ensures Abs((newPrice - price) / price) == Abs(newPrice - price) / price
  {
    var x := (newPrice - price) / price;
    assert x * price == newPrice - price;
    Scaled(0.0, x, price);
    if newPrice < price { assert -x * price == price - newPrice; }
  }

  /**
    With a recipe cost below the price, the size of the change alone decides: up to a tenth
    runs, up to three tenths waits for a reviewer, beyond that the critic blocks what
    confidence has not already held.
   */
  lemma OutcomeTable(item: string, price: real, newPrice: real, cost: real, history: Option<real>, confidence: real)
    requires price > 0.0 && newPrice > 0.0 && cost < price && PositiveHistory(history)
    requires RoundsConfidence(SimulatePriceChange(price, newPrice, Some(cost), history).confidence, confidence)
    ensures PriceOutcome(item, price, newPrice, confidence).Executed? <==> WithinFraction(price, newPrice, 0.10)
    ensures PriceOutcome(item, price, newPrice, confidence).PendingApproval?
            <==> !WithinFraction(price, newPrice, 0.10) && WithinFraction(price, newPrice, 0.30)
    ensures PriceOutcome(item, price, newPrice, confidence).BlockedByCritic?
            <==> !WithinFraction(price, newPrice, 0.30) && confidence >= 0.5
    ensures PriceOutcome(item, price, newPrice, confidence).HeldLowConfidence?
            <==> !WithinFraction(price, newPrice, 0.30) && confidence < 0.5
  {
    ConfidenceBands(price, newPrice, SimulatePriceChange(price, newPrice, Some(cost), history).confidence, confidence);
    Gates(item, price, newPrice, confidence);
  }

  /** What the two policy gates make of a price change that confidence lets through. */
  lemma Gates(item: string, price: real, newPrice: real, confidence: real)
    requires price > 0.0 && newPrice > 0.0 && 0.0 <= confidence <= 1.0
    ensures CriticApproves(PriceChange(item, Number(newPrice)), Some(price)) <==> WithinFraction(price, newPrice, 0.30)
    ensures ClassifyRisk(PriceChange(item, Number(newPrice)), Number(confidence), Some(price)).Low?
            <==> confidence >= 0.80 && WithinFraction(price, newPrice, 0.10)
    ensures WithinFraction(price, newPrice, 0.10) ==> WithinFraction(price, newPrice, 0.30)
  {
    RelativeChange(price, newPrice, 0.30);
    AutonomousExactly(PriceChange(item, Number(newPrice)), Number(confidence), Some(price));
    assert 0.10 * price <= 0.30 * price;
  }

  /** Without a recipe cost, or with one that eats the price, nothing runs without a human. */
  lemma UnknownCostNeverRuns(item: string, price: real, newPrice: real, cost: Option<real>, history: Option<real>,
                             confidence: real)
    requires price > 0.0 && newPrice > 0.0 && PositiveHistory(history) && (cost.Some? ==> cost.value >= price)
    requires RoundsConfidence(SimulatePriceChange(price, newPrice, cost, history).confidence, confidence)
    ensures cost.Some? ==> PriceOutcome(item, price, newPrice, confidence).HeldLowConfidence?
    ensures cost.None? ==>
              && !PriceOutcome(item, price, newPrice, confidence).Executed?
              && (PriceOutcome(item, price, newPrice, confidence).PendingApproval?
                  <==> WithinFraction(price, newPrice, 0.30))
  {
    var predicted := SimulatePriceChange(price, newPrice, cost, history).confidence;
    assert 0.30 <= predicted <= 0.55;
    RoundsBelowOne(predicted, confidence);
    Gates(item, price, newPrice, confidence);
    AbsOfQuotient(price, newPrice);
    RelativeChange(price, newPrice, 0.30);
    assert confidence * 1000.0 <= 550.5;
  }

  // ---------------------------------------------------------------- detector and reasoner

  const TARGET_MARGIN := 0.35
  const MIN_SHORTFALL := 0.05
  const STEP := 0.25
  const RECOVERY_DISCOUNT := 0.05

  /** `_price_to_step`: to the nearest quarter, halves up. */
  function ToStep(price: real): real { (price / STEP + 0.5).Floor as real * STEP }

  predicate OnStep(price: real) { (price / STEP).Floor as real == price / STEP }

  /** The detector's margin flag for an active item. */
  predicate Flagged(price: real, cost: Option<real>) {
    cost.Some? && price > 0.0 && TARGET_MARGIN - (price - cost.value) / price >= MIN_SHORTFALL
  }

  /** `_margin_candidate`: the proposed price, from the rounded evidence. */
  function MarginCandidate(price: real, cost: real): (candidate: Option<real>)
    ensures candidate.Some? ==> candidate.value > 0.0
  {
    if price <= 0.0 || cost < 0.0 then None
    else
      var target := cost / (1.0 - TARGET_MARGIN);
      var proposed := if target <= price then price + STEP else target;
      if ToStep(proposed) <= 0.0 then None else Some(ToStep(proposed))
  }

  /** `_demand_candidate`: a cut of a twentieth, to the nearest quarter. */
  function DemandCandidate(price: real): (candidate: Option<real>)
    ensures candidate.Some? ==> candidate.value > 0.0
  {
    if price <= 0.0 then None
    else
      var proposed := price * (1.0 - RECOVERY_DISCOUNT);
      if proposed <= 0.0 || ToStep(proposed) <= 0.0 then None else Some(ToStep(proposed))
  }

  lemma StepIsNear(price: real)
    ensures OnStep(ToStep(price))
    ensures price - 0.125 < ToStep(price) <= price + 0.125
  {
    var n := (price / STEP + 0.5).Floor;
    assert ToStep(price) == n as real * STEP;
    assert n as real <= price / STEP + 0.5 < n as real + 1.0;
  }

  /** A flagged item costs at least seven tenths of its price. */
  lemma FlaggedCost(price: real, cost: real)
    requires Flagged(price, Some(cost))
    ensures cost >= 0.70 * price
  {
    var margin := (price - cost) / price;
    assert margin * price == price - cost;
    Scaled(margin, 0.30, price);
  }

  /** What flagging, cent and step rounding leave of the proposed rise, in fractions of the price. */
  lemma ProposedRise(price: real, cost: real, evidence: real)
    requires price >= 2.0 && Flagged(price, Some(cost)) && RoundsToCents(cost, evidence)
    ensures MarginCandidate(price, evidence).Some?
    ensures var newPrice := MarginCandidate(price, evidence).value;
            && OnStep(newPrice) && newPrice - price >= 0.0105 * price
            && 0.65 * (newPrice - price) <= cost - 0.65 * price + 0.08625
  {
    FlaggedCost(price, cost);
    assert cost - 0.005 <= evidence <= cost + 0.005;
    var target := evidence / (1.0 - TARGET_MARGIN);
    assert target * 0.65 == evidence;
    assert 0.65 * price < evidence;
    assert target > price;
    StepIsNear(target);
  }

  /** A margin change this far from zero survives rounding to four decimals. */
  lemma PositiveSurvivesRounding(margin: real, marginRounded: real, confidence: real, confidenceRounded: real)
    requires margin >= 0.001 && RoundsMargin(margin, marginRounded)
    requires 0.30 <= confidence && RoundsConfidence(confidence, confidenceRounded)
    ensures marginRounded > 0.0 && confidenceRounded * marginRounded > 0.0
  {
    assert marginRounded * 10000.0 >= 9.5;
    assert confidenceRounded * 1000.0 >= 299.5;
  }

  lemma MarginIsAtLeast(m: real, price: real, kept: real, rise: real, room: real)
    requires price > 0.0 && 0.0 < kept <= 0.30 * price && rise >= 0.0105 * price && room >= 0.22 * price
    requires m * (price * kept) == 1.2 * rise * room
    ensures m >= 0.001
  {
    Product(rise, 0.0105 * price, room, 0.22 * price);
    assert 0.0105 * price * (0.22 * price) == 0.00231 * (price * price);
    Product(price, price, 0.30 * price, kept);
    var scale := price * kept;
    assert 0.0 < scale <= 0.30 * (price * price);
    Scaled(0.001, m, scale);
  }

  lemma Product(a: real, b: real, c: real, d: real)
    requires a >= b >= 0.0 && c >= d >= 0.0
    ensures a * c >= b * d
  {
    assert (a - b) * c >= 0.0 && b * (c - d) >= 0.0;
  }

  lemma RoomIsWide(price: real, cost: real, rise: real)
    requires price >= 2.0 && 0.70 * price <= cost < price && 0.65 * rise <= cost - 0.65 * price + 0.08625
    ensures cost - price / 6.0 - rise >= 0.22 * price && 6.0 * rise <= 5.0 * price
  {
  }

  lemma PredictionIsBounded(price: real, newPrice: real, cost: real, history: Option<real>)
    requires price >= 2.0 && cost >= 0.70 * price && PositiveHistory(history)
    requires newPrice - price >= 0.0105 * price && 0.65 * (newPrice - price) <= cost - 0.65 * price + 0.08625
    ensures var predicted := SimulatePriceChange(price, newPrice, Some(cost), history);
            predicted.marginChange >= 0.001 && predicted.confidence >= 0.30
  {
    var rise := newPrice - price;
    var m := SimulatePriceChange(price, newPrice, Some(cost), history).marginChange;
    if cost < price {
      RoomIsWide(price, cost, rise);
      MarginMultiplied(price, newPrice, cost, history.GetOr(1.0));
      MarginIsAtLeast(m, price, price - cost, rise, cost - price / 6.0 - rise);
    } else {
      assert m * price == rise;
      Scaled(0.0105, m, price);
    }
  }

  /**
    For every item priced at two dollars or more that the detector flags, the reasoner's
    candidate is a price strictly above the current one, on the quarter-dollar grid, and its
    predicted margin change and default score stay positive through every rounding.
   */
  lemma MarginCandidatePays(price: real, cost: real, evidence: real, history: Option<real>)
    requires price >= 2.0 && Flagged(price, Some(cost)) && RoundsToCents(cost, evidence) && PositiveHistory(history)
    ensures MarginCandidate(price, evidence).Some?
    ensures var newPrice := MarginCandidate(price, evidence).value;
            var predicted := SimulatePriceChange(price, newPrice, Some(cost), history);
            && newPrice > price && OnStep(newPrice)
            && forall margin, confidence
                 | RoundsMargin(predicted.marginChange, margin) && RoundsConfidence(predicted.confidence, confidence) ::
                 margin > 0.0 && confidence * margin > 0.0
  {
    hide SimulatePriceChange, RoundsMargin, RoundsConfidence, RoundsToCents, MarginCandidate;
    ProposedRise(price, cost, evidence);
    FlaggedCost(price, cost);
    var newPrice := MarginCandidate(price, evidence).value;
    PredictionIsBounded(price, newPrice, cost, history);
    var predicted := SimulatePriceChange(price, newPrice, Some(cost), history);
    forall margin, confidence
      | RoundsMargin(predicted.marginChange, margin) && RoundsConfidence(predicted.confidence, confidence)
      ensures margin > 0.0 && confidence * margin > 0.0
    {
      PositiveSurvivesRounding(predicted.marginChange, margin, predicted.confidence, confidence);
    }
  }

  /** The lowest step strictly above a price. */
  function NextStep(price: real): real { ((price / STEP).Floor as real + 1.0) * STEP }

  /** A proposal rounds to above a price exactly when it is halfway to the next step. */
  lemma StepRisesIff(price: real, proposed: real)
    ensures ToStep(proposed) > price <==> proposed >= NextStep(price) - 0.125
  {
    var here, there := (price / STEP).Floor, (proposed / STEP + 0.5).Floor;
    assert here as real <= price / STEP < here as real + 1.0;
    assert there as real <= proposed / STEP + 0.5 < there as real + 1.0;
    assert price / STEP * STEP == price && proposed / STEP * STEP == proposed;
    assert there > here <==> proposed / STEP + 0.5 >= here as real + 1.0;
    assert there > here <==> there as real * STEP > price;
  }

  /**
    Below two dollars the step can swallow the rise. The margin candidate is above the
    current price exactly when the cost is at most 0.65 of the price, or large enough that the
    target reaches halfway to the next step.
   */
  lemma MarginCandidateRisesIff(price: real, cost: real)
    requires price > 0.0 && cost >= 0.0
    ensures (MarginCandidate(price, cost).Some? && MarginCandidate(price, cost).value > price)
            <==> cost <= 0.65 * price || cost >= 0.65 * (NextStep(price) - 0.125)
  {
    var target := cost / (1.0 - TARGET_MARGIN);
    assert target * 0.65 == cost;
    StepRisesIff(price, target);
    StepIsNear(price + STEP);
  }

  /** A flagged item whose only candidate is the price it already has. */
  lemma CheapItemStandsStill()
    ensures Flagged(1.50, Some(1.05)) && MarginCandidate(1.50, 1.05) == Some(1.50)
    ensures SimulatePriceChange(1.50, 1.50, Some(1.05), None).marginChange == 0.0
  {
    var target := 1.05 / (1.0 - TARGET_MARGIN);
    assert target * 0.65 == 1.05;
    assert 6.0 <= target / STEP + 0.5 < 7.0;
    assert (target / STEP + 0.5).Floor == 6;
    assert (1.50 - 1.05) / 1.50 == 0.30;
  }

  /** The lowest step that is not below a price. */
  function StepAtOrAbove(price: real): real { -((-price / STEP).Floor as real) * STEP }

  /** A proposal rounds to below a price exactly when it stays short of halfway to its step. */
  lemma StepFallsIff(price: real, proposed: real)
    ensures ToStep(proposed) < price <==> proposed < StepAtOrAbove(price) - 0.125
  {
    var up, there := -((-price / STEP).Floor), (proposed / STEP + 0.5).Floor;
    assert -up as real <= -price / STEP < -up as real + 1.0;
    assert there as real <= proposed / STEP + 0.5 < there as real + 1.0;
    assert -price / STEP * STEP == -price && proposed / STEP * STEP == proposed;
    assert there < up <==> proposed / STEP + 0.5 < up as real;
    assert there < up <==> there as real * STEP < price;
  }

  /**
    At any price, the demand candidate is a cut of at most a tenth exactly when a twentieth less
    falls short of halfway to the step at or above the price, and not short of halfway to the
    step at or above nine tenths of it.
   */
  lemma DemandCandidateCutsIff(price: real)
    requires price > 0.0
    ensures var c := DemandCandidate(price);
            (c.Some? && c.value < price && WithinFraction(price, c.value, 0.10))
            <==> StepAtOrAbove(0.9 * price) - 0.125 <= 0.95 * price < StepAtOrAbove(price) - 0.125
  {
    StepFallsIff(price, 0.95 * price);
    StepFallsIff(0.9 * price, 0.95 * price);
    assert price * (1.0 - RECOVERY_DISCOUNT) == 0.95 * price;
  }

  /** A cheap item whose candidate is cut by a sixth. */
  lemma CheapItemIsCutTooFar()
    ensures DemandCandidate(0.60) == Some(0.50) && !WithinFraction(0.60, 0.50, 0.10)
  {
    assert (0.60 * 0.95 / STEP + 0.5).Floor == 2;
  }

  /** Above two dollars fifty the demand candidate is a real cut of at most a tenth, on the grid. */
  lemma DemandCandidateIsASmallCut(price: real)
    requires price > 2.50
    ensures DemandCandidate(price).Some?
    ensures var newPrice := DemandCandidate(price).value;
            0.0 < newPrice < price && WithinFraction(price, newPrice, 0.10) && OnStep(newPrice)
  {
    StepIsNear(price * (1.0 - RECOVERY_DISCOUNT));
  }

  lemma DemandCandidateStandsStill()
    ensures DemandCandidate(2.50) == Some(2.50)
  {
    assert (2.50 * 0.95 / STEP + 0.5).Floor == 10;
  }

  /** The cut it proposes pays only for items that cost next to nothing to make. */
  lemma DemandCandidatePaysIff(price: real, cost: real, history: Option<real>)
    requires price > 2.50 && 0.0 <= cost < price && PositiveHistory(history)
    ensures DemandCandidate(price).Some?
    ensures var newPrice := DemandCandidate(price).value;
            var pays := SimulatePriceChange(price, newPrice, Some(cost), history).marginChange > 0.0;
            && (pays <==> cost < price / 6.0 - (price - newPrice))
            && (pays ==> cost < 7.0 * price / 60.0 + 0.125)
            && SimulatePriceChange(price, newPrice, None, history).marginChange <= 0.0
  {
    DemandCandidateIsASmallCut(price);
    var newPrice := DemandCandidate(price).value;
    StepIsNear(price * (1.0 - RECOVERY_DISCOUNT));
    CutPaysIff(price, newPrice, cost, history);
    CutPaysIff(price, newPrice, price * FALLBACK_COST_RATIO, history);
  }
}
