/**
  The two pure policy gates: the critic's hard bounds (Component_4/critic.py) and the
  risk classifier (Component_6/risk_classifier.py), over exact rational numbers.
 */
module Policy {
  import opened Wrappers

  /** A numeric payload field: absent, present but not a finite number, or a number. */
  datatype Field = Missing | Malformed | Number(value: real)

  datatype Action =
    | PriceChange(item: string, newPrice: Field)
    | SupplierSwitch(ingredient: string, newSupplierPrice: Field)
    | MenuSwap(item: string, change: string)
    | StaffingChange(headcountDelta: Field)

  const CONFIDENCE_THRESHOLD := 0.5
  const MAX_PRICE_CHANGE := 0.30
  const MAX_SUPPLIER_INCREASE := 0.50
  const MAX_HEADCOUNT_DELTA := 5
  const MIN_AUTONOMOUS_CONFIDENCE := 0.80
  const SMALL_PRICE_CHANGE := 0.10

  function Abs(x: real): real { if x < 0.0 then -x else x }

  predicate IsInteger(x: real) { x.Floor as real == x }

  predicate HasPositiveBaseline(current: Option<real>) { current.Some? && current.value > 0.0 }

  /** `critique`: true means approved. Malformed or unverifiable input fails closed. */
  predicate CriticApproves(action: Action, current: Option<real>) {
    match action
    case PriceChange(_, newPrice) =>
      HasPositiveBaseline(current) && newPrice.Number?
      && !(Abs(newPrice.value - current.value) / current.value > MAX_PRICE_CHANGE)
    case SupplierSwitch(_, newPrice) =>
      HasPositiveBaseline(current) && newPrice.Number?
      && !((newPrice.value - current.value) / current.value > MAX_SUPPLIER_INCREASE)
    case StaffingChange(delta) =>
      delta.Number? && IsInteger(delta.value)
      && !(Abs(delta.value) > MAX_HEADCOUNT_DELTA as real)
    case MenuSwap(_, _) => true
  }

  datatype Risk = Low | Medium | High {
    predicate RequiresApproval() { !Low? }
  }

  function ClassifyPriceChange(newPrice: Field, current: Option<real>): Risk {
    if !HasPositiveBaseline(current) || !newPrice.Number? then High
    else if newPrice.value < 0.0 then High
    else
      var change := Abs(newPrice.value - current.value) / current.value;
      if change > MAX_PRICE_CHANGE then High
      else if change <= SMALL_PRICE_CHANGE then Low
      else Medium
  }

  /** `classify_risk`: confidence is checked before the action is looked at. */
  function ClassifyRisk(action: Action, confidence: Field, current: Option<real>): Risk {
    if !confidence.Number? || !(0.0 <= confidence.value <= 1.0) then High
    else if confidence.value < MIN_AUTONOMOUS_CONFIDENCE then High
    else match action
      case PriceChange(_, newPrice) => ClassifyPriceChange(newPrice, current)
      case SupplierSwitch(_, newPrice) =>
        if !HasPositiveBaseline(current) || !newPrice.Number? || newPrice.value < 0.0 then High
        else Medium
      case MenuSwap(_, _) => High
      case StaffingChange(delta) =>
        if !delta.Number? || !IsInteger(delta.value) then High else Medium
  }

  /** The value a price move of at most `limit` leaves room for, without division. */
  predicate WithinFraction(before: real, after: real, limit: real) {
    Abs(after - before) <= limit * before
  }

  /** Dividing by a positive price and comparing is the same as multiplying out. */
  lemma RelativeChange(before: real, after: real, limit: real)
    requires before > 0.0
    ensures Abs(after - before) / before <= limit <==> WithinFraction(before, after, limit)
  {
    var q := Abs(after - before) / before;
    assert q * before == Abs(after - before);
    if q <= limit {
      assert q * before <= limit * before;
    } else {
      assert q * before > limit * before;
    }
  }

  /**
    What can run without a human: only a price change, only with confidence of at least
    0.80, and only by at most a tenth of a positive baseline.
   */
  lemma AutonomousExactly(action: Action, confidence: Field, current: Option<real>)
    ensures ClassifyRisk(action, confidence, current).Low? <==>
            && action.PriceChange? && action.newPrice.Number?
            && confidence.Number? && 0.80 <= confidence.value <= 1.0
            && current.Some? && current.value > 0.0
            && WithinFraction(current.value, action.newPrice.value, 0.10)
  {
    if action.PriceChange? && HasPositiveBaseline(current) && action.newPrice.Number? {
      RelativeChange(current.value, action.newPrice.value, 0.10);
      RelativeChange(current.value, action.newPrice.value, 0.30);
      if WithinFraction(current.value, action.newPrice.value, 0.10) {
        assert action.newPrice.value >= current.value - 0.10 * current.value > 0.0;
      }
    }
  }

  /** The gates are nested: nothing the classifier calls low risk is blocked by the critic. */
  lemma LowRiskPassesCritic(action: Action, confidence: Field, current: Option<real>)
    requires ClassifyRisk(action, confidence, current).Low?
    ensures CriticApproves(action, current)
  {
    AutonomousExactly(action, confidence, current);
    RelativeChange(current.value, action.newPrice.value, 0.10);
    RelativeChange(current.value, action.newPrice.value, 0.30);
    assert 0.10 * current.value <= 0.30 * current.value;
  }

  /** A whole number of heads from -5 to 5. */
  predicate FewHeads(delta: Field) {
    delta.Number? && delta.value in {-5.0, -4.0, -3.0, -2.0, -1.0, 0.0, 1.0, 2.0, 3.0, 4.0, 5.0}
  }

  /** A price in force that is positive, and a figure to put in its place. */
  predicate Comparable(newPrice: Field, current: Option<real>) {
    newPrice.Number? && current.Some? && current.value > 0.0
  }

  /**
    The critic by its figures: a price may move by three tenths of a positive baseline, a
    supplier may cost half as much again, five heads may come or go, and a menu change passes.
   */
  lemma CriticByTheFigures(action: Action, current: Option<real>)
    ensures CriticApproves(action, current) <==>
            match action
            case PriceChange(_, p) =>
              Comparable(p, current) && 0.7 * current.value <= p.value <= 1.3 * current.value
            case SupplierSwitch(_, p) => Comparable(p, current) && p.value <= 1.5 * current.value
            case StaffingChange(delta) => FewHeads(delta)
            case MenuSwap(_, _) => true
  {
    match action
    case PriceChange(_, p) =>
      if Comparable(p, current) { RelativeChange(current.value, p.value, 0.30); }
    case SupplierSwitch(_, p) =>
      if Comparable(p, current) {
        var q := (p.value - current.value) / current.value;
        assert q * current.value == p.value - current.value;
        if q > 0.50 { assert q * current.value > 0.50 * current.value; }
        if q <= 0.50 { assert q * current.value <= 0.50 * current.value; }
      }
    case StaffingChange(delta) => FewHeadsIff(delta);
    case MenuSwap(_, _) =>
  }

  lemma FewHeadsIff(delta: Field)
    ensures FewHeads(delta) <==> delta.Number? && IsInteger(delta.value) && !(Abs(delta.value) > 5.0)
  {
    if delta.Number? && IsInteger(delta.value) {
      var n := delta.value.Floor;
      if !(Abs(delta.value) > 5.0) {
        assert -5 <= n <= 5;
      }
    }
  }

  /** What needs a human, by the figures. */
  lemma ApprovalByTheFigures(action: Action, confidence: real, current: Option<real>)
    ensures ClassifyRisk(action, Number(confidence), current).RequiresApproval() <==>
            !(action.PriceChange? && 0.8 <= confidence <= 1.0 && Comparable(action.newPrice, current)
              && 0.9 * current.value <= action.newPrice.value <= 1.1 * current.value)
  {
    AutonomousExactly(action, Number(confidence), current);
    hide ClassifyRisk;
  }
}
