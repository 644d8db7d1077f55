/**
  From raw model output to the one candidate a cycle may attempt: validation with a budget,
  an order-preserving merge with the deterministic candidates, and the ranking.
 */
module Candidates {
  import opened Wrappers
  import opened Json
  import HashChain
  import Policy

  datatype ActionType = PriceChange | SupplierSwitch | MenuSwap | StaffingChange

  datatype Source = Deterministic | Llm

  datatype Candidate = Candidate(
    opportunity: string,
    action: ActionType,
    payload: Payload,
    rationale: string,
    review: bool,
    assumptions: seq<string>,
    source: Source)

  datatype Opportunity = Opportunity(id: string, affected: set<string>, evidence: Payload)

  // ---------------------------------------------------------------- validation

  function ParseAction(value: Json): Option<ActionType> {
    if value == Str("price_change") then Some(PriceChange)
    else if value == Str("supplier_switch") then Some(SupplierSwitch)
    else if value == Str("menu_swap") then Some(MenuSwap)
    else if value == Str("staffing_change") then Some(StaffingChange)
    else None
  }

  function CleanTexts(items: seq<Json>): Option<seq<string>> {
    if items == [] then Some([])
    else if !items[0].Str? then None
    else
      match CleanTexts(items[1..])
      case None => None
      case Some(rest) =>
        Some((if HashChain.Strip(items[0].text) == "" then [] else [HashChain.Strip(items[0].text)]) + rest)
  }

  /** `validate_llm_candidate`: shape only; whatever the model said about review is discarded. */
  function Structural(raw: Json, opportunity: Opportunity): Option<Candidate> {
    if !raw.Obj? then None
    else
      var action := ParseAction(Get(raw.fields, "action_type"));
      var payload, rationale := Get(raw.fields, "payload"), Get(raw.fields, "rationale");
      var review := if "requires_human_review" in raw.fields then raw.fields["requires_human_review"] else Bool(true);
      var listed := if "assumptions" in raw.fields then raw.fields["assumptions"] else Arr([]);
      if action.None? || !payload.Obj? || payload.fields == map[] then None
      else if !rationale.Str? || HashChain.Strip(rationale.text) == "" then None
      else if !review.Bool? || !listed.Arr? || CleanTexts(listed.items).None? then None
      else
        Some(Candidate(opportunity.id, action.value, payload.fields, HashChain.Strip(rationale.text), true,
                       CleanTexts(listed.items).value, Llm))
  }

  /** A JSON number's value; text and truth values do not count as numbers here. */
  function StrictNumber(value: string -> real, j: Json): Option<real> {
    if j.Num? then Some(value(j.numeral)) else None
  }

  /** `validate_candidate_against_opportunity`: only price changes have a check. */
  predicate Grounded(value: string -> real, c: Candidate, opportunity: Opportunity) {
    && c.opportunity == opportunity.id && c.action.PriceChange?
    && c.payload.Keys == {"menu_item_id", "new_price"}
    && c.payload["menu_item_id"].Str? && c.payload["menu_item_id"].text != ""
    && c.payload["menu_item_id"].text in opportunity.affected
    && (match (StrictNumber(value, c.payload["new_price"]),
               StrictNumber(value, Get(opportunity.evidence, "current_price")))
        case (Some(newPrice), Some(price)) =>
          newPrice > 0.0 && price > 0.0 && Policy.Abs(newPrice - price) / price <= Policy.MAX_PRICE_CHANGE
        case _ => false)
  }

  /** What becomes of one raw entry. */
  function Validated(value: string -> real, raw: Json, opportunity: Opportunity,
                     allowed: set<ActionType>): Option<Candidate> {
    match Structural(raw, opportunity)
    case None => None
    case Some(c) => if c.action in allowed && Grounded(value, c, opportunity) then Some(c) else None
  }

  /** Every valid entry, in order. */
  function ValidOnes(value: string -> real, raws: seq<Json>, opportunity: Opportunity,
                     allowed: set<ActionType>): seq<Candidate> {
    if raws == [] then []
    else
      var before := ValidOnes(value, raws[..|raws| - 1], opportunity, allowed);
      match Validated(value, raws[|raws| - 1], opportunity, allowed)
      case None => before
      case Some(c) => before + [c]
  }

  const MAX_LLM_CANDIDATES := 5

  function Take<T>(s: seq<T>, n: nat): seq<T> { if |s| <= n then s else s[..n] }

  lemma {:induction false} ValidOnesGrow(value: string -> real, raws: seq<Json>, opportunity: Opportunity,
                                         allowed: set<ActionType>, n: nat)
    requires n <= |raws|
    ensures ValidOnes(value, raws[..n], opportunity, allowed) <= ValidOnes(value, raws, opportunity, allowed)
  {
    if n == |raws| {
      assert raws[..n] == raws;
    } else {
      var fewer := raws[..|raws| - 1];
      assert fewer[..n] == raws[..n];
      ValidOnesGrow(value, fewer, opportunity, allowed, n);
    }
  }

  /** `LLMReasoner.reason`, from the parsed list on: the first five valid entries, in order. */
  method Reason(value: string -> real, raws: seq<Json>, opportunity: Opportunity, allowed: set<ActionType>)
    returns (candidates: seq<Candidate>)
    ensures candidates
         == if allowed == {} then [] else Take(ValidOnes(value, raws, opportunity, allowed), 5)
  {
    candidates := [];
    if allowed == {} { return; }
    for i := 0 to |raws|
      invariant candidates == ValidOnes(value, raws[..i], opportunity, allowed) && |candidates| <= MAX_LLM_CANDIDATES
    {
      if |candidates| >= MAX_LLM_CANDIDATES {
        ValidOnesGrow(value, raws, opportunity, allowed, i);
        return;
      }
      assert raws[..i + 1][..i] == raws[..i];
      match Validated(value, raws[i], opportunity, allowed)
      case Some(c) => candidates := candidates + [c];
      case None =>
    }
    assert raws[..|raws|] == raws;
  }

  /**
    Whatever the model wrote, an accepted candidate is a flagged price change of an item the
    opportunity names, inside the bound the critic enforces at the price in evidence.
   */
  lemma {:induction false} AcceptedAreGrounded(value: string -> real, raws: seq<Json>, opportunity: Opportunity,
                                               allowed: set<ActionType>, i: nat)
    requires i < |ValidOnes(value, raws, opportunity, allowed)|
    ensures var c := ValidOnes(value, raws, opportunity, allowed)[i];
            && c.review && c.source.Llm? && c.action.PriceChange? && c.opportunity == opportunity.id
            && "menu_item_id" in c.payload && c.payload["menu_item_id"].Str?
            && c.payload["menu_item_id"].text in opportunity.affected
            && "new_price" in c.payload && c.payload["new_price"].Num? && "current_price" in opportunity.evidence
            && opportunity.evidence["current_price"].Num?
            && Policy.CriticApproves(
                 Policy.PriceChange(c.payload["menu_item_id"].text,
                                    Policy.Number(value(c.payload["new_price"].numeral))),
                 Some(value(opportunity.evidence["current_price"].numeral)))
  {
    var before := ValidOnes(value, raws[..|raws| - 1], opportunity, allowed);
    if i < |before| { AcceptedAreGrounded(value, raws[..|raws| - 1], opportunity, allowed, i); }
  }

  /** A list of texts, if the entry has one. */
  predicate TextsOnly(raw: Payload, name: string) {
    name !in raw || (raw[name].Arr? && forall i | 0 <= i < |raw[name].items| :: raw[name].items[i].Str?)
  }

  lemma {:induction false} CleanTextsIff(items: seq<Json>)
    ensures CleanTexts(items).Some? <==> forall i | 0 <= i < |items| :: items[i].Str?
  {
    if items != [] {
      CleanTextsIff(items[1..]);
      assert forall i | 0 < i < |items| :: items[i] == items[1..][i - 1];
    }
  }

  /** A raw entry with a rationale, and flags of the right kind. */
  predicate WellMade(raw: Payload) {
    && Get(raw, "rationale").Str? && HashChain.Strip(Get(raw, "rationale").text) != ""
    && ("requires_human_review" in raw ==> raw["requires_human_review"].Bool?) && TextsOnly(raw, "assumptions")
  }

  /** A payload that moves an affected item to a positive price within three tenths of the one in evidence. */
  predicate WithinEvidence(value: string -> real, payload: Payload, opportunity: Opportunity) {
    && payload.Keys == {"menu_item_id", "new_price"}
    && payload["menu_item_id"].Str? && payload["menu_item_id"].text != ""
    && payload["menu_item_id"].text in opportunity.affected && payload["new_price"].Num?
    && Get(opportunity.evidence, "current_price").Num?
    && var price, newPrice := value(Get(opportunity.evidence, "current_price").numeral),
                              value(payload["new_price"].numeral);
       price > 0.0 && newPrice > 0.0 && 0.7 * price <= newPrice <= 1.3 * price
  }

  /** An entry is accepted exactly when it is an allowed, well-made price change within the evidence. */
  lemma AcceptedIff(value: string -> real, raw: Json, opportunity: Opportunity, allowed: set<ActionType>)
    ensures Validated(value, raw, opportunity, allowed).Some?
            <==> && raw.Obj? && WellMade(raw.fields) && PriceChange in allowed
                 && Get(raw.fields, "action_type") == Str("price_change")
                 && Get(raw.fields, "payload").Obj?
                 && WithinEvidence(value, Get(raw.fields, "payload").fields, opportunity)
    ensures Validated(value, raw, opportunity, allowed).Some? ==>
              var c := Validated(value, raw, opportunity, allowed).value;
              && c.opportunity == opportunity.id && c.action.PriceChange? && c.source.Llm? && c.review
              && Obj(c.payload) == Get(raw.fields, "payload")
              && c.rationale == HashChain.Strip(Get(raw.fields, "rationale").text)
  {
    hide HashChain.Strip, CleanTexts;
    if raw.Obj? {
      if "assumptions" in raw.fields && raw.fields["assumptions"].Arr? {
        CleanTextsIff(raw.fields["assumptions"].items);
      }
      CleanTextsIff([]);
      var payload := Get(raw.fields, "payload");
      if payload.Obj? && payload.fields.Keys == {"menu_item_id", "new_price"} {
        GroundedIff(value, payload.fields, opportunity);
        assert payload.fields != map[] by { assert "new_price" in payload.fields; }
      }
      ActionNames(Get(raw.fields, "action_type"));
    }
  }

  lemma ActionNames(name: Json)
    ensures ParseAction(name) == Some(PriceChange) <==> name == Str("price_change")
  {
  }

  lemma GroundedIff(value: string -> real, payload: Payload, opportunity: Opportunity)
    requires payload.Keys == {"menu_item_id", "new_price"}
    ensures forall c: Candidate | c.payload == payload && c.opportunity == opportunity.id ::
              Grounded(value, c, opportunity)
              <==> c.action.PriceChange? && WithinEvidence(value, payload, opportunity)
  {
    if payload["new_price"].Num? && Get(opportunity.evidence, "current_price").Num? {
      var price := value(Get(opportunity.evidence, "current_price").numeral);
      if price > 0.0 { Policy.RelativeChange(price, value(payload["new_price"].numeral), 0.30); }
    }
  }

  // ---------------------------------------------------------------- merging

  /** `_freeze`: hashable, with Python's equality of numbers and truth values. */
  datatype Frozen = Nothing | Numeric(value: real) | Text(text: string) | Tuple(items: seq<Frozen>)

  function Freeze(value: string -> real, j: Json): Frozen
    decreases j, 1
  {
    match j
    case Null => Nothing
    case Bool(b) => Numeric(if b then 1.0 else 0.0)
    case Num(n) => Numeric(value(n))
    case Str(s) => Text(s)
    case Arr(items) => Tuple(FreezeItems(value, j, items))
    case Obj(fields) => Tuple(FreezeFields(value, j, Sorted(fields.Keys)))
  }

  function FreezeItems(value: string -> real, j: Json, items: seq<Json>): seq<Frozen>
    requires forall i | 0 <= i < |items| :: items[i] < j
    decreases j, 0, |items|
  {
    if items == [] then [] else [Freeze(value, items[0])] + FreezeItems(value, j, items[1..])
  }

  function FreezeFields(value: string -> real, j: Json, keys: seq<string>): seq<Frozen>
    requires j.Obj? && forall k | k in keys :: k in j.fields
    decreases j, 0, |keys|
  {
    if keys == [] then []
    else
      [Tuple([Text(keys[0]), Freeze(value, j.fields[keys[0]])])]
      + FreezeFields(value, j, keys[1..])
  }

  datatype Key = Key(opportunity: string, action: ActionType, payload: Frozen)

  function KeyOf(value: string -> real, c: Candidate): Key {
    Key(c.opportunity, c.action, Freeze(value, Obj(c.payload)))
  }

  function Keys(value: string -> real, list: seq<Candidate>): set<Key> {
    set i | 0 <= i < |list| :: KeyOf(value, list[i])
  }

  lemma KeysOfMore(value: string -> real, list: seq<Candidate>, c: Candidate)
    ensures Keys(value, list + [c]) == Keys(value, list) + {KeyOf(value, c)}
  {
    hide KeyOf;
    var more := list + [c];
    forall key ensures key in Keys(value, more) <==> key in Keys(value, list) || key == KeyOf(value, c) {
      if key in Keys(value, list) {
        var i :| 0 <= i < |list| && key == KeyOf(value, list[i]);
        assert more[i] == list[i];
      }
      assert more[|list|] == c;
    }
  }

  lemma InKeys(value: string -> real, list: seq<Candidate>, i: nat)
    requires i < |list|
    ensures KeyOf(value, list[i]) in Keys(value, list)
  {
  }

  /** The list without later entries of a key already seen. */
  function Distinct(value: string -> real, list: seq<Candidate>): seq<Candidate> {
    if list == [] then []
    else
      var before, last := Distinct(value, list[..|list| - 1]), list[|list| - 1];
      if KeyOf(value, last) in Keys(value, list[..|list| - 1]) then before else before + [last]
  }

  lemma DistinctOfMore(value: string -> real, list: seq<Candidate>, c: Candidate)
    ensures Distinct(value, list + [c])
         == if KeyOf(value, c) in Keys(value, list) then Distinct(value, list) else Distinct(value, list) + [c]
  {
    assert (list + [c])[..|list|] == list;
  }

  /** `merge_candidates`. */
  method Merge(value: string -> real, deterministic: seq<Candidate>, llm: seq<Candidate>)
    returns (result: seq<Candidate>)
    ensures result == Distinct(value, deterministic + llm)
  {
    hide KeyOf, Keys, Distinct;
    var list := deterministic + llm;
    result := [];
    var seen: set<Key> := {};
    EmptyList(value);
    for i := 0 to |list|
      invariant result == Distinct(value, list[..i])
      invariant seen == Keys(value, list[..i])
    {
      var candidate := list[i];
      var key := KeyOf(value, candidate);
      assert list[..i + 1] == list[..i] + [candidate];
      KeysOfMore(value, list[..i], candidate);
      DistinctOfMore(value, list[..i], candidate);
      if key !in seen {
        seen := seen + {key};
        result := result + [candidate];
      }
    }
    assert list[..|list|] == list;
  }

  lemma EmptyList(value: string -> real)
    ensures Distinct(value, []) == [] && Keys(value, []) == {}
  {
  }

  /** Where the kept entries stood: positions of first occurrences. */
  function FirstOnes(value: string -> real, list: seq<Candidate>): (at: seq<nat>)
    ensures forall k | 0 <= k < |at| :: at[k] < |list|
  {
    if list == [] then []
    else
      var before := FirstOnes(value, list[..|list| - 1]);
      if KeyOf(value, list[|list| - 1]) in Keys(value, list[..|list| - 1]) then before else before + [|list| - 1]
  }

  predicate IsFirst(value: string -> real, list: seq<Candidate>, n: nat)
    requires n < |list|
  {
    forall i | 0 <= i < n :: KeyOf(value, list[i]) != KeyOf(value, list[n])
  }

  /** Merging keeps the original order and, of each key, exactly its first entry. */
  lemma {:induction false} MergeKeepsFirstOnes(value: string -> real, list: seq<Candidate>)
    ensures var at, kept := FirstOnes(value, list), Distinct(value, list);
            && |kept| == |at|
            && (forall k | 0 <= k < |at| :: kept[k] == list[at[k]] && IsFirst(value, list, at[k]))
            && (forall k, l | 0 <= k < l < |at| :: at[k] < at[l])
    ensures Keys(value, Distinct(value, list)) == Keys(value, list)
  {
    hide KeyOf, Keys, IsFirst;
    if list == [] {
      EmptyList(value);
    } else {
      var n := |list| - 1;
      var before, last := list[..n], list[n];
      assert list == before + [last];
      MergeKeepsFirstOnes(value, before);
      KeysOfMore(value, before, last);
      KeysOfMore(value, Distinct(value, before), last);
      DistinctOfMore(value, before, last);
      FirstStaysFirst(value, before, last);
    }
  }

  lemma FirstStaysFirst(value: string -> real, list: seq<Candidate>, c: Candidate)
    ensures forall n | 0 <= n < |list| && IsFirst(value, list, n) :: IsFirst(value, list + [c], n)
    ensures KeyOf(value, c) !in Keys(value, list) ==> IsFirst(value, list + [c], |list|)
  {
    hide KeyOf;
    if KeyOf(value, c) !in Keys(value, list) {
      forall i | 0 <= i < |list| ensures KeyOf(value, (list + [c])[i]) != KeyOf(value, c) {
        InKeys(value, list, i);
      }
    }
  }

  /** The deterministic candidates come first and none gives way to a model's duplicate. */
  lemma {:induction false} DeterministicSurvive(value: string -> real, deterministic: seq<Candidate>,
                                                llm: seq<Candidate>)
    ensures Distinct(value, deterministic) <= Distinct(value, deterministic + llm)
    ensures forall k | |Distinct(value, deterministic)| <= k < |Distinct(value, deterministic + llm)| ::
              Distinct(value, deterministic + llm)[k] in llm
  {
    hide Keys, KeyOf;
    if llm == [] {
      assert deterministic + llm == deterministic;
    } else {
      var fewer := llm[..|llm| - 1];
      assert (deterministic + llm)[..|deterministic + llm| - 1] == deterministic + fewer;
      DeterministicSurvive(value, deterministic, fewer);
      assert forall c | c in fewer :: c in llm;
    }
  }

  lemma {:induction false} FieldsFreezeAlikeIff(value: string -> real, a: Json, b: Json, ks: seq<string>,
                                                ls: seq<string>)
    requires a.Obj? && (forall k | k in ks :: k in a.fields)
    requires b.Obj? && (forall k | k in ls :: k in b.fields)
    ensures FreezeFields(value, a, ks) == FreezeFields(value, b, ls)
            <==> ks == ls && forall k | k in ks ::
                   k in b.fields && Freeze(value, a.fields[k]) == Freeze(value, b.fields[k])
    decreases |ks|
  {
    if ks != [] && ls != [] {
      FieldsFreezeAlikeIff(value, a, b, ks[1..], ls[1..]);
      hide Freeze;
      OnePair(value, a, b, ks, ls);
      assert ks == [ks[0]] + ks[1..] && ls == [ls[0]] + ls[1..];
    }
  }

  lemma OnePair(value: string -> real, a: Json, b: Json, ks: seq<string>, ls: seq<string>)
    requires ks != [] && ls != []
    requires a.Obj? && (forall k | k in ks :: k in a.fields)
    requires b.Obj? && (forall k | k in ls :: k in b.fields)
    ensures FreezeFields(value, a, ks) == FreezeFields(value, b, ls)
            <==> ks[0] == ls[0] && Freeze(value, a.fields[ks[0]]) == Freeze(value, b.fields[ls[0]])
                 && FreezeFields(value, a, ks[1..]) == FreezeFields(value, b, ls[1..])
  {
    var x, y := FreezeFields(value, a, ks), FreezeFields(value, b, ls);
    assert x[1..] == FreezeFields(value, a, ks[1..]) && y[1..] == FreezeFields(value, b, ls[1..]);
    assert x == [x[0]] + x[1..] && y == [y[0]] + y[1..];
  }

  /**
    Two payloads count as one action exactly when they name the same fields and every field
    freezes alike; the order in which the fields were written plays no part.
   */
  lemma PayloadsFreezeAlikeIff(value: string -> real, a: Payload, b: Payload)
    ensures Freeze(value, Obj(a)) == Freeze(value, Obj(b))
            <==> a.Keys == b.Keys && forall k | k in a :: Freeze(value, a[k]) == Freeze(value, b[k])
  {
    hide Sorted, FreezeFields;
    SortedSame(a.Keys, b.Keys);
    FieldsFreezeAlikeIff(value, Obj(a), Obj(b), Sorted(a.Keys), Sorted(b.Keys));
  }

  lemma SortedSame(a: set<string>, b: set<string>)
    ensures Sorted(a) == Sorted(b) <==> a == b
    ensures forall k :: k in Sorted(a) <==> k in a
  {
    if Sorted(a) == Sorted(b) {
      assert forall k :: k in a <==> k in Sorted(a);
      assert forall k :: k in b <==> k in Sorted(b);
    }
  }

  /** Two proposed price changes are one candidate exactly when item and amount are the same. */
  lemma SamePriceChangeIff(value: string -> real, a: Candidate, b: Candidate)
    requires a.payload.Keys == {"menu_item_id", "new_price"} && b.payload.Keys == {"menu_item_id", "new_price"}
    requires a.payload["menu_item_id"].Str? && a.payload["new_price"].Num?
    requires b.payload["menu_item_id"].Str? && b.payload["new_price"].Num?
    ensures KeyOf(value, a) == KeyOf(value, b)
            <==> && a.opportunity == b.opportunity && a.action == b.action
                 && a.payload["menu_item_id"] == b.payload["menu_item_id"]
                 && value(a.payload["new_price"].numeral) == value(b.payload["new_price"].numeral)
  {
    PayloadsFreezeAlikeIff(value, a.payload, b.payload);
  }

  /** Payloads with the same frozen form count as one action: a truth value stands for one. */
  lemma TruthCountsAsOne(value: string -> real, c: Candidate)
    requires value("1") == 1.0
    ensures Distinct(value, [c.(payload := map["n" := Num("1")]), c.(payload := map["n" := Bool(true)])])
         == [c.(payload := map["n" := Num("1")])]
  {
    var a, b := c.(payload := map["n" := Num("1")]), c.(payload := map["n" := Bool(true)]);
    SortedOne("n");
    assert a.payload.Keys == {"n"} && b.payload.Keys == {"n"};
    assert Freeze(value, Num("1")) == Freeze(value, Bool(true));
    assert Freeze(value, Obj(a.payload)) == Tuple([Tuple([Text("n"), Numeric(1.0)])]);
    assert Freeze(value, Obj(b.payload)) == Tuple([Tuple([Text("n"), Numeric(1.0)])]);
    assert [a, b] == [a] + [b] && [a] == [] + [a];
    InKeys(value, [a], 0);
    EmptyList(value);
    DistinctOfMore(value, [], a);
    DistinctOfMore(value, [a], b);
  }

  lemma SortedOne(k: string)
    ensures Sorted({k}) == [k]
  {
    assert Least({k}) in {k} && {k} - {k} == {};
  }
}
