/**
 * Normalisation of the provider's hints into the backend's `FoodItem` records:
 * keep at most the first twenty hints, fill in missing fields with defaults,
 * drop every hint without a label, and map the rest, in order. A hint among the
 * first twenty that the backend cannot read makes the whole normalisation raise.
 *
 * Python's `round(x, 1)` on binary floats is not modelled; every operation takes
 * the rounding as a parameter `round1` and the contracts say where it is applied.
 */
module Normalize {
  import opened Wrappers
  import opened Edamam

  /** At most this many hints are ever looked at. */
  const MaxResults: nat := 20

  const EnergyCode: string := "ENERC_KCAL"
  const ProteinCode: string := "PROCNT"
  const CarbsCode: string := "CHOCDF"
  const FatCode: string := "FAT"

  /** The record the endpoint returns for each food. */
  datatype FoodItem = FoodItem(id: string, name: string, calories: real, protein: real, carbs: real, fat: real)

  /** What a hint without a usable `food` object reads as: an empty object. */
  const NoFood: Food := Food(Missing, Missing, Missing)

  /** The `food` object of a hint, read with an empty object as its default. */
  function FoodOf(h: Hint): (f: Food)
    ensures h.Hint? && h.food.Value? ==> f == h.food.v
    ensures !(h.Hint? && h.food.Value?) ==> f == Food(Missing, Missing, Missing)
  {
    if h.Hint? && h.food.Value? then h.food.v else NoFood
  }

  /** Python's truth value of a string field: a non-empty string, or a truthy value of another type. */
  predicate Truthy(f: Field<string>)
    ensures f.Missing? ==> !Truthy(f)
    ensures f.Value? ==> (Truthy(f) <==> f.v != "")
    ensures f.Invalid? ==> (Truthy(f) <==> f.truthy)
  {
    match f
    case Missing => false
    case Value(s) => s != ""
    case Invalid(truthy, _) => truthy
  }

  /** The label a hint is read with; `""` unless the food's `label` is a string. */
  function LabelOf(h: Hint): (text: string)
    ensures (h.Hint? && h.food.Value? && h.food.v.foodLabel.Value?) ==> text == h.food.v.foodLabel.v
    ensures !(h.Hint? && h.food.Value? && h.food.v.foodLabel.Value?) ==> text == ""
  {
    match FoodOf(h).foodLabel
    case Value(s) => s
    case _ => ""
  }

  /** The value of nutrient `code`, or 0.0 when the food has no nutrient map or the map lacks the code. */
  function NutrientOf(h: Hint, code: string): (v: real)
    ensures (FoodOf(h).nutrients.Value? && code in FoodOf(h).nutrients.v && FoodOf(h).nutrients.v[code].Amount?)
              ==> v == FoodOf(h).nutrients.v[code].x
    ensures (FoodOf(h).nutrients.Missing? || (FoodOf(h).nutrients.Value? && code !in FoodOf(h).nutrients.v))
              ==> v == 0.0
  {
    match FoodOf(h).nutrients
    case Value(m) => if code in m && m[code].Amount? then m[code].x else 0.0
    case _ => 0.0
  }

  /** A hint yields an item exactly when its label is a non-empty string (the `if label:` test). */
  predicate Labeled(h: Hint)
    ensures Labeled(h) <==> h.Hint? && h.food.Value? && h.food.v.foodLabel.Value? && h.food.v.foodLabel.v != ""
  {
    LabelOf(h) != ""
  }

  /** The item built from one hint, whether or not it is kept. */
  function ToItem(h: Hint, round1: real -> real): (item: FoodItem)
    ensures item.id == if FoodOf(h).foodId.Value? then FoodOf(h).foodId.v else ""
    ensures item.name == LabelOf(h)
    ensures item.calories == round1(NutrientOf(h, EnergyCode))
    ensures item.protein == round1(NutrientOf(h, ProteinCode))
    ensures item.carbs == round1(NutrientOf(h, CarbsCode))
    ensures item.fat == round1(NutrientOf(h, FatCode))
  {
    FoodItem(
      match FoodOf(h).foodId case Value(s) => s case _ => "",
      LabelOf(h),
      round1(NutrientOf(h, EnergyCode)),
      round1(NutrientOf(h, ProteinCode)),
      round1(NutrientOf(h, CarbsCode)),
      round1(NutrientOf(h, FatCode)))
  }

  /** The message `round` raises for nutrient `code`, if that entry is not a number. */
  function NutrientError(f: Food, code: string): (e: Option<string>)
    ensures e.Some? <==> (f.nutrients.Value? && code in f.nutrients.v && f.nutrients.v[code].NotANumber?)
    ensures e.Some? ==> e.value == f.nutrients.v[code].error
  {
    match f.nutrients
    case Value(m) => if code in m && m[code].NotANumber? then Some(m[code].error) else None
    case _ => None
  }

  /**
   * A hint whose object, food and nutrient map read cleanly and whose label is
   * truthy: the loop body goes on to round its nutrients and build its record.
   */
  predicate ReadsToItem(h: Hint) {
    h.Hint? && !h.food.Invalid? && !FoodOf(h).nutrients.Invalid? && Truthy(FoodOf(h).foodLabel)
  }

  /**
   * Why the loop body raises on a hint, if it does. Reading the food or its
   * nutrient map raises for every hint; building the item raises only for a hint
   * whose label is truthy: first the four roundings, then the record's
   * validation of the id and the name.
   */
  function HintError(h: Hint): (e: Option<string>)
    ensures h.NotAnObject? ==> e == Some(h.error)
    ensures h.Hint? && h.food.Invalid? ==> e == Some(h.food.error)
    ensures h.Hint? && h.food.Value? && h.food.v.nutrients.Invalid? ==> e == Some(h.food.v.nutrients.error)
    ensures (!Truthy(FoodOf(h).foodLabel))
              ==> (e.Some? <==> (h.NotAnObject? || h.food.Invalid? || FoodOf(h).nutrients.Invalid?))
    ensures (h.Hint? && h.food.Value? && !FoodOf(h).nutrients.Invalid? && Truthy(FoodOf(h).foodLabel)
             && (FoodOf(h).foodId.Invalid? || FoodOf(h).foodLabel.Invalid?)) ==> e.Some?
    ensures e.None? ==> (Labeled(h) <==> Truthy(FoodOf(h).foodLabel))
    ensures ReadsToItem(h) ==>
              (e.None? <==> (NutrientError(FoodOf(h), EnergyCode).None? && NutrientError(FoodOf(h), ProteinCode).None?
                             && NutrientError(FoodOf(h), CarbsCode).None? && NutrientError(FoodOf(h), FatCode).None?
                             && !FoodOf(h).foodId.Invalid? && !FoodOf(h).foodLabel.Invalid?))
    ensures (ReadsToItem(h) && NutrientError(FoodOf(h), EnergyCode).Some?)
              ==> e == NutrientError(FoodOf(h), EnergyCode)
    ensures (ReadsToItem(h) && NutrientError(FoodOf(h), EnergyCode).None? && NutrientError(FoodOf(h), ProteinCode).Some?)
              ==> e == NutrientError(FoodOf(h), ProteinCode)
    ensures (ReadsToItem(h) && NutrientError(FoodOf(h), EnergyCode).None? && NutrientError(FoodOf(h), ProteinCode).None?
             && NutrientError(FoodOf(h), CarbsCode).Some?)
              ==> e == NutrientError(FoodOf(h), CarbsCode)
    ensures (ReadsToItem(h) && NutrientError(FoodOf(h), EnergyCode).None? && NutrientError(FoodOf(h), ProteinCode).None?
             && NutrientError(FoodOf(h), CarbsCode).None? && NutrientError(FoodOf(h), FatCode).Some?)
              ==> e == NutrientError(FoodOf(h), FatCode)
  {
    match h
    case NotAnObject(error) => Some(error)
    case Hint(food) =>
      match food
      case Missing => None
      case Invalid(_, error) => Some(error)
      case Value(f) =>
        if f.nutrients.Invalid? then Some(f.nutrients.error)
        else if !Truthy(f.foodLabel) then None
        else if NutrientError(f, EnergyCode).Some? then NutrientError(f, EnergyCode)
        else if NutrientError(f, ProteinCode).Some? then NutrientError(f, ProteinCode)
        else if NutrientError(f, CarbsCode).Some? then NutrientError(f, CarbsCode)
        else if NutrientError(f, FatCode).Some? then NutrientError(f, FatCode)
        else if f.foodId.Invalid? then Some(f.foodId.error)
        else if f.foodLabel.Invalid? then Some(f.foodLabel.error)
        else None
  }

  /** The position of the first hint the loop body raises on, or `|hs|` when there is none. */
  function FirstErrorIndex(hs: seq<Hint>): (i: nat)
    ensures i <= |hs|
    ensures forall j :: 0 <= j < i ==> HintError(hs[j]).None?
    ensures i < |hs| ==> HintError(hs[i]).Some?
  {
    if hs == [] then 0
    else
      var i := FirstErrorIndex(hs[..|hs| - 1]);
      if i < |hs| - 1 then i
      else if HintError(hs[|hs| - 1]).Some? then |hs| - 1
      else |hs|
  }

  /** The prefix of at most `MaxResults` hints that the loop walks over. */
  function First(hs: seq<Hint>): (r: seq<Hint>)
    ensures |r| <= MaxResults && r <= hs
    ensures |hs| <= MaxResults ==> r == hs
    ensures |hs| > MaxResults ==> |r| == MaxResults
  {
    hs[..if |hs| < MaxResults then |hs| else MaxResults]
  }

  /** Filter-map over the hints, built from the back as the loop appends. */
  function Collect(hs: seq<Hint>, round1: real -> real): (items: seq<FoodItem>)
    ensures |items| <= |hs|
    ensures forall k :: 0 <= k < |items| ==> items[k].name != ""
  {
    if hs == [] then []
    else
      var rest := Collect(hs[..|hs| - 1], round1);
      var last := hs[|hs| - 1];
      if Labeled(last) then rest + [ToItem(last, round1)] else rest
  }

  /**
   * What the endpoint computes from a decoded payload: the items, or the message
   * of the first failure. A falsy `hints` value gives the empty list; a truthy
   * value that is not a list cannot be walked as a list of hints, so it raises.
   */
  function Normalized(p: Payload, round1: real -> real): (r: Result<seq<FoodItem>, string>)
    ensures r.Success? ==> |r.value| <= MaxResults
    ensures r.Success? ==> forall k :: 0 <= k < |r.value| ==> r.value[k].name != ""
    ensures (p.hints.Missing? || p.hints == Value([]) || (p.hints.Invalid? && !p.hints.truthy)) ==> r == Success([])
    ensures p.hints.Invalid? && p.hints.truthy ==> r == Failure(p.hints.error)
  {
    match p.hints
    case Missing => Success([])
    case Invalid(truthy, error) => if truthy then Failure(error) else Success([])
    case Value(hs) =>
      if hs == [] then Success([])
      else
        var f := First(hs);
        var i := FirstErrorIndex(f);
        if i < |f| then Failure(HintError(f[i]).value) else Success(Collect(f, round1))
  }

  /** `FirstErrorIndex` is pinned down by its contract. */
  lemma FirstErrorIndexIs(hs: seq<Hint>, i: nat)
    requires i <= |hs|
    requires forall j :: 0 <= j < i ==> HintError(hs[j]).None?
    requires i < |hs| ==> HintError(hs[i]).Some?
    ensures FirstErrorIndex(hs) == i
  {
  }

  /**
   * The body of the loop for one hint: read its fields with their defaults and
   * build the item when the label is truthy. It raises exactly as `HintError`
   * says, and otherwise yields `ToItem` of the hint when it is labeled.
   */
  method ReadHint(hint: Hint, round1: real -> real) returns (r: Result<Option<FoodItem>, string>)
    ensures HintError(hint).Some? ==> r == Failure(HintError(hint).value)
    ensures HintError(hint).None? && Labeled(hint) ==> r == Success(Some(ToItem(hint, round1)))
    ensures HintError(hint).None? && !Labeled(hint) ==> r == Success(None)
  {
    if hint.NotAnObject? {
      return Failure(hint.error);
    }
    var food := NoFood;
    match hint.food {
      case Missing =>
      case Invalid(_, error) =>
        return Failure(error);
      case Value(f) =>
        food := f;
    }
    var nutrients: map<string, Nutrient> := map[];
    match food.nutrients {
      case Missing =>
      case Invalid(_, error) =>
        return Failure(error);
      case Value(m) =>
        nutrients := m;
    }
    var calories := if EnergyCode in nutrients then nutrients[EnergyCode] else Amount(0.0);
    var protein := if ProteinCode in nutrients then nutrients[ProteinCode] else Amount(0.0);
    var carbs := if CarbsCode in nutrients then nutrients[CarbsCode] else Amount(0.0);
    var fat := if FatCode in nutrients then nutrients[FatCode] else Amount(0.0);
    if !Truthy(food.foodLabel) {
      return Success(None);
    }
    if calories.NotANumber? {
      return Failure(calories.error);
    }
    if protein.NotANumber? {
      return Failure(protein.error);
    }
    if carbs.NotANumber? {
      return Failure(carbs.error);
    }
    if fat.NotANumber? {
      return Failure(fat.error);
    }
    if food.foodId.Invalid? {
      return Failure(food.foodId.error);
    }
    if food.foodLabel.Invalid? {
      return Failure(food.foodLabel.error);
    }
    var foodId := if food.foodId.Value? then food.foodId.v else "";
    var item := FoodItem(foodId, food.foodLabel.v, round1(calories.x), round1(protein.x), round1(carbs.x), round1(fat.x));
    return Success(Some(item));
  }

  /**
   * The loop of the endpoint: walk the first twenty hints and append an item for
   * each labeled one; any raise abandons the items collected so far.
   */
  method NormalizeHints(p: Payload, round1: real -> real) returns (r: Result<seq<FoodItem>, string>)
    ensures r == Normalized(p, round1)
  {
    var items: seq<FoodItem> := [];
    if p.hints.Invalid? && p.hints.truthy {
      return Failure(p.hints.error);
    }
    if p.hints.Value? && p.hints.v != [] {
      var hs := p.hints.v;
      var n := if |hs| < MaxResults then |hs| else MaxResults;
      assert hs[..n] == First(hs);
      for i := 0 to n
        invariant forall j :: 0 <= j < i ==> HintError(hs[j]).None?
        invariant items == Collect(hs[..i], round1)
      {
        var read := ReadHint(hs[i], round1);
        match read {
          case Failure(error) =>
            assert hs[..n][i] == hs[i];
            FirstErrorIndexIs(hs[..n], i);
            return Failure(error);
          case Success(item) =>
            if item.Some? {
              items := items + [item.value];
            }
        }
        assert hs[..i + 1][..i] == hs[..i];
      }
      FirstErrorIndexIs(hs[..n], n);
    }
    if items == [] {
      return Success([]);
    }
    return Success(items);
  }

  // ---------------------------------------------------------------------------
  // Properties of the normalisation

  /** Collecting distributes over concatenation: hints contribute independently, in order. */
  lemma {:induction false} CollectAppend(a: seq<Hint>, b: seq<Hint>, round1: real -> real)
    ensures Collect(a + b, round1) == Collect(a, round1) + Collect(b, round1)
  {
    if b == [] {
      assert a + b == a;
    } else {
      var b' := b[..|b| - 1];
      assert (a + b)[..|a + b| - 1] == a + b';
      assert (a + b)[|a + b| - 1] == b[|b| - 1];
      CollectAppend(a, b', round1);
    }
  }

  /** A hint between any two stretches contributes its item if labeled and nothing otherwise. */
  lemma HintContribution(a: seq<Hint>, h: Hint, b: seq<Hint>, round1: real -> real)
    ensures Collect(a + [h] + b, round1)
            == Collect(a, round1) + (if Labeled(h) then [ToItem(h, round1)] else []) + Collect(b, round1)
    ensures |Collect(a + [h] + b, round1)| == |Collect(a + b, round1)| + (if Labeled(h) then 1 else 0)
  {
    CollectAppend(a + [h], b, round1);
    CollectAppend(a, [h], round1);
    CollectAppend(a, b, round1);
    assert [h][..0] == [];
  }

  /** The number of labeled hints, counted from the front. */
  function CountLabeled(hs: seq<Hint>): nat {
    if hs == [] then 0 else (if Labeled(hs[0]) then 1 else 0) + CountLabeled(hs[1..])
  }

  /** Hints none of which is labeled count zero. */
  lemma {:induction false} NoLabeledCountsZero(hs: seq<Hint>)
    requires forall i :: 0 <= i < |hs| ==> !Labeled(hs[i])
    ensures CountLabeled(hs) == 0
  {
    if hs != [] {
      NoLabeledCountsZero(hs[1..]);
    }
  }

  /** Exactly one item per labeled hint. */
  lemma {:induction false} CollectCount(hs: seq<Hint>, round1: real -> real)
    ensures |Collect(hs, round1)| == CountLabeled(hs)
  {
    if hs != [] {
      assert hs == [] + [hs[0]] + hs[1..];
      HintContribution([], hs[0], hs[1..], round1);
      CollectCount(hs[1..], round1);
    }
  }

  /** The positions of the labeled hints, in increasing order. */
  function LabeledIndices(hs: seq<Hint>): (ix: seq<nat>)
    ensures forall k :: 0 <= k < |ix| ==> ix[k] < |hs| && Labeled(hs[ix[k]])
    ensures forall j, k :: 0 <= j < k < |ix| ==> ix[j] < ix[k]
    ensures forall i :: 0 <= i < |hs| && Labeled(hs[i]) ==> i in ix
  {
    if hs == [] then []
    else
      var rest := LabeledIndices(hs[..|hs| - 1]);
      if Labeled(hs[|hs| - 1]) then rest + [|hs| - 1] else rest
  }

  /** The items are the labeled hints, in their order, each mapped by `ToItem`. */
  lemma {:induction false} CollectIsLabeledSubsequence(hs: seq<Hint>, round1: real -> real)
    ensures |Collect(hs, round1)| == |LabeledIndices(hs)|
    ensures forall k :: 0 <= k < |LabeledIndices(hs)|
              ==> Collect(hs, round1)[k] == ToItem(hs[LabeledIndices(hs)[k]], round1)
  {
    if hs != [] {
      var init := hs[..|hs| - 1];
      var last := hs[|hs| - 1];
      CollectIsLabeledSubsequence(init, round1);
      var ix := LabeledIndices(init);
      var items := Collect(init, round1);
      var extra := if Labeled(last) then [ToItem(last, round1)] else [];
      assert LabeledIndices(hs) == ix + (if Labeled(last) then [|hs| - 1] else []);
      assert Collect(hs, round1) == items + extra;
      forall k | 0 <= k < |LabeledIndices(hs)|
        ensures Collect(hs, round1)[k] == ToItem(hs[LabeledIndices(hs)[k]], round1)
      {
        if k < |ix| {
          assert hs[ix[k]] == init[ix[k]];
        }
      }
    }
  }

  /** When every hint is labeled, every one of them is mapped. */
  lemma {:induction false} CollectAllLabeled(hs: seq<Hint>, round1: real -> real)
    requires forall i :: 0 <= i < |hs| ==> Labeled(hs[i])
    ensures |Collect(hs, round1)| == |hs|
    ensures forall i :: 0 <= i < |hs| ==> Collect(hs, round1)[i] == ToItem(hs[i], round1)
  {
    if hs != [] {
      CollectAllLabeled(hs[..|hs| - 1], round1);
    }
  }

  /**
   * The normalisation fails exactly when some hint among the first twenty
   * raises, and then with the message of the first such hint.
   */
  lemma NormalizedFailure(hs: seq<Hint>, round1: real -> real)
    ensures Normalized(Payload(Value(hs)), round1).Failure?
            <==> exists i :: 0 <= i < |First(hs)| && HintError(hs[i]).Some?
    ensures Normalized(Payload(Value(hs)), round1).Failure?
            ==> exists i :: 0 <= i < |First(hs)| && HintError(hs[i]) == Some(Normalized(Payload(Value(hs)), round1).error)
                            && forall j :: 0 <= j < i ==> HintError(hs[j]).None?
  {
  }

  /** When the normalisation succeeds it has one item per labeled hint among the first twenty. */
  lemma NormalizedCount(hs: seq<Hint>, round1: real -> real)
    ensures Normalized(Payload(Value(hs)), round1).Success?
            ==> |Normalized(Payload(Value(hs)), round1).value| == CountLabeled(First(hs))
  {
    CollectCount(First(hs), round1);
  }

  /** With N hints whose first twenty all read cleanly and carry a label, the result has min(N, 20) items, each the corresponding hint. */
  lemma NormalizedAllLabeled(hs: seq<Hint>, round1: real -> real)
    requires forall i :: 0 <= i < |First(hs)| ==> Labeled(hs[i]) && HintError(hs[i]).None?
    ensures Normalized(Payload(Value(hs)), round1).Success?
    ensures |Normalized(Payload(Value(hs)), round1).value| == if |hs| < MaxResults then |hs| else MaxResults
    ensures forall i :: 0 <= i < |Normalized(Payload(Value(hs)), round1).value|
              ==> Normalized(Payload(Value(hs)), round1).value[i] == ToItem(hs[i], round1)
  {
    assert forall i :: 0 <= i < |First(hs)| ==> First(hs)[i] == hs[i];
    NormalizedFailure(hs, round1);
    CollectAllLabeled(First(hs), round1);
  }

  /** A hint past the twentieth is never looked at: replacing it, even by one that raises, changes nothing. */
  lemma HintsPastLimitIgnored(hs: seq<Hint>, i: nat, h: Hint, round1: real -> real)
    requires MaxResults <= i < |hs|
    ensures Normalized(Payload(Value(hs[i := h])), round1) == Normalized(Payload(Value(hs)), round1)
  {
  }

  /** A successful result is the labeled hints among the first twenty, in order, each mapped. */
  lemma NormalizedIsLabeledSubsequence(hs: seq<Hint>, round1: real -> real)
    requires Normalized(Payload(Value(hs)), round1).Success?
    ensures |Normalized(Payload(Value(hs)), round1).value| == |LabeledIndices(First(hs))|
    ensures forall k :: 0 <= k < |LabeledIndices(First(hs))|
              ==> LabeledIndices(First(hs))[k] < MaxResults
                  && Normalized(Payload(Value(hs)), round1).value[k] == ToItem(hs[LabeledIndices(First(hs))[k]], round1)
  {
    CollectIsLabeledSubsequence(First(hs), round1);
    forall k | 0 <= k < |LabeledIndices(First(hs))|
      ensures First(hs)[LabeledIndices(First(hs))[k]] == hs[LabeledIndices(First(hs))[k]]
    {
    }
  }
}
