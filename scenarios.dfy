/**
 * The calculator's scenario list: saved input snapshots, identified by their
 * position, with an optional "being edited" position. The transitions are
 * given as functions on a `Session` value; class `PricingCalculator` holds the
 * same state in fields and its handlers follow those functions.
 */
module Scenarios {
  import opened Js
  import opened Pricing

  /** The six calculator inputs, as named by the form's `name` attributes. */
  datatype InputField = ProductCost | Shipping | ConversionRate | MarkupPercent | EbayFeePercent | AdFeePercent

  /** `{ ...inputs, [name]: value }` */
  function WithField(i: PricingInputs, f: InputField, v: real): (r: PricingInputs)
    ensures f == ProductCost ==> r == i.(productCost := v)
    ensures f == Shipping ==> r == i.(shipping := v)
    ensures f == ConversionRate ==> r == i.(conversionRate := v)
    ensures f == MarkupPercent ==> r == i.(markupPercent := v)
    ensures f == EbayFeePercent ==> r == i.(ebayFeePercent := v)
    ensures f == AdFeePercent ==> r == i.(adFeePercent := v)
  {
    match f
    case ProductCost => i.(productCost := v)
    case Shipping => i.(shipping := v)
    case ConversionRate => i.(conversionRate := v)
    case MarkupPercent => i.(markupPercent := v)
    case EbayFeePercent => i.(ebayFeePercent := v)
    case AdFeePercent => i.(adFeePercent := v)
  }

  /** The calculator's React state: `inputs`, `results`, `scenarios` and `editIdx`. */
  datatype Session = Session(
    inputs: PricingInputs,
    results: PricingResult,
    scenarios: seq<PricingInputs>,
    editIdx: Option<nat>)

  /** Every rate the calculator may divide by is non-zero. */
  predicate RatesUsable(s: Session) {
    && s.inputs.conversionRate != 0.0
    && forall k :: 0 <= k < |s.scenarios| ==> s.scenarios[k].conversionRate != 0.0
  }

  /** The shown results are always those of the current inputs. */
  predicate Consistent(s: Session) {
    RatesUsable(s) && s.results == CalculatePricing(s.inputs)
  }

  /** The state on mount (the scenarios read back from local storage are not modelled). */
  function Initial(): (s: Session)
    ensures s.inputs == DefaultValues && s.inputs == PricingInputs(3.0, 40.0, 4.0, 60.0, 13.0, 0.0)
    ensures Consistent(s) && s.scenarios == [] && s.editIdx == None
  {
    Session(DefaultValues, CalculatePricing(DefaultValues), [], None)
  }

  /** `handleChange`: one input changes and the results are recomputed. */
  function Change(s: Session, f: InputField, v: real): (r: Session)
    requires WithField(s.inputs, f, v).conversionRate != 0.0
    ensures r.inputs == WithField(s.inputs, f, v)
    ensures r.results == CalculatePricing(r.inputs)
    ensures r.scenarios == s.scenarios && r.editIdx == s.editIdx
    ensures RatesUsable(s) ==> Consistent(r)
  {
    var ni := WithField(s.inputs, f, v);
    s.(inputs := ni, results := CalculatePricing(ni))
  }

  /** `scenarios.filter((_, i) => i !== idx)` */
  function RemoveAt<T>(xs: seq<T>, idx: nat): (r: seq<T>)
    ensures idx < |xs| ==> |r| == |xs| - 1
    ensures idx >= |xs| ==> r == xs
    ensures forall k :: 0 <= k < idx && k < |r| ==> r[k] == xs[k]
    ensures forall k :: idx <= k < |r| ==> r[k] == xs[k + 1]
    ensures multiset(r) <= multiset(xs)
  {
    if idx < |xs| then
      assert xs == xs[..idx] + [xs[idx]] + xs[idx + 1..];
      xs[..idx] + xs[idx + 1..]
    else xs
  }

  /**
   * `saveScenario`. Without a selection, a copy of the inputs is appended and
   * nobody is selected afterwards. With selection `j`, position `j` alone is
   * overwritten (the `map` matches no position when `j` is stale) and the
   * selection is cleared.
   */
  function Save(s: Session): (r: Session)
    ensures r.inputs == s.inputs && r.results == s.results && r.editIdx == None
    ensures s.editIdx == None ==> r.scenarios == s.scenarios + [s.inputs]
    ensures s.editIdx == None ==> |r.scenarios| == |s.scenarios| + 1 && r.scenarios[|s.scenarios|] == s.inputs
    ensures s.editIdx.Some? ==> |r.scenarios| == |s.scenarios|
    ensures s.editIdx.Some? ==> forall k :: 0 <= k < |s.scenarios| ==>
              r.scenarios[k] == (if k == s.editIdx.value then s.inputs else s.scenarios[k])
    ensures Consistent(s) ==> Consistent(r)
  {
    match s.editIdx
    case None => s.(scenarios := s.scenarios + [s.inputs])
    case Some(j) =>
      var updated := if j < |s.scenarios| then s.scenarios[j := s.inputs] else s.scenarios;
      s.(scenarios := updated, editIdx := None)
  }

  /**
   * `loadScenario`: the stored inputs become the current inputs, their results
   * are shown, and the position becomes the selection. The source indexes
   * without a check, so the position must exist.
   */
  function Load(s: Session, idx: nat): (r: Session)
    requires idx < |s.scenarios| && s.scenarios[idx].conversionRate != 0.0
    ensures r.inputs == s.scenarios[idx]
    ensures r.results == CalculatePricing(s.scenarios[idx])
    ensures r.editIdx == Some(idx)
    ensures r.scenarios == s.scenarios
    ensures RatesUsable(s) ==> Consistent(r)
  {
    s.(inputs := s.scenarios[idx], results := CalculatePricing(s.scenarios[idx]), editIdx := Some(idx))
  }

  /**
   * `deleteScenario`: position `idx` is removed and later positions move up by
   * one; the selection is cleared only when it is `idx` itself, otherwise it
   * keeps its number.
   */
  function Delete(s: Session, idx: nat): (r: Session)
    ensures r.scenarios == RemoveAt(s.scenarios, idx)
    ensures r.editIdx == (if s.editIdx == Some(idx) then None else s.editIdx)
    ensures r.inputs == s.inputs && r.results == s.results
    ensures Consistent(s) ==> Consistent(r)
  {
    RemoveAtKeepsRates(s.scenarios, idx);
    s.(scenarios := RemoveAt(s.scenarios, idx),
       editIdx := if s.editIdx == Some(idx) then None else s.editIdx)
  }

  /** Removing a scenario keeps every remaining rate non-zero. */
  lemma RemoveAtKeepsRates(xs: seq<PricingInputs>, idx: nat)
    ensures (forall k :: 0 <= k < |xs| ==> xs[k].conversionRate != 0.0) ==>
            forall k :: 0 <= k < |RemoveAt(xs, idx)| ==> RemoveAt(xs, idx)[k].conversionRate != 0.0
  {
  }

  /** `clearForm`: back to the default inputs and their results, with no selection. */
  function Clear(s: Session): (r: Session)
    ensures r.inputs == DefaultValues && r.results == CalculatePricing(DefaultValues)
    ensures r.editIdx == None && r.scenarios == s.scenarios
    ensures RatesUsable(s) ==> Consistent(r)
  {
    s.(inputs := DefaultValues, results := CalculatePricing(DefaultValues), editIdx := None)
  }

  /** A new scenario is saved at the end; loading that position gives back exactly what was saved. */
  lemma SaveThenLoadLast(s: Session)
    requires s.editIdx == None && s.inputs.conversionRate != 0.0
    ensures Load(Save(s), |s.scenarios|).inputs == s.inputs
    ensures Load(Save(s), |s.scenarios|).editIdx == Some(|s.scenarios|)
    ensures Load(Save(s), |s.scenarios|).scenarios == s.scenarios + [s.inputs]
  {
  }

  /** Loading a scenario and saving it again unchanged leaves the list as it was. */
  lemma LoadThenSaveUnchanged(s: Session, idx: nat)
    requires idx < |s.scenarios| && s.scenarios[idx].conversionRate != 0.0
    ensures Save(Load(s, idx)).scenarios == s.scenarios
    ensures Save(Load(s, idx)).editIdx == None
  {
    var l := Load(s, idx);
    assert l.scenarios[idx := l.inputs] == s.scenarios;
  }

  /**
   * Deleting keeps the other scenarios in their original relative order: every
   * remaining position holds the scenario from the same or the next position.
   */
  lemma DeleteKeepsOrder(s: Session, idx: nat, a: nat, b: nat)
    requires a < b < |Delete(s, idx).scenarios|
    ensures var o := Delete(s, idx).scenarios;
            var ia := if a < idx then a else a + 1;
            var ib := if b < idx then b else b + 1;
            ia < ib < |s.scenarios| && o[a] == s.scenarios[ia] && o[b] == s.scenarios[ib]
  {
  }

  // ---------------------------------------------------------------------------
  // Positional selection and deletion

  /**
   * As written, deleting a scenario before the selected one leaves `editIdx`
   * pointing at the old number. Here the user edits the second of three
   * scenarios `a`, `b`, `c`, deletes the first, and saves: the third scenario
   * `c` is overwritten with the edit, and `b`, the one being edited, keeps
   * its old content. Saving before deleting would have replaced `b`.
   */
  lemma DeleteBeforeSelectionMisdirectsSave(a: PricingInputs, b: PricingInputs, c: PricingInputs,
                                            edited: PricingInputs, shown: PricingResult)
    ensures var s := Session(edited, shown, [a, b, c], Some(1));
            && Save(Delete(s, 0)).scenarios == [b, edited]
            && RemoveAt(Save(s).scenarios, 0) == [edited, c]
            && (b != edited ==> Save(Delete(s, 0)).scenarios != RemoveAt(Save(s).scenarios, 0))
  {
    var s := Session(edited, shown, [a, b, c], Some(1));
    DeleteFirstThenSave(s);
    SaveThenDeleteFirst(s);
    assert [b, edited][0] == b;
  }

  /** Deleting position 0 while position 1 is selected, then saving, overwrites the new position 1. */
  lemma DeleteFirstThenSave(s: Session)
    requires |s.scenarios| == 3 && s.editIdx == Some(1)
    ensures Save(Delete(s, 0)).scenarios == [s.scenarios[1], s.inputs]
  {
    var d := Delete(s, 0);
    assert d.editIdx == Some(1);
    assert |d.scenarios| == 2 && d.scenarios[0] == s.scenarios[1];
    var sd := Save(d).scenarios;
    assert |sd| == 2 && sd[0] == s.scenarios[1] && sd[1] == s.inputs;
  }

  /** Saving with position 1 selected, then deleting position 0, leaves the edit and the third scenario. */
  lemma SaveThenDeleteFirst(s: Session)
    requires |s.scenarios| == 3 && s.editIdx == Some(1)
    ensures RemoveAt(Save(s).scenarios, 0) == [s.inputs, s.scenarios[2]]
  {
    var ss := Save(s).scenarios;
    assert |ss| == 3 && ss[1] == s.inputs && ss[2] == s.scenarios[2];
    var rs := RemoveAt(ss, 0);
    assert |rs| == 2 && rs[0] == s.inputs && rs[1] == s.scenarios[2];
  }

  /**
   * Deletion that keeps the selection on the same scenario: a selection after
   * the deleted position moves up with its scenario.
   */
  function DeleteTracked(s: Session, idx: nat): (r: Session)
    ensures r.scenarios == RemoveAt(s.scenarios, idx)
    ensures r.inputs == s.inputs && r.results == s.results
    ensures s.editIdx == None ==> r.editIdx == None
    ensures s.editIdx == Some(idx) ==> r.editIdx == None
    ensures s.editIdx.Some? && s.editIdx.value > idx && idx < |s.scenarios| ==> r.editIdx == Some(s.editIdx.value - 1)
    ensures s.editIdx.Some? && s.editIdx.value != idx && (s.editIdx.value < idx || idx >= |s.scenarios|) ==>
              r.editIdx == s.editIdx
    ensures Consistent(s) ==> Consistent(r)
  {
    RemoveAtKeepsRates(s.scenarios, idx);
    s.(scenarios := RemoveAt(s.scenarios, idx), editIdx := TrackedSelection(s.editIdx, idx, |s.scenarios|))
  }

  /** The selection after removing position `idx` from a list of length `n`. */
  function TrackedSelection(sel: Option<nat>, idx: nat, n: nat): Option<nat> {
    match sel
    case None => None
    case Some(j) => if j == idx then None else if j > idx && idx < n then Some(j - 1) else Some(j)
  }

  /**
   * With tracked deletion, deleting another scenario while one is being edited
   * and then saving has the same effect as saving first and deleting after:
   * the edit lands on the scenario that was loaded.
   */
  lemma {:induction false} TrackedDeleteCommutesWithSave(s: Session, idx: nat)
    requires s.editIdx.Some? && s.editIdx.value < |s.scenarios|
    requires idx < |s.scenarios| && idx != s.editIdx.value
    ensures Save(DeleteTracked(s, idx)).scenarios == RemoveAt(Save(s).scenarios, idx)
  {
    var j := s.editIdx.value;
    var lhs := Save(DeleteTracked(s, idx)).scenarios;
    var rhs := RemoveAt(Save(s).scenarios, idx);
    assert |lhs| == |rhs|;
    forall k | 0 <= k < |lhs| ensures lhs[k] == rhs[k] {
      var d := DeleteTracked(s, idx);
      assert d.editIdx == Some(if j > idx then j - 1 else j);
    }
  }

  // ---------------------------------------------------------------------------
  // The component's state, updated in place

  class PricingCalculator {
    var inputs: PricingInputs
    var results: PricingResult
    var scenarios: seq<PricingInputs>
    var editIdx: Option<nat>

    function State(): Session
      reads this
    {
      Session(inputs, results, scenarios, editIdx)
    }

    ghost predicate Valid()
      reads this
    {
      Consistent(State())
    }

    constructor ()
      ensures Valid() && State() == Initial()
    {
      inputs := DefaultValues;
      results := CalculatePricing(DefaultValues);
      scenarios := [];
      editIdx := None;
    }

    method HandleChange(f: InputField, v: real)
      requires Valid() && WithField(inputs, f, v).conversionRate != 0.0
      modifies this
      ensures Valid() && State() == Change(old(State()), f, v)
    {
      var newInputs := WithField(inputs, f, v);
      inputs := newInputs;
      results := CalculatePricing(newInputs);
    }

    method SaveScenario()
      requires Valid()
      modifies this
      ensures Valid() && State() == Save(old(State()))
    {
      if editIdx != None {
        var j := editIdx.value;
        var updated := seq(|scenarios|, i requires 0 <= i < |scenarios| reads this =>
                             if i == j then inputs else scenarios[i]);
        assert j < |scenarios| ==> updated == scenarios[j := inputs];
        assert j >= |scenarios| ==> updated == scenarios;
        scenarios := updated;
        editIdx := None;
      } else {
        scenarios := scenarios + [inputs];
      }
    }

    method LoadScenario(idx: nat)
      requires Valid() && idx < |scenarios|
      modifies this
      ensures Valid() && State() == Load(old(State()), idx)
    {
      inputs := scenarios[idx];
      results := CalculatePricing(scenarios[idx]);
      editIdx := Some(idx);
    }

    /** `deleteScenario` as written: the selection keeps its number unless it is `idx` itself. */
    method DeleteScenario(idx: nat)
      requires Valid()
      modifies this
      ensures Valid() && State() == Delete(old(State()), idx)
    {
      RemoveAtKeepsRates(scenarios, idx);
      if editIdx == Some(idx) {
        editIdx := None;
      }
      scenarios := RemoveAt(scenarios, idx);
    }

    /**
     * The corrected `deleteScenario`: the selection follows its scenario when
     * an earlier one is removed.
     */
    method DeleteScenarioTracked(idx: nat)
      requires Valid()
      modifies this
      ensures Valid() && State() == DeleteTracked(old(State()), idx)
    {
      editIdx := TrackedSelection(editIdx, idx, |scenarios|);
      scenarios := RemoveAt(scenarios, idx);
    }

    method ClearForm()
      requires Valid()
      modifies this
      ensures Valid() && State() == Clear(old(State()))
    {
      inputs := DefaultValues;
      results := CalculatePricing(DefaultValues);
      editIdx := None;
    }
  }
}
