/**
 The values `mostrar_resultado` displays: the validated inputs, the
 calculation for the current recipe, how many weapons of each preset the
 inventory allows, and the target for the desired number of weapons.
 */
module Report {
  import opened Wrappers
  import opened Catalog
  import opened Calculator
  import opened Target
  import opened Validation

  /** Everything one refresh of the result panel shows. */
  datatype Report = Report(
    inputs: Inputs,
    outcome: Calculation,
    presets: seq<(string, int)>,
    requiredTotal: map<Material, int>,
    shortfall: map<Material, int>,
    surplus: map<Material, int>,
    verdict: Verdict)

  /** The two error messages of the panel: bad input, or a failed calculation. */
  datatype ReportError = InvalidInput(input: InputError) | CalculationFailed(cause: CalcError)

  /** Every recipe of a catalog gives one count per piece, and no two recipes share a name (the source keys them by name). */
  predicate WellFormedCatalog(catalog: seq<Preset>)
  {
    && (forall i :: 0 <= i < |catalog| ==> |catalog[i].counts| == |Pieces|)
    && (forall i, j :: 0 <= i < j < |catalog| ==> catalog[i].name != catalog[j].name)
  }

  /** How many weapons of each recipe of `catalog` the inventory allows, in catalog order. */
  function Ranking(mats: map<Material, int>, catalog: seq<Preset>): seq<(string, int)>
    requires WellFormedCatalog(catalog)
  {
    seq(|catalog|, i requires 0 <= i < |catalog| =>
      (catalog[i].name, Calculate(mats, catalog[i].counts).value.maxUnits))
  }

  /** All the values of one refresh, from the raw fields. */
  function Evaluate(matFields: seq<Field>, countFields: seq<Field>, desiredField: Field): Result<Report, ReportError>
    requires |matFields| == |Materials| && |countFields| == |Pieces|
  {
    PresetsWellFormed();
    match Validate(matFields, countFields, desiredField)
    case Failure(e) => Failure(InvalidInput(e))
    case Success(inputs) =>
      match Calculate(inputs.mats, inputs.counts)
      case Failure(e) => Failure(CalculationFailed(e))
      case Success(c) =>
        var total := RequiredTotal(c.perUnit, inputs.desired);
        Success(Report(inputs, c, Ranking(inputs.mats, Presets), total,
          Shortfall(inputs.mats, total), SurplusAfter(inputs.mats, total),
          Assess(inputs.mats, total, inputs.desired)))
  }

  // ---------------------------------------------------------------------------
  // Properties

  /**
   Every preset's figure is the greatest number of its weapons the inventory
   covers, and with a non-negative inventory it is never negative.
   */
  lemma RankingIsGreatestFeasible(mats: map<Material, int>, i: nat)
    requires i < |Presets|
    ensures WellFormedCatalog(Presets)
    ensures |Ranking(mats, Presets)| == |Presets| && Ranking(mats, Presets)[i].0 == Presets[i].name
    ensures var need := PerUnit(Presets[i].counts);
      && Feasible(mats, need, Ranking(mats, Presets)[i].1)
      && forall k :: Feasible(mats, need, k) ==> k <= Ranking(mats, Presets)[i].1
    ensures (forall m: Material :: Get(mats, m) >= 0) ==> Ranking(mats, Presets)[i].1 >= 0
  {
    PresetsWellFormed();
    var counts := Presets[i].counts;
    var need := PerUnit(counts);
    BodyNeedsEveryMaterial(counts);
    assert Get(need, Ferro) > 0;
    MaxIsGreatestFeasible(mats, need);
    if forall m: Material :: Get(mats, m) >= 0 {
      assert Feasible(mats, need, 0);
    }
  }

  /** The three figures are the maxima for the PDW, KBZ and P90 requirements. */
  lemma RankingValues(mats: map<Material, int>)
    ensures WellFormedCatalog(Presets) && |Ranking(mats, Presets)| == 3
    ensures Ranking(mats, Presets)[0].1 == MaxFor(mats, map[Ferro := 500, Cobre := 500, Aluminio := 500, Plastico := 750])
    ensures Ranking(mats, Presets)[1].1 == MaxFor(mats, map[Ferro := 800, Cobre := 800, Aluminio := 800, Plastico := 1200])
    ensures Ranking(mats, Presets)[2].1 == MaxFor(mats, map[Ferro := 600, Cobre := 600, Aluminio := 600, Plastico := 900])
  {
    PresetsWellFormed();
    PresetRequirements();
  }

  /** KBZ costs the most and PDW the least of every material, so KBZ <= P90 <= PDW in the ranking. */
  lemma RankingOrder(mats: map<Material, int>)
    requires forall m: Material :: Get(mats, m) >= 0
    ensures WellFormedCatalog(Presets) && |Ranking(mats, Presets)| == 3
    ensures Ranking(mats, Presets)[1].1 <= Ranking(mats, Presets)[2].1 <= Ranking(mats, Presets)[0].1
  {
    var pdw := map[Ferro := 500, Cobre := 500, Aluminio := 500, Plastico := 750];
    var kbz := map[Ferro := 800, Cobre := 800, Aluminio := 800, Plastico := 1200];
    var p90 := map[Ferro := 600, Cobre := 600, Aluminio := 600, Plastico := 900];
    assert forall m: Material :: 0 <= Get(p90, m) <= Get(kbz, m);
    assert forall m: Material :: 0 <= Get(pdw, m) <= Get(p90, m);
    assert Get(pdw, Ferro) > 0 && Get(p90, Ferro) > 0;
    MaxAntitoneInRequirement(mats, p90, kbz);
    MaxAntitoneInRequirement(mats, pdw, p90);
    RankingValues(mats);
  }

  /**
   One refresh either reports bad input, exactly when some field is neither
   blank nor a non-negative integer, or shows a result, never a failed
   calculation. The result has no negative leftover, says "nothing requested"
   exactly when no weapon is desired, and otherwise says "enough" exactly when
   no material falls short, which for a recipe that consumes something is
   exactly when the desired count is at most the maximum.
   */
  lemma EvaluateMeaning(matFields: seq<Field>, countFields: seq<Field>, desiredField: Field)
    requires |matFields| == |Materials| && |countFields| == |Pieces|
    ensures var r := Evaluate(matFields, countFields, desiredField);
      r.Failure? <==> !AllAcceptable(matFields, countFields, desiredField)
    ensures var r := Evaluate(matFields, countFields, desiredField);
      r.Failure? ==> r.error.InvalidInput?
    ensures var r := Evaluate(matFields, countFields, desiredField);
      r.Success? ==>
        && (forall m: Material :: r.value.outcome.leftover[m] >= 0)
        && (r.value.verdict == NothingRequested <==> r.value.inputs.desired == 0)
        && (r.value.inputs.desired != 0 ==>
              (r.value.verdict == Enough <==> forall m: Material :: r.value.shortfall[m] == 0))
        && (r.value.inputs.desired != 0 && NeedsSomething(r.value.outcome.perUnit) ==>
              (r.value.verdict == Enough <==> r.value.inputs.desired <= r.value.outcome.maxUnits))
  {
    ValidateMeaning(matFields, countFields, desiredField);
    var v := Validate(matFields, countFields, desiredField);
    if v.Success? {
      var inputs := v.value;
      ValidInputsNonNegative(matFields, countFields, desiredField);
      LeftoverNonNegative(inputs.mats, inputs.counts);
      TargetAgreesWithMaximum(inputs.mats, inputs.counts, inputs.desired);
      var c := Calculate(inputs.mats, inputs.counts).value;
      var total := RequiredTotal(c.perUnit, inputs.desired);
      EnoughIffNoShortfall(inputs.mats, total);
    }
  }

  // ---------------------------------------------------------------------------
  // The refresh, as the source runs it

  /** The per-preset loop: runs the calculation for every recipe of the catalog. */
  method RankPresets(mats: map<Material, int>, catalog: seq<Preset>) returns (possible: seq<(string, int)>)
    requires WellFormedCatalog(catalog)
    ensures possible == Ranking(mats, catalog)
  {
    possible := [];
    for i := 0 to |catalog|
      invariant |possible| == i
      invariant forall j :: 0 <= j < i ==> possible[j] == Ranking(mats, catalog)[j]
    {
      var r := Calcular(mats, catalog[i].counts);
      RankingEntry(mats, catalog, i, r);
      possible := possible + [(catalog[i].name, r.value.maxUnits)];
    }
  }

  /** The entry the loop appends for recipe `i` is the ranking's entry `i`. */
  lemma RankingEntry(mats: map<Material, int>, catalog: seq<Preset>, i: nat, r: Result<Calculation, CalcError>)
    requires WellFormedCatalog(catalog) && i < |catalog|
    requires r == Calculate(mats, catalog[i].counts)
    ensures r.Success? && |Ranking(mats, catalog)| == |catalog|
    ensures Ranking(mats, catalog)[i] == (catalog[i].name, r.value.maxUnits)
  {
  }

  /** `mostrar_resultado` without the text: validate, calculate, rank the presets, measure the target. */
  method ShowResult(matFields: seq<Field>, countFields: seq<Field>, desiredField: Field)
    returns (r: Result<Report, ReportError>)
    requires |matFields| == |Materials| && |countFields| == |Pieces|
    ensures r == Evaluate(matFields, countFields, desiredField)
  {
    var read := ReadInputs(matFields, countFields, desiredField);
    if read.Failure? {
      return Failure(InvalidInput(read.error));
    }
    var inputs := read.value;
    var computed := Calcular(inputs.mats, inputs.counts);
    if computed.Failure? {
      return Failure(CalculationFailed(computed.error));
    }
    var c := computed.value;
    PresetsWellFormed();
    var possible := RankPresets(inputs.mats, Presets);
    var total := RequiredTotal(c.perUnit, inputs.desired);
    var short := Shortfall(inputs.mats, total);
    var surplus := SurplusAfter(inputs.mats, total);
    r := Success(Report(inputs, c, possible, total, short, surplus, Assess(inputs.mats, total, inputs.desired)));
  }
}
