/**
 The production target of `mostrar_resultado`: the material a desired number
 of weapons takes, the shortfall and surplus of each material against it, and
 the verdict shown to the user.
 */
module Target {
  import opened Catalog
  import opened Calculator

  /** The verdict: no weapon was asked for, the materials suffice, or they do not. */
  datatype Verdict = NothingRequested | Enough | NotEnough

  /** Material needed for `desired` weapons. */
  function RequiredTotal(need: map<Material, int>, desired: int): (total: map<Material, int>)
    ensures forall m: Material :: m in total
  {
    MaterialOrder();
    map m | m in Materials :: Get(need, m) * desired
  }

  /** How much of each material is missing: max(0, required - available). */
  function Shortfall(mats: map<Material, int>, total: map<Material, int>): (short: map<Material, int>)
    ensures forall m: Material :: m in short
  {
    MaterialOrder();
    map m | m in Materials ::
      if Get(total, m) - Get(mats, m) > 0 then Get(total, m) - Get(mats, m) else 0
  }

  /** What each material would have left, negative where it runs short. */
  function SurplusAfter(mats: map<Material, int>, total: map<Material, int>): (surplus: map<Material, int>)
    ensures forall m: Material :: m in surplus
  {
    MaterialOrder();
    map m | m in Materials :: Get(mats, m) - Get(total, m)
  }

  /** Every material is available in at least the required amount. */
  predicate HasEnough(mats: map<Material, int>, total: map<Material, int>)
  {
    forall m: Material :: Get(mats, m) >= Get(total, m)
  }

  /**
   The verdict: "nothing requested" exactly when no weapon is desired;
   otherwise "enough" exactly when no material falls short.
   */
  function Assess(mats: map<Material, int>, total: map<Material, int>, desired: int): (v: Verdict)
    ensures v == NothingRequested <==> desired == 0
    ensures desired != 0 ==> (v == Enough <==> forall m: Material :: Shortfall(mats, total)[m] == 0)
  {
    EnoughIffNoShortfall(mats, total);
    if desired == 0 then NothingRequested
    else if HasEnough(mats, total) then Enough
    else NotEnough
  }

  /**
   Shortfall and surplus tell the same story: a positive shortfall is the
   negated surplus, and with no shortfall the surplus is not negative.
   */
  lemma ShortfallMatchesSurplus(mats: map<Material, int>, total: map<Material, int>, m: Material)
    ensures Shortfall(mats, total)[m] >= 0
    ensures Shortfall(mats, total)[m] > 0 ==> SurplusAfter(mats, total)[m] == -Shortfall(mats, total)[m]
    ensures Shortfall(mats, total)[m] == 0 ==> SurplusAfter(mats, total)[m] >= 0
  {
    MaterialOrder();
  }

  /** The materials suffice exactly when no material falls short. */
  lemma EnoughIffNoShortfall(mats: map<Material, int>, total: map<Material, int>)
    ensures HasEnough(mats, total) <==> forall m: Material :: Shortfall(mats, total)[m] == 0
  {
    MaterialOrder();
    var short := Shortfall(mats, total);
    assert forall m: Material :: short[m] == 0 <==> Get(mats, m) >= Get(total, m);
  }

  /**
   Desiring no weapon requires nothing: no shortfall, the materials trivially
   suffice, and the verdict is the distinct "nothing requested".
   */
  lemma NothingRequestedWhenZero(mats: map<Material, int>, need: map<Material, int>)
    requires forall m: Material :: Get(mats, m) >= 0
    ensures forall m: Material :: Shortfall(mats, RequiredTotal(need, 0))[m] == 0
    ensures HasEnough(mats, RequiredTotal(need, 0))
    ensures Assess(mats, RequiredTotal(need, 0), 0) == NothingRequested
  {
    MaterialOrder();
    var total := RequiredTotal(need, 0);
    assert forall m: Material :: Get(total, m) == 0;
    EnoughIffNoShortfall(mats, total);
  }

  /** For non-negative per-weapon needs and inventory, enough for `desired` weapons is exactly feasibility. */
  lemma EnoughIffFeasible(inv: map<Material, int>, need: map<Material, int>, desired: int)
    requires forall m: Material :: Get(inv, m) >= 0 && Get(need, m) >= 0
    ensures HasEnough(inv, RequiredTotal(need, desired)) <==> Feasible(inv, need, desired)
  {
    MaterialOrder();
    var total := RequiredTotal(need, desired);
    forall m: Material
      ensures Get(total, m) == desired * Get(need, m)
    {
    }
  }

  /**
   The target verdict agrees with the maximum: with non-negative inputs and a
   recipe that consumes something, the materials suffice for `desired`
   weapons exactly when `desired` is at most the maximum; a recipe that
   consumes nothing always suffices.
   */
  lemma TargetAgreesWithMaximum(inv: map<Material, int>, counts: seq<int>, desired: int)
    requires |counts| == |Pieces|
    requires forall i :: 0 <= i < |counts| ==> counts[i] >= 0
    requires forall m: Material :: Get(inv, m) >= 0
    requires desired >= 0
    ensures var need := PerUnit(counts);
      NeedsSomething(need) ==>
        (HasEnough(inv, RequiredTotal(need, desired)) <==> desired <= Calculate(inv, counts).value.maxUnits)
    ensures var need := PerUnit(counts);
      !NeedsSomething(need) ==> HasEnough(inv, RequiredTotal(need, desired))
  {
    MaterialOrder();
    var need := PerUnit(counts);
    RequirementNonNegative(counts);
    assert forall m: Material :: Get(need, m) == need[m];
    EnoughIffFeasible(inv, need, desired);
    if NeedsSomething(need) {
      var best := MaxFor(inv, need);
      MaxIsGreatestFeasible(inv, need);
      if desired <= best {
        forall m: Material | Get(need, m) > 0
          ensures desired * Get(need, m) <= Get(inv, m)
        {
          MulLeft(desired, best, Get(need, m));
        }
      }
    }
  }

  /** Five weapons at 100 Ferro each from 450 Ferro: 500 required, 50 short, not enough. */
  lemma ShortfallExample()
    ensures var mats := map[Ferro := 450, Cobre := 0, Aluminio := 0, Plastico := 0];
      var total := RequiredTotal(map[Ferro := 100], 5);
      && total == map[Ferro := 500, Cobre := 0, Aluminio := 0, Plastico := 0]
      && Shortfall(mats, total) == map[Ferro := 50, Cobre := 0, Aluminio := 0, Plastico := 0]
      && SurplusAfter(mats, total)[Ferro] == -50
      && Assess(mats, total, 5) == NotEnough
  {
    MaterialOrder();
    var mats := map[Ferro := 450, Cobre := 0, Aluminio := 0, Plastico := 0];
    var total := RequiredTotal(map[Ferro := 100], 5);
    assert total.Keys == {Ferro, Cobre, Aluminio, Plastico};
    assert total == map[Ferro := 500, Cobre := 0, Aluminio := 0, Plastico := 0];
    assert Shortfall(mats, total).Keys == {Ferro, Cobre, Aluminio, Plastico};
    assert !HasEnough(mats, total) by {
      assert Get(mats, Ferro) < Get(total, Ferro);
    }
  }
}
