/**
 The recipe calculator (`calcular`): from the piece counts of one weapon it
 derives the material each weapon needs, how many weapons each material
 allows, the overall maximum and the material left over after building it.
 */
module Calculator {
  import opened Wrappers
  import opened Catalog

  /** How many weapons one material allows; `Unbounded` is the source's float('inf'). */
  datatype Limit = Finite(n: int) | Unbounded

  /** The only failure of the calculator: a count list that is not one count per piece. */
  datatype CalcError = WrongPieceCount(got: nat)

  /** The four results of a calculation, as the source returns them. */
  datatype Calculation = Calculation(
    maxUnits: int,
    limits: map<Material, Limit>,
    leftover: map<Material, int>,
    perUnit: map<Material, int>)

  /** The cost in `m` of the non-body pieces counts[1..n]. */
  function OtherCost(counts: seq<int>, n: nat, m: Material): int
    requires 1 <= n <= |counts|
  {
    if n == 1 then 0 else OtherCost(counts, n - 1, m) + counts[n - 1] * Get(ReqOther, m)
  }

  /** Material `m` needed for one weapon: body pieces at the body cost, all others at the other cost. */
  function Requirement(counts: seq<int>, m: Material): int
    requires |counts| == |Pieces|
  {
    counts[0] * Get(ReqBody, m) + OtherCost(counts, |Pieces|, m)
  }

  /** The per-weapon requirement of every material. */
  function PerUnit(counts: seq<int>): (need: map<Material, int>)
    requires |counts| == |Pieces|
    ensures forall m: Material :: m in need
  {
    MaterialOrder();
    map m | m in Materials :: Requirement(counts, m)
  }

  /** The limit one material sets: floor division when it is needed, unbounded when it is not. */
  function LimitOf(qty: int, req: int): (l: Limit)
    ensures req > 0 ==> l.Finite? && l.n * req <= qty < (l.n + 1) * req
    ensures req <= 0 ==> l == Unbounded
  {
    if req > 0 then Finite(qty / req) else Unbounded
  }

  /** The limit of every material. */
  function Limits(inv: map<Material, int>, need: map<Material, int>): (limits: map<Material, Limit>)
    ensures forall m: Material :: m in limits
  {
    MaterialOrder();
    map m | m in Materials :: LimitOf(Get(inv, m), Get(need, m))
  }

  /** The smaller of two limits, where `Unbounded` exceeds every number. */
  function Min(a: Limit, b: Limit): (l: Limit)
    ensures l == Unbounded <==> a == Unbounded && b == Unbounded
    ensures l.Finite? ==> l == a || l == b
    ensures a.Finite? ==> l.Finite? && l.n <= a.n
    ensures b.Finite? ==> l.Finite? && l.n <= b.n
  {
    match (a, b)
    case (Unbounded, _) => b
    case (_, Unbounded) => a
    case (Finite(x), Finite(y)) => Finite(if x <= y then x else y)
  }

  /** The least of the limits of `ms`. */
  function Smallest(ms: seq<Material>, limits: map<Material, Limit>): (l: Limit)
    requires forall m :: m in ms ==> m in limits
    ensures l == Unbounded <==> forall m :: m in ms ==> limits[m] == Unbounded
    ensures l.Finite? ==> exists m :: m in ms && limits[m] == l
    ensures l.Finite? ==> forall m :: m in ms && limits[m].Finite? ==> l.n <= limits[m].n
  {
    if ms == [] then Unbounded else Min(limits[ms[0]], Smallest(ms[1..], limits))
  }

  /** The overall maximum: the least limit, or 0 when every limit is unbounded. */
  function MaxUnits(limits: map<Material, Limit>): (u: int)
    requires forall m: Material :: m in limits
    ensures (forall m: Material :: limits[m] == Unbounded) ==> u == 0
    ensures (exists m: Material :: limits[m].Finite?) ==> exists m: Material :: limits[m] == Finite(u)
    ensures forall m: Material :: limits[m].Finite? ==> u <= limits[m].n
  {
    MaterialOrder();
    match Smallest(Materials, limits)
    case Unbounded => 0
    case Finite(n) => n
  }

  /** The maximum for an inventory and a per-weapon requirement. */
  function MaxFor(inv: map<Material, int>, need: map<Material, int>): int
  {
    MaxUnits(Limits(inv, need))
  }

  /** What remains of each material after building `k` weapons. */
  function Leftover(inv: map<Material, int>, need: map<Material, int>, k: int): (rest: map<Material, int>)
    ensures forall m: Material :: m in rest
  {
    MaterialOrder();
    map m | m in Materials :: Get(inv, m) - k * Get(need, m)
  }

  /** The whole calculation; it fails, with no partial result, unless there is one count per piece. */
  function Calculate(inv: map<Material, int>, counts: seq<int>): (r: Result<Calculation, CalcError>)
    ensures r.Failure? <==> |counts| != |Pieces|
    ensures r.Failure? ==> r.error.got == |counts|
  {
    if |counts| != |Pieces| then Failure(WrongPieceCount(|counts|))
    else
      var need := PerUnit(counts);
      var limits := Limits(inv, need);
      var maxUnits := MaxUnits(limits);
      Success(Calculation(maxUnits, limits, Leftover(inv, need, maxUnits), need))
  }

  /** `k` weapons fit the inventory: no material with a positive requirement runs short. */
  predicate Feasible(inv: map<Material, int>, need: map<Material, int>, k: int)
  {
    forall m: Material :: Get(need, m) > 0 ==> k * Get(need, m) <= Get(inv, m)
  }

  /** Some material is actually consumed. */
  predicate NeedsSomething(need: map<Material, int>)
  {
    exists m: Material :: Get(need, m) > 0
  }

  // ---------------------------------------------------------------------------
  // The steps of `calcular`, as the source performs them

  /** One pass over the materials: adds `count` pieces at the cost `table` to every material's requirement. */
  method AddPieces(need: map<Material, int>, count: int, table: map<Material, int>)
    returns (updated: map<Material, int>)
    requires forall m: Material :: m in need
    ensures forall m: Material :: m in updated && updated[m] == need[m] + count * Get(table, m)
  {
    MaterialOrder();
    updated := need;
    for k := 0 to |Materials|
      invariant forall m: Material :: m in updated
      invariant forall m: Material :: updated[m] == if Index(m) < k then need[m] + count * Get(table, m) else need[m]
    {
      var m := Materials[k];
      updated := updated[m := updated[m] + count * Get(table, m)];
    }
  }

  /** Accumulates the per-weapon requirement: first the body, then every other slot. */
  method ComputePerUnit(counts: seq<int>) returns (need: map<Material, int>)
    requires |counts| == |Pieces|
    ensures need == PerUnit(counts)
  {
    MaterialOrder();
    need := map m | m in Materials :: 0;
    need := AddPieces(need, counts[0], ReqBody);
    for i := 1 to |Pieces|
      invariant forall m: Material :: m in need
      invariant forall m: Material :: need[m] == counts[0] * Get(ReqBody, m) + OtherCost(counts, i, m)
    {
      need := AddPieces(need, counts[i], ReqOther);
    }
    assert need.Keys == PerUnit(counts).Keys;
  }

  /** Fills in the limit of each material, one material at a time. */
  method ComputeLimits(inv: map<Material, int>, need: map<Material, int>) returns (limits: map<Material, Limit>)
    ensures limits == Limits(inv, need)
  {
    MaterialOrder();
    limits := map[];
    for k := 0 to |Materials|
      invariant forall m: Material :: m in limits <==> Index(m) < k
      invariant forall m: Material :: m in limits ==> limits[m] == LimitOf(Get(inv, m), Get(need, m))
    {
      var m := Materials[k];
      var req := Get(need, m);
      var qty := Get(inv, m);
      if req > 0 {
        limits := limits[m := Finite(qty / req)];
      } else {
        limits := limits[m := Unbounded];
      }
    }
    assert limits.Keys == Limits(inv, need).Keys;
  }

  /** `calcular`: the per-weapon requirement, the limits, the maximum and the leftover. */
  method Calcular(inv: map<Material, int>, counts: seq<int>) returns (r: Result<Calculation, CalcError>)
    ensures r == Calculate(inv, counts)
  {
    if |counts| != |Pieces| {
      return Failure(WrongPieceCount(|counts|));
    }
    var need := ComputePerUnit(counts);
    var limits := ComputeLimits(inv, need);
    var least := Smallest(Materials, limits);
    var maxUnits := if least == Unbounded then 0 else least.n;
    r := Success(Calculation(maxUnits, limits, Leftover(inv, need, maxUnits), need));
  }

  // ---------------------------------------------------------------------------
  // Properties of the calculation

  lemma MulLeft(a: int, b: int, c: int)
    requires a <= b && c >= 0
    ensures a * c <= b * c
  {
    assert b * c - a * c == (b - a) * c;
  }

  /** A limit set by a non-negative quantity is non-negative. */
  lemma LimitNonNegative(qty: int, req: int)
    requires qty >= 0 && req > 0
    ensures LimitOf(qty, req).n >= 0
  {
    var n := LimitOf(qty, req).n;
    if n < 0 {
      MulLeft(n + 1, 0, req);
    }
  }

  /** The per-weapon requirement is body count times body cost plus the other counts' total times the other cost. */
  lemma RequirementFormula(counts: seq<int>, m: Material)
    requires |counts| == |Pieces|
    ensures Requirement(counts, m)
      == counts[0] * Get(ReqBody, m) + (counts[1] + counts[2] + counts[3] + counts[4]) * Get(ReqOther, m)
  {
    var o := Get(ReqOther, m);
    assert OtherCost(counts, 2, m) == counts[1] * o;
    assert OtherCost(counts, 3, m) == counts[1] * o + counts[2] * o;
    assert OtherCost(counts, 4, m) == counts[1] * o + counts[2] * o + counts[3] * o;
    assert OtherCost(counts, 5, m) == counts[1] * o + counts[2] * o + counts[3] * o + counts[4] * o;
  }

  lemma {:induction false} OtherCostNonNegative(counts: seq<int>, n: nat, m: Material)
    requires 1 <= n <= |counts|
    requires forall i :: 0 <= i < |counts| ==> counts[i] >= 0
    ensures OtherCost(counts, n, m) >= 0
  {
    if n > 1 {
      OtherCostNonNegative(counts, n - 1, m);
      MulLeft(0, counts[n - 1], Get(ReqOther, m));
    }
  }

  /** Non-negative piece counts never require a negative amount of material. */
  lemma RequirementNonNegative(counts: seq<int>)
    requires |counts| == |Pieces|
    requires forall i :: 0 <= i < |counts| ==> counts[i] >= 0
    ensures forall m: Material :: PerUnit(counts)[m] >= 0
  {
    MaterialOrder();
    forall m: Material
      ensures PerUnit(counts)[m] >= 0
    {
      OtherCostNonNegative(counts, |Pieces|, m);
      MulLeft(0, counts[0], Get(ReqBody, m));
    }
  }

  /** A one-body recipe whose other pieces total `others`. */
  lemma OneBodyRequirement(counts: seq<int>, others: int)
    requires |counts| == |Pieces| && counts[0] == 1
    requires counts[1] + counts[2] + counts[3] + counts[4] == others
    ensures PerUnit(counts) == map[Ferro := 100 + 10 * others, Cobre := 100 + 10 * others,
                                   Aluminio := 100 + 10 * others, Plastico := 150 + 15 * others]
  {
    MaterialOrder();
    RequirementFormula(counts, Ferro);
    RequirementFormula(counts, Cobre);
    RequirementFormula(counts, Aluminio);
    RequirementFormula(counts, Plastico);
    assert PerUnit(counts).Keys == {Ferro, Cobre, Aluminio, Plastico};
  }

  /** A recipe with a body and no negative count needs at least a body's worth of every material. */
  lemma BodyNeedsEveryMaterial(counts: seq<int>)
    requires |counts| == |Pieces| && counts[0] >= 1
    requires forall i :: 0 <= i < |counts| ==> counts[i] >= 0
    ensures forall m: Material :: PerUnit(counts)[m] >= Get(ReqBody, m) > 0
  {
    MaterialOrder();
    forall m: Material
      ensures PerUnit(counts)[m] >= Get(ReqBody, m)
    {
      OtherCostNonNegative(counts, |Pieces|, m);
      MulLeft(1, counts[0], Get(ReqBody, m));
    }
  }

  /** The per-weapon requirements of the three presets. */
  lemma PresetRequirements()
    ensures PerUnit(Presets[0].counts) == map[Ferro := 500, Cobre := 500, Aluminio := 500, Plastico := 750]
    ensures PerUnit(Presets[1].counts) == map[Ferro := 800, Cobre := 800, Aluminio := 800, Plastico := 1200]
    ensures PerUnit(Presets[2].counts) == map[Ferro := 600, Cobre := 600, Aluminio := 600, Plastico := 900]
  {
    OneBodyRequirement(Presets[0].counts, 40);
    OneBodyRequirement(Presets[1].counts, 70);
    OneBodyRequirement(Presets[2].counts, 50);
  }

  /**
   The maximum is the least limit of the consumed materials, and 0 when no
   material is consumed (every limit unbounded).
   */
  lemma MaxIsLeastLimit(inv: map<Material, int>, need: map<Material, int>)
    ensures !NeedsSomething(need) ==> MaxFor(inv, need) == 0
    ensures NeedsSomething(need) ==>
      exists m: Material :: Get(need, m) > 0 && Limits(inv, need)[m] == Finite(MaxFor(inv, need))
    ensures forall m: Material :: Get(need, m) > 0 ==>
      Limits(inv, need)[m].Finite? && MaxFor(inv, need) <= Limits(inv, need)[m].n
  {
    MaterialOrder();
    var limits := Limits(inv, need);
    var least := Smallest(Materials, limits);
    assert forall m: Material :: limits[m] == LimitOf(Get(inv, m), Get(need, m));
    if NeedsSomething(need) {
      var m: Material :| Get(need, m) > 0;
      assert limits[m].Finite?;
      assert least.Finite?;
      var w :| w in Materials && limits[w] == least;
      assert Get(need, w) > 0;
    }
  }

  /**
   When some material is consumed, the maximum is the greatest number of
   weapons the inventory covers.
   */
  lemma MaxIsGreatestFeasible(inv: map<Material, int>, need: map<Material, int>)
    requires NeedsSomething(need)
    ensures Feasible(inv, need, MaxFor(inv, need))
    ensures forall k :: Feasible(inv, need, k) ==> k <= MaxFor(inv, need)
  {
    MaxIsFeasible(inv, need);
    MaxIsLeastLimit(inv, need);
    var w: Material :| Get(need, w) > 0 && Limits(inv, need)[w] == Finite(MaxFor(inv, need));
    BeyondLimitInfeasible(inv, need, w);
  }

  /** Building the maximum never runs a needed material short. */
  lemma MaxIsFeasible(inv: map<Material, int>, need: map<Material, int>)
    ensures Feasible(inv, need, MaxFor(inv, need))
  {
    var best := MaxFor(inv, need);
    var limits := Limits(inv, need);
    MaxIsLeastLimit(inv, need);
    forall m: Material | Get(need, m) > 0
      ensures best * Get(need, m) <= Get(inv, m)
    {
      var l := LimitOf(Get(inv, m), Get(need, m));
      assert limits[m] == l;
      MulLeft(best, l.n, Get(need, m));
    }
  }

  /** No feasible count exceeds the limit of a needed material. */
  lemma BeyondLimitInfeasible(inv: map<Material, int>, need: map<Material, int>, w: Material)
    requires Get(need, w) > 0
    ensures forall k :: Feasible(inv, need, k) ==> k <= Limits(inv, need)[w].n
  {
    MaterialOrder();
    var l := LimitOf(Get(inv, w), Get(need, w));
    assert Limits(inv, need)[w] == l;
    forall k | Feasible(inv, need, k)
      ensures k <= l.n
    {
      if k > l.n {
        MulLeft(l.n + 1, k, Get(need, w));
        assert false;
      }
    }
  }

  /** More of any material never lowers the maximum. */
  lemma MaxMonotoneInInventory(inv1: map<Material, int>, inv2: map<Material, int>, need: map<Material, int>)
    requires forall m: Material :: Get(inv1, m) <= Get(inv2, m)
    ensures MaxFor(inv1, need) <= MaxFor(inv2, need)
  {
    if NeedsSomething(need) {
      MaxIsGreatestFeasible(inv1, need);
      MaxIsGreatestFeasible(inv2, need);
      assert Feasible(inv2, need, MaxFor(inv1, need));
    } else {
      MaxIsLeastLimit(inv1, need);
      MaxIsLeastLimit(inv2, need);
    }
  }

  /**
   Raising the requirement of a recipe that already consumes something never
   raises the maximum, for a non-negative inventory.
   */
  lemma MaxAntitoneInRequirement(inv: map<Material, int>, need1: map<Material, int>, need2: map<Material, int>)
    requires forall m: Material :: Get(inv, m) >= 0
    requires forall m: Material :: 0 <= Get(need1, m) <= Get(need2, m)
    requires NeedsSomething(need1)
    ensures MaxFor(inv, need2) <= MaxFor(inv, need1)
  {
    var m1: Material :| Get(need1, m1) > 0;
    assert Get(need2, m1) > 0;
    MaxIsGreatestFeasible(inv, need1);
    MaxIsGreatestFeasible(inv, need2);
    MaxIsLeastLimit(inv, need2);
    var k := MaxFor(inv, need2);
    var w: Material :| Get(need2, w) > 0 && Limits(inv, need2)[w] == Finite(k);
    assert LimitOf(Get(inv, w), Get(need2, w)) == Finite(k);
    LimitNonNegative(Get(inv, w), Get(need2, w));
    forall m: Material | Get(need1, m) > 0
      ensures k * Get(need1, m) <= Get(inv, m)
    {
      MulLeft(Get(need1, m), Get(need2, m), k);
    }
    assert Feasible(inv, need1, k);
  }

  /**
   The zero-requirement policy breaks monotonicity in the requirement: a
   recipe needing nothing allows 0 weapons, while needing one Ferro per weapon
   allows five of them from five Ferro.
   */
  lemma MaxNotAntitoneFromNothing()
    ensures var inv := map[Ferro := 5];
      MaxFor(inv, map[]) == 0 && MaxFor(inv, map[Ferro := 1]) == 5
  {
    var inv := map[Ferro := 5];
    MaxIsLeastLimit(inv, map[]);
    MaxIsLeastLimit(inv, map[Ferro := 1]);
  }

  /** A required material missing from the inventory counts as none: the maximum is at most 0, exactly 0 for a non-negative inventory. */
  lemma AbsentMaterialCountsAsZero(inv: map<Material, int>, need: map<Material, int>, m: Material)
    requires m !in inv && Get(need, m) > 0
    ensures Limits(inv, need)[m] == Finite(0)
    ensures MaxFor(inv, need) <= 0
    ensures (forall x: Material :: Get(inv, x) >= 0) ==> MaxFor(inv, need) == 0
  {
    MaterialOrder();
    assert Limits(inv, need)[m] == LimitOf(0, Get(need, m));
    MaxIsLeastLimit(inv, need);
    if forall x: Material :: Get(inv, x) >= 0 {
      var w: Material :| Get(need, w) > 0 && Limits(inv, need)[w] == Finite(MaxFor(inv, need));
      assert Limits(inv, need)[w] == LimitOf(Get(inv, w), Get(need, w));
      LimitNonNegative(Get(inv, w), Get(need, w));
    }
  }

  /** An all-zero recipe builds 0 weapons, whatever the inventory. */
  lemma ZeroRecipeBuildsNothing(inv: map<Material, int>, counts: seq<int>)
    requires |counts| == |Pieces|
    requires forall i :: 0 <= i < |counts| ==> counts[i] == 0
    ensures Calculate(inv, counts).value.maxUnits == 0
  {
    var need := PerUnit(counts);
    assert Calculate(inv, counts).value.maxUnits == MaxFor(inv, need);
    forall m: Material
      ensures Get(need, m) == 0
    {
      RequirementFormula(counts, m);
    }
    assert !NeedsSomething(need);
    MaxIsLeastLimit(inv, need);
  }

  /**
   With non-negative inputs, the leftover of every material is what remains
   after building the maximum, and it is never negative.
   */
  lemma LeftoverNonNegative(inv: map<Material, int>, counts: seq<int>)
    requires |counts| == |Pieces|
    requires forall i :: 0 <= i < |counts| ==> counts[i] >= 0
    requires forall m: Material :: Get(inv, m) >= 0
    ensures var c := Calculate(inv, counts).value;
      forall m: Material :: m in c.leftover && c.leftover[m] == Get(inv, m) - c.maxUnits * c.perUnit[m] >= 0
  {
    var need := PerUnit(counts);
    var best := MaxFor(inv, need);
    var c := Calculate(inv, counts).value;
    assert c == Calculation(best, Limits(inv, need), Leftover(inv, need, best), need);
    RequirementNonNegative(counts);
    MaxIsFeasible(inv, need);
    forall m: Material
      ensures Leftover(inv, need, best)[m] == Get(inv, m) - best * need[m] >= 0
    {
      LeftoverOfFeasible(inv, need, best, m);
    }
  }

  /** After building a feasible count, a material with a non-negative requirement and quantity has a non-negative leftover. */
  lemma LeftoverOfFeasible(inv: map<Material, int>, need: map<Material, int>, k: int, m: Material)
    requires m in need && need[m] >= 0 && Get(inv, m) >= 0
    requires Feasible(inv, need, k)
    ensures Leftover(inv, need, k)[m] == Get(inv, m) - k * need[m] >= 0
  {
    MaterialOrder();
    assert Get(need, m) == need[m];
    if need[m] == 0 {
      assert k * need[m] == 0;
    }
  }

  /** The worked example, step one: ten bodies need 1000 of each metal and 1500 Plastico. */
  lemma WorkedExampleRequirement()
    ensures PerUnit([10, 0, 0, 0, 0]) == map[Ferro := 1000, Cobre := 1000, Aluminio := 1000, Plastico := 1500]
  {
    var counts := [10, 0, 0, 0, 0];
    MaterialOrder();
    RequirementFormula(counts, Ferro);
    RequirementFormula(counts, Cobre);
    RequirementFormula(counts, Aluminio);
    RequirementFormula(counts, Plastico);
    assert PerUnit(counts).Keys == {Ferro, Cobre, Aluminio, Plastico};
  }

  /** The worked example, step two: limits 2, 3, 1 and 1, so one weapon. */
  lemma WorkedExampleLimits(inv: map<Material, int>, need: map<Material, int>)
    requires inv == map[Ferro := 2500, Cobre := 3000, Aluminio := 1000, Plastico := 1500]
    requires need == map[Ferro := 1000, Cobre := 1000, Aluminio := 1000, Plastico := 1500]
    ensures Limits(inv, need) == map[Ferro := Finite(2), Cobre := Finite(3), Aluminio := Finite(1), Plastico := Finite(1)]
    ensures MaxFor(inv, need) == 1
  {
    MaterialOrder();
    var limits := Limits(inv, need);
    assert limits[Ferro] == LimitOf(2500, 1000) == Finite(2);
    assert limits[Cobre] == LimitOf(3000, 1000) == Finite(3);
    assert limits[Aluminio] == LimitOf(1000, 1000) == Finite(1);
    assert limits[Plastico] == LimitOf(1500, 1500) == Finite(1);
    assert limits.Keys == {Ferro, Cobre, Aluminio, Plastico};
    assert MaxUnits(limits) <= 1 && exists m: Material :: limits[m] == Finite(MaxUnits(limits));
  }

  /** The worked example, step three: building one weapon leaves 1500 Ferro, 2000 Cobre and nothing else. */
  lemma WorkedExampleLeftover(inv: map<Material, int>, need: map<Material, int>)
    requires inv == map[Ferro := 2500, Cobre := 3000, Aluminio := 1000, Plastico := 1500]
    requires need == map[Ferro := 1000, Cobre := 1000, Aluminio := 1000, Plastico := 1500]
    ensures Leftover(inv, need, 1) == map[Ferro := 1500, Cobre := 2000, Aluminio := 0, Plastico := 0]
  {
    MaterialOrder();
    assert Leftover(inv, need, 1).Keys == {Ferro, Cobre, Aluminio, Plastico};
  }

  /** The worked example as one calculation. */
  lemma WorkedExample()
    ensures var c := Calculate(map[Ferro := 2500, Cobre := 3000, Aluminio := 1000, Plastico := 1500],
                               [10, 0, 0, 0, 0]).value;
      && c.perUnit == map[Ferro := 1000, Cobre := 1000, Aluminio := 1000, Plastico := 1500]
      && c.limits == map[Ferro := Finite(2), Cobre := Finite(3), Aluminio := Finite(1), Plastico := Finite(1)]
      && c.maxUnits == 1
      && c.leftover == map[Ferro := 1500, Cobre := 2000, Aluminio := 0, Plastico := 0]
  {
    var inv := map[Ferro := 2500, Cobre := 3000, Aluminio := 1000, Plastico := 1500];
    var need := map[Ferro := 1000, Cobre := 1000, Aluminio := 1000, Plastico := 1500];
    WorkedExampleRequirement();
    WorkedExampleLimits(inv, need);
    WorkedExampleLeftover(inv, need);
  }
}
