/**
 The fixed tables of the weapon calculator: the four raw materials, the five
 piece slots of a weapon, the per-piece material costs and the preset recipes.
 */
module Catalog {

  /** The raw materials, in the order the calculator iterates over them. */
  datatype Material = Ferro | Cobre | Aluminio | Plastico

  /** The five piece slots of a weapon; only the body has its own cost table. */
  datatype Piece = Body | GunBarrel | GunButt | GunHandle | GunSpring

  const Materials: seq<Material> := [Ferro, Cobre, Aluminio, Plastico]

  const Pieces: seq<Piece> := [Body, GunBarrel, GunButt, GunHandle, GunSpring]

  /** Material consumed by one body piece. */
  const ReqBody: map<Material, int> :=
    map[Ferro := 100, Cobre := 100, Aluminio := 100, Plastico := 150]

  /** Material consumed by one piece of any other slot. */
  const ReqOther: map<Material, int> :=
    map[Ferro := 10, Cobre := 10, Aluminio := 10, Plastico := 15]

  /** A named recipe: how many pieces of each slot one weapon takes. */
  datatype Preset = Preset(name: string, counts: seq<int>)

  /** The preset catalog, in declaration (and display) order. */
  const Presets: seq<Preset> := [
    Preset("PDW", [1, 10, 10, 10, 10]),
    Preset("KBZ", [1, 18, 17, 18, 17]),
    Preset("P90", [1, 13, 13, 12, 12])
  ]

  /** Looks a material up in a table, reading an absent key as 0. */
  function Get(amounts: map<Material, int>, m: Material): int
  {
    if m in amounts then amounts[m] else 0
  }

  /** The position of a material in `Materials`. */
  function Index(m: Material): nat
  {
    match m
    case Ferro => 0
    case Cobre => 1
    case Aluminio => 2
    case Plastico => 3
  }

  /** `Materials` lists every material exactly once, at its `Index`. */
  lemma MaterialOrder()
    ensures |Materials| == 4
    ensures forall m: Material :: m in Materials
    ensures forall m: Material :: Index(m) < |Materials| && Materials[Index(m)] == m
    ensures forall k :: 0 <= k < |Materials| ==> Index(Materials[k]) == k
  {
    forall m: Material
      ensures m in Materials
    {
      assert Materials[Index(m)] == m;
    }
    forall k | 0 <= k < |Materials|
      ensures Index(Materials[k]) == k
    {
      if k == 0 {
      } else if k == 1 {
      } else if k == 2 {
      } else {
      }
    }
  }

  /** Every preset supplies one non-negative count per piece slot, and preset names are distinct. */
  lemma PresetsWellFormed()
    ensures forall i :: 0 <= i < |Presets| ==> |Presets[i].counts| == |Pieces|
    ensures forall i, j :: 0 <= i < |Presets| && 0 <= j < |Presets[i].counts| ==>
      Presets[i].counts[j] >= 0
    ensures forall i, j :: 0 <= i < j < |Presets| ==> Presets[i].name != Presets[j].name
  {
  }
}
