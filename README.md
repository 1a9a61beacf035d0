# Weapon recipe calculator — a Dafny model

This project models the arithmetic core of a desktop weapon-crafting calculator,
`calculadora_armas.py`. A weapon is built from five pieces: one body and four
other slots (barrel, butt, handle, spring). Each piece consumes four raw materials:
Ferro, Cobre, Aluminio and Plastico. A body costs 100/100/100/150 of these, and
any other piece costs 10/10/10/15.

Given an inventory and the piece counts of one weapon (typed by hand, or filled
in from the PDW, KBZ and P90 presets), the calculator (`calcular`) computes:
- how much of each material one weapon needs;
- how many weapons each material alone allows (floor division, or unbounded
  when the material is not needed);
- the overall maximum, which is the least limit, or 0 when every limit is unbounded;
- the material left over after building that maximum.

The result panel (`mostrar_resultado`) first validates the input fields. It then
reruns the calculation for every preset, and measures a desired number of weapons
against the inventory: the total required, the shortfall, the surplus, and a
verdict ("nothing requested", "enough" or "not enough").

Modules, one per part of the source:
- `Wrappers` (wrappers.dfy): the `Result` type that stands for the source's exceptions.
- `Catalog` (catalog.dfy): materials, pieces, cost tables and presets.
- `Calculator` (calculator.dfy): `calcular`. Its loops are the methods `AddPieces` and
  `ComputePerUnit` (the requirement) and `ComputeLimits` (the limits). The method
  `Calcular` calls them and has no loop of its own. Each method is proved equal to a
  pure function (`PerUnit`, `Limits`, `Calculate`). The lemmas about the maximum are
  stated on these functions.
- `Target` (target.dfy): required total, shortfall, surplus and verdict.
- `Validation` (validation.dfy): the field rules. The method `ReadInputs` is proved
  equal to the function `Validate`.
- `Report` (report.dfy): the per-preset loop (`RankPresets`) and one whole refresh
  of the panel (`ShowResult`, specified by `Evaluate`).

Modelling decisions:
- Quantities are unbounded integers, like Python's.
- `calcular` does not check signs, so it is modelled on `int`. Properties that need
  non-negative inputs say so in their `requires`. Validation guarantees those inputs
  (`ValidInputsNonNegative`), and `EvaluateMeaning` puts the two together.
- `float('inf')` is the `Unbounded` constructor of `Limit`.
- Python's `//` with a positive divisor is Dafny's `/`.
- `dict.get(m, 0)` is `Get`. A missing key reads as 0.
- An input field is already split into the three cases `int(txt)` tells apart:
  `Blank`, `Integer(v)` and `NotAnInteger`.
- A dictionary that the source fills in catalog order becomes a sequence of pairs,
  so the display order is kept. Recipe names in such a catalog are distinct
  (`WellFormedCatalog`), so the sequence has one entry per dictionary key.

Behaviour worth knowing:
- Raising a per-weapon requirement does not always lower or keep the maximum.
  The zero-requirement policy makes the all-zero recipe build 0 weapons. With
  five Ferro in stock, a recipe needing one Ferro per weapon builds five
  (`MaxNotAntitoneFromNothing`). The monotonicity holds once the recipe consumes
  something (`MaxAntitoneInRequirement`).
- A preset has only a name and five counts: it carries no category.
- The per-preset ranking is a dictionary filled in catalog order. The model keeps
  that order, as the sequence `Ranking`.

## Model

| member | source | states |
|---|---|---|
| `Catalog.Get` | calculadora_armas.py:34 | definition of `dict.get(m, 0)`, used wherever the source reads a table (34, 38, 43, 44, 58): the stored value, or 0 for an absent key |
| `Catalog.MaterialOrder` | calculadora_armas.py:12 | the material list names each of the four materials exactly once, in a fixed order |
| `Catalog.PresetsWellFormed` | calculadora_armas.py:13-17 | every preset gives five non-negative counts, and preset names are distinct |
| `Calculator.Calculate` | calculadora_armas.py:27-28 | the calculation fails, with no partial result, exactly when the count list does not have one entry per piece, and the error carries the length |
| `Calculator.OtherCost` | calculadora_armas.py:36-38 | definition: the cost in one material of the non-body slots up to a given slot, accumulated one slot at a time; `RequirementFormula` gives its closed form |
| `Calculator.Requirement` | calculadora_armas.py:31-38 | definition: one weapon's need of one material, body count × body cost plus the other slots' cost; see `RequirementFormula` |
| `Calculator.RequirementFormula` | calculadora_armas.py:31-38 | one weapon needs body count × body cost plus (sum of the four other counts) × other cost of each material |
| `Calculator.AddPieces` | calculadora_armas.py:33-38 | one pass over the materials adds count × per-piece cost to every material's requirement and to nothing else |
| `Calculator.ComputePerUnit` | calculadora_armas.py:31-38 | the nested accumulation loops produce exactly the per-weapon requirement of every material |
| `Calculator.PerUnit` | calculadora_armas.py:31 | the requirement table has an entry for every material |
| `Calculator.RequirementNonNegative` | calculadora_armas.py:31-38 | non-negative piece counts never need a negative amount of any material |
| `Calculator.BodyNeedsEveryMaterial` | calculadora_armas.py:31-38 | a recipe with at least one body and no negative count needs at least a body's cost of every material |
| `Calculator.OneBodyRequirement` | calculadora_armas.py:9-10 | a one-body recipe whose other pieces total s needs 100+10s of each metal and 150+15s Plastico |
| `Calculator.PresetRequirements` | calculadora_armas.py:14-16 | PDW needs 500/500/500/750, KBZ 800/800/800/1200, P90 600/600/600/900 |
| `Calculator.LimitOf` | calculadora_armas.py:45-48 | with a positive requirement the limit n is the floor quotient (n·req ≤ qty < (n+1)·req); else it is unbounded |
| `Calculator.ComputeLimits` | calculadora_armas.py:41-48 | the limits loop gives each material the limit of its quantity and requirement |
| `Calculator.Limits` | calculadora_armas.py:41-48 | the limits table has an entry for every material |
| `Calculator.Min` | calculadora_armas.py:51 | the smaller of two limits: unbounded exactly when both are; otherwise one of the two, and at most either finite one |
| `Calculator.Smallest` | calculadora_armas.py:51 | the least limit is unbounded exactly when all are; when finite it is one of the limits and at most every finite limit |
| `Calculator.MaxUnits` | calculadora_armas.py:51-55 | definition of `max_armas`: 0 when every limit is unbounded; otherwise a finite limit of some material that is at most every finite limit |
| `Calculator.MaxIsLeastLimit` | calculadora_armas.py:51-55 | the maximum is 0 when no material is needed; otherwise it is the limit of some needed material and at most every needed material's limit |
| `Calculator.MaxIsGreatestFeasible` | calculadora_armas.py:46 | when some material is needed, the maximum k has k·req ≤ qty for every needed material, and every such k is at most the maximum |
| `Calculator.MaxIsFeasible` | calculadora_armas.py:46-55 | building the maximum never runs a needed material short |
| `Calculator.BeyondLimitInfeasible` | calculadora_armas.py:46 | no count above a needed material's floor quotient fits the inventory |
| `Calculator.MaxMonotoneInInventory` | calculadora_armas.py:44-55 | more of any material never lowers the maximum |
| `Calculator.MaxAntitoneInRequirement` | calculadora_armas.py:43-55 | raising the requirement of a recipe that already needs something never raises the maximum, for a non-negative inventory |
| `Calculator.MaxNotAntitoneFromNothing` | calculadora_armas.py:52-53 | the zero-requirement policy: needing nothing allows 0 from five Ferro, needing one Ferro allows 5 |
| `Calculator.AbsentMaterialCountsAsZero` | calculadora_armas.py:44 | a needed material missing from the inventory has limit 0; the maximum is then ≤ 0, and 0 for a non-negative inventory |
| `Calculator.LimitNonNegative` | calculadora_armas.py:46 | the floor quotient of a non-negative quantity is non-negative |
| `Calculator.ZeroRecipeBuildsNothing` | calculadora_armas.py:52-53 | an all-zero recipe allows 0 weapons whatever the inventory |
| `Calculator.Leftover` | calculadora_armas.py:58 | the leftover table has an entry for every material |
| `Calculator.LeftoverOfFeasible` | calculadora_armas.py:58 | after building a feasible count, a material with non-negative need and quantity has leftover quantity − count × need ≥ 0 |
| `Calculator.LeftoverNonNegative` | calculadora_armas.py:58 | with non-negative inputs the leftover is the quantity minus maximum × requirement, and never negative |
| `Calculator.Calcular` | calculadora_armas.py:19-59 | the method returns exactly the result of `Calculate`, failure included |
| `Calculator.WorkedExampleRequirement` | calculadora_armas.py:31-38 | ten bodies and nothing else need 1000 of each metal and 1500 Plastico |
| `Calculator.WorkedExampleLimits` | calculadora_armas.py:41-55 | 2500/3000/1000/1500 against 1000/1000/1000/1500 gives limits 2, 3, 1, 1 and maximum 1 |
| `Calculator.WorkedExampleLeftover` | calculadora_armas.py:58 | building one weapon there leaves 1500, 2000, 0, 0 |
| `Calculator.WorkedExample` | calculadora_armas.py:19-59 | the same example as one calculation |
| `Target.RequiredTotal` | calculadora_armas.py:212 | the required total has an entry for every material |
| `Target.Shortfall` | calculadora_armas.py:213 | the shortfall has an entry for every material |
| `Target.SurplusAfter` | calculadora_armas.py:214 | the surplus has an entry for every material |
| `Target.ShortfallMatchesSurplus` | calculadora_armas.py:213-214 | the shortfall is never negative; a positive shortfall is the negated surplus; with no shortfall the surplus is ≥ 0 |
| `Target.HasEnough` | calculadora_armas.py:249 | definition of the test `all(mats[m] >= required_total[m])`; see `EnoughIffNoShortfall` and `EnoughIffFeasible` |
| `Target.EnoughIffNoShortfall` | calculadora_armas.py:249 | the materials suffice exactly when no material has a shortfall |
| `Target.Assess` | calculadora_armas.py:237-252 | the verdict is "nothing requested" exactly when the desired count is 0; otherwise "enough" exactly when no material falls short |
| `Target.NothingRequestedWhenZero` | calculadora_armas.py:237-238 | desiring 0 weapons with a non-negative inventory gives no shortfall, trivially suffices and gives the distinct "nothing requested" verdict |
| `Target.EnoughIffFeasible` | calculadora_armas.py:212-249 | for non-negative needs and inventory, enough for d weapons is the same as d weapons being feasible |
| `Target.TargetAgreesWithMaximum` | calculadora_armas.py:200-249 | with validated inputs and a recipe that needs something, the materials suffice for d weapons exactly when d ≤ the maximum; a recipe needing nothing always suffices |
| `Target.ShortfallExample` | calculadora_armas.py:212-214 | 5 weapons at 100 Ferro from 450 Ferro: 500 required, 50 short, surplus −50, not enough |
| `Validation.Parse` | calculadora_armas.py:180 | definition of reading one field (also at 186 and 191): blank is 0, an integer is its value, other text is refused as non-numeric |
| `Validation.ReadMaterials` | calculadora_armas.py:177-182 | definition of the material loop: each field is parsed and checked for a negative value before the next; see `ReadMaterialsMeaning` and `ReadMaterialsFirstError` |
| `Validation.ReadCounts` | calculadora_armas.py:183-186 | definition of the piece loop: each field is parsed, in slot order; see `ReadCountsMeaning` and `ReadCountsError` |
| `Validation.Validate` | calculadora_armas.py:176-193 | definition of the whole validation: materials, then pieces, then the negative-piece test, then the desired count; see `ValidateMeaning` and `ValidateErrorPrecedence` |
| `Validation.ReadMaterialsFailureSticks` | calculadora_armas.py:178-182 | the first refused material field decides the error; later fields are not read |
| `Validation.ReadCountsFailureSticks` | calculadora_armas.py:184-186 | the first unparsable piece field decides the error |
| `Validation.ReadMaterialsMeaning` | calculadora_armas.py:177-182 | the material fields are read exactly when each is blank or a non-negative integer, and each material then holds its field's value (blank is 0) |
| `Validation.ReadCountsMeaning` | calculadora_armas.py:183-186 | the piece fields parse exactly when none is non-numeric, giving their values in order (blank is 0) |
| `Validation.ReadMaterialsFirstError` | calculadora_armas.py:177-182 | the first refused material field decides the error: non-numeric text, or a negative quantity |
| `Validation.ReadCountsError` | calculadora_armas.py:183-186 | a refused piece field is always refused as non-numeric |
| `Validation.ValidateErrorPrecedence` | calculadora_armas.py:176-193 | the error reported is the first refused material's; else non-numeric if any piece field is, even after a negative one; else negative pieces; else the desired field's (non-numeric or negative) |
| `Validation.ValidateMeaning` | calculadora_armas.py:176-196 | the inputs are accepted exactly when every field is blank or a non-negative integer; then every value is its field's value with blanks as 0, with one count per piece |
| `Validation.ValidInputsNonNegative` | calculadora_armas.py:181-193 | accepted materials, counts and desired count are never negative |
| `Validation.ReadInputs` | calculadora_armas.py:176-196 | the reading loops return exactly the result of `Validate`, stopping at the first refusal |
| `Report.Ranking` | calculadora_armas.py:206-209 | definition of `preset_possiveis`: each recipe's name with the maximum `calcular` gives for it, in catalog order; see `RankingIsGreatestFeasible` |
| `Report.Evaluate` | calculadora_armas.py:174-214 | definition of the values one refresh shows; see `EvaluateMeaning` |
| `Report.RankingIsGreatestFeasible` | calculadora_armas.py:206-209 | each preset's figure is the greatest number of its weapons the inventory covers, and non-negative for a non-negative inventory |
| `Report.RankingValues` | calculadora_armas.py:206-209 | the three figures are the maxima for the PDW, KBZ and P90 requirements |
| `Report.RankingOrder` | calculadora_armas.py:206-209 | for a non-negative inventory the figures satisfy KBZ ≤ P90 ≤ PDW |
| `Report.RankingEntry` | calculadora_armas.py:208-209 | the entry the loop appends for a recipe is that recipe's name and the maximum `calcular` returns for it |
| `Report.RankPresets` | calculadora_armas.py:206-209 | the per-preset loop yields every recipe's name and maximum, in catalog order |
| `Report.EvaluateMeaning` | calculadora_armas.py:174-214 | a refresh fails only for bad input, exactly when a field is unacceptable, never in the calculation; a shown result has no negative leftover and a consistent verdict |
| `Report.ShowResult` | calculadora_armas.py:174-214 | the refresh computes exactly the values of `Evaluate` |

## Left out

- The PyQt6 window: widgets, layout, styling, signal wiring and the event loop. This is presentation over a library that is not modelled.
- The result text: its layout, headers and number formatting. The model keeps the values it shows (`Report`).
- Python's `str.strip` and `int(txt)` on arbitrary text. A field is an already-lexed `Field`, and every parse failure is `NotAnIntegerField`.
- The exception messages. Each error is a constructor of `InputError`, `CalcError` or `ReportError`.
- `WrongPieceCount`: its field, the length received, is the model's own. The source's message names the expected pieces instead.
- `aplicar_preset`: it only copies a preset's counts into the text fields, falling back to PDW for an unknown name. This is UI state, not arithmetic.
- `float('inf')` as a floating-point value. Only its order against integers matters, and `Unbounded` models that order.
- Repeatability of a calculation. It holds by construction: every specification is a function of its inputs.
- `ReadInputs`, `Validate`: they require one field per material and per piece. The window always builds exactly those fields.
