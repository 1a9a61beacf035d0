/**
 The input rules of `mostrar_resultado`: an empty field reads as 0, a field
 that is not an integer is refused, and a negative material quantity, piece
 count or desired count is refused, each with its own error.
 */
module Validation {
  import opened Wrappers
  import opened Catalog

  /** The text of one input field, as `int(txt)` sees it after stripping. */
  datatype Field = Blank | Integer(v: int) | NotAnInteger

  datatype InputError = NotAnIntegerField | NegativeMaterial | NegativePieces | NegativeDesired

  /** The validated inputs of one calculation. */
  datatype Inputs = Inputs(mats: map<Material, int>, counts: seq<int>, desired: int)

  /** A blank field is 0, an integer field is its value, anything else is an error. */
  function Parse(f: Field): Result<int, InputError>
  {
    match f
    case Blank => Success(0)
    case Integer(v) => Success(v)
    case NotAnInteger => Failure(NotAnIntegerField)
  }

  /** A field the rules accept: blank, or a non-negative integer. */
  predicate Acceptable(f: Field)
  {
    f.Blank? || (f.Integer? && f.v >= 0)
  }

  /** Every field of one refresh is acceptable. */
  predicate AllAcceptable(matFields: seq<Field>, countFields: seq<Field>, desiredField: Field)
  {
    && (forall i :: 0 <= i < |matFields| ==> Acceptable(matFields[i]))
    && (forall i :: 0 <= i < |countFields| ==> Acceptable(countFields[i]))
    && Acceptable(desiredField)
  }

  /** The number an acceptable field stands for. */
  function Value(f: Field): int
  {
    if f.Integer? then f.v else 0
  }

  /** Reads the first `k` material fields; each one is parsed and checked before the next is read. */
  function ReadMaterials(fields: seq<Field>, k: nat): Result<map<Material, int>, InputError>
    requires k <= |fields| <= |Materials|
  {
    if k == 0 then Success(map[])
    else
      match ReadMaterials(fields, k - 1)
      case Failure(e) => Failure(e)
      case Success(mats) =>
        match Parse(fields[k - 1])
        case Failure(e) => Failure(e)
        case Success(v) => if v < 0 then Failure(NegativeMaterial) else Success(mats[Materials[k - 1] := v])
  }

  /** Parses the first `k` piece fields, in order. */
  function ReadCounts(fields: seq<Field>, k: nat): Result<seq<int>, InputError>
    requires k <= |fields|
  {
    if k == 0 then Success([])
    else
      match ReadCounts(fields, k - 1)
      case Failure(e) => Failure(e)
      case Success(counts) =>
        match Parse(fields[k - 1])
        case Failure(e) => Failure(e)
        case Success(v) => Success(counts + [v])
  }

  /** All the rules, in the order the source applies them: materials, pieces, then desired count. */
  function Validate(matFields: seq<Field>, countFields: seq<Field>, desiredField: Field): Result<Inputs, InputError>
    requires |matFields| == |Materials| && |countFields| == |Pieces|
  {
    match ReadMaterials(matFields, |Materials|)
    case Failure(e) => Failure(e)
    case Success(mats) =>
      match ReadCounts(countFields, |Pieces|)
      case Failure(e) => Failure(e)
      case Success(counts) =>
        if exists i :: 0 <= i < |counts| && counts[i] < 0 then Failure(NegativePieces)
        else
          match Parse(desiredField)
          case Failure(e) => Failure(e)
          case Success(d) => if d < 0 then Failure(NegativeDesired) else Success(Inputs(mats, counts, d))
  }

  // ---------------------------------------------------------------------------
  // Properties of the rules

  /** Once a material field is refused, reading further fields keeps that error. */
  lemma {:induction false} ReadMaterialsFailureSticks(fields: seq<Field>, k: nat, n: nat)
    requires k <= n <= |fields| <= |Materials|
    requires ReadMaterials(fields, k).Failure?
    ensures ReadMaterials(fields, n) == ReadMaterials(fields, k)
    decreases n
  {
    if n > k {
      ReadMaterialsFailureSticks(fields, k, n - 1);
    }
  }

  /** Once a piece field is refused, parsing further fields keeps that error. */
  lemma {:induction false} ReadCountsFailureSticks(fields: seq<Field>, k: nat, n: nat)
    requires k <= n <= |fields|
    requires ReadCounts(fields, k).Failure?
    ensures ReadCounts(fields, n) == ReadCounts(fields, k)
    decreases n
  {
    if n > k {
      ReadCountsFailureSticks(fields, k, n - 1);
    }
  }

  /**
   The first `k` material fields are read exactly when each is acceptable,
   and then every one of those materials holds its field's value.
   */
  lemma {:induction false} ReadMaterialsMeaning(fields: seq<Field>, k: nat)
    requires k <= |fields| <= |Materials|
    ensures ReadMaterials(fields, k).Success? <==> forall i :: 0 <= i < k ==> Acceptable(fields[i])
    ensures ReadMaterials(fields, k).Success? ==>
      forall m: Material :: (m in ReadMaterials(fields, k).value <==> Index(m) < k)
    ensures ReadMaterials(fields, k).Success? ==>
      forall m: Material :: Index(m) < k ==> ReadMaterials(fields, k).value[m] == Value(fields[Index(m)])
  {
    MaterialOrder();
    if k > 0 {
      ReadMaterialsMeaning(fields, k - 1);
    }
  }

  /** The first `k` piece fields parse exactly when each is blank or an integer, giving their values in order. */
  lemma {:induction false} ReadCountsMeaning(fields: seq<Field>, k: nat)
    requires k <= |fields|
    ensures ReadCounts(fields, k).Success? <==> forall i :: 0 <= i < k ==> !fields[i].NotAnInteger?
    ensures ReadCounts(fields, k).Success? ==>
      |ReadCounts(fields, k).value| == k &&
      forall i :: 0 <= i < k ==> ReadCounts(fields, k).value[i] == Value(fields[i])
  {
    if k > 0 {
      ReadCountsMeaning(fields, k - 1);
    }
  }

  /**
   The inputs are accepted exactly when every field is blank or a
   non-negative integer; then blanks read as 0, the material map covers every
   material, and there is one count per piece.
   */
  lemma ValidateMeaning(matFields: seq<Field>, countFields: seq<Field>, desiredField: Field)
    requires |matFields| == |Materials| && |countFields| == |Pieces|
    ensures Validate(matFields, countFields, desiredField).Success? <==>
      AllAcceptable(matFields, countFields, desiredField)
    ensures var r := Validate(matFields, countFields, desiredField);
      r.Success? ==>
        && (forall m: Material :: m in r.value.mats && r.value.mats[m] == Value(matFields[Index(m)]))
        && |r.value.counts| == |Pieces|
        && (forall i :: 0 <= i < |Pieces| ==> r.value.counts[i] == Value(countFields[i]))
        && r.value.desired == Value(desiredField)
  {
    MaterialOrder();
    ReadMaterialsMeaning(matFields, |Materials|);
    ReadCountsMeaning(countFields, |Pieces|);
  }

  /** The first refused material field decides the error: non-numeric text, or a negative quantity. */
  lemma {:induction false} ReadMaterialsFirstError(fields: seq<Field>, k: nat, i: nat)
    requires i < k <= |fields| <= |Materials|
    requires !Acceptable(fields[i]) && forall j :: 0 <= j < i ==> Acceptable(fields[j])
    ensures ReadMaterials(fields, k) == Failure(if fields[i].NotAnInteger? then NotAnIntegerField else NegativeMaterial)
    decreases k
  {
    if k == i + 1 {
      ReadMaterialsMeaning(fields, i);
    } else {
      ReadMaterialsFirstError(fields, k - 1, i);
    }
  }

  /** A refused piece field is always refused as non-numeric, whichever field it is. */
  lemma {:induction false} ReadCountsError(fields: seq<Field>, k: nat)
    requires k <= |fields|
    ensures ReadCounts(fields, k).Failure? ==> ReadCounts(fields, k).error == NotAnIntegerField
  {
    if k > 0 {
      ReadCountsError(fields, k - 1);
    }
  }

  /**
   Which error a refused refresh reports, in the order the source checks:
   the first refused material field (non-numeric or negative); then any
   non-numeric piece field, even after a negative one; then a negative piece
   count; then the desired count (non-numeric or negative).
   */
  lemma ValidateErrorPrecedence(matFields: seq<Field>, countFields: seq<Field>, desiredField: Field)
    requires |matFields| == |Materials| && |countFields| == |Pieces|
    ensures var r := Validate(matFields, countFields, desiredField);
      forall i :: 0 <= i < |Materials| && !Acceptable(matFields[i]) && (forall j :: 0 <= j < i ==> Acceptable(matFields[j])) ==>
        r == Failure(if matFields[i].NotAnInteger? then NotAnIntegerField else NegativeMaterial)
    ensures var r := Validate(matFields, countFields, desiredField);
      (forall i :: 0 <= i < |Materials| ==> Acceptable(matFields[i])) ==>
        && ((exists i :: 0 <= i < |Pieces| && countFields[i].NotAnInteger?) ==> r == Failure(NotAnIntegerField))
        && (&& (forall i :: 0 <= i < |Pieces| ==> !countFields[i].NotAnInteger?)
            && (exists i :: 0 <= i < |Pieces| && !Acceptable(countFields[i]))
            ==> r == Failure(NegativePieces))
        && ((forall i :: 0 <= i < |Pieces| ==> Acceptable(countFields[i])) && !Acceptable(desiredField) ==>
            r == Failure(if desiredField.NotAnInteger? then NotAnIntegerField else NegativeDesired))
  {
    forall i | 0 <= i < |Materials| && !Acceptable(matFields[i]) && (forall j :: 0 <= j < i ==> Acceptable(matFields[j]))
      ensures ReadMaterials(matFields, |Materials|) ==
        Failure(if matFields[i].NotAnInteger? then NotAnIntegerField else NegativeMaterial)
    {
      ReadMaterialsFirstError(matFields, |Materials|, i);
    }
    ReadMaterialsMeaning(matFields, |Materials|);
    ReadCountsMeaning(countFields, |Pieces|);
    ReadCountsError(countFields, |Pieces|);
    var rc := ReadCounts(countFields, |Pieces|);
    if rc.Success? {
      assert forall i :: 0 <= i < |Pieces| ==> (rc.value[i] < 0 <==> !Acceptable(countFields[i]));
    }
  }

  /** Accepted inputs are never negative. */
  lemma ValidInputsNonNegative(matFields: seq<Field>, countFields: seq<Field>, desiredField: Field)
    requires |matFields| == |Materials| && |countFields| == |Pieces|
    requires Validate(matFields, countFields, desiredField).Success?
    ensures var inputs := Validate(matFields, countFields, desiredField).value;
      && (forall m: Material :: Get(inputs.mats, m) >= 0)
      && (forall i :: 0 <= i < |inputs.counts| ==> inputs.counts[i] >= 0)
      && inputs.desired >= 0
  {
    MaterialOrder();
    ValidateMeaning(matFields, countFields, desiredField);
    var inputs := Validate(matFields, countFields, desiredField).value;
    forall m: Material
      ensures Get(inputs.mats, m) >= 0
    {
      assert Acceptable(matFields[Index(m)]);
    }
    forall i | 0 <= i < |inputs.counts|
      ensures inputs.counts[i] >= 0
    {
      assert Acceptable(countFields[i]);
    }
  }

  // ---------------------------------------------------------------------------
  // The reading loops, as the source runs them

  /** Reads and checks every field, stopping at the first refusal. */
  method ReadInputs(matFields: seq<Field>, countFields: seq<Field>, desiredField: Field)
    returns (r: Result<Inputs, InputError>)
    requires |matFields| == |Materials| && |countFields| == |Pieces|
    ensures r == Validate(matFields, countFields, desiredField)
  {
    var mats: map<Material, int> := map[];
    for k := 0 to |Materials|
      invariant ReadMaterials(matFields, k) == Success(mats)
    {
      var parsed := Parse(matFields[k]);
      if parsed.Failure? || parsed.value < 0 {
        var e := if parsed.Failure? then parsed.error else NegativeMaterial;
        ReadMaterialsFailureSticks(matFields, k + 1, |Materials|);
        return Failure(e);
      }
      mats := mats[Materials[k] := parsed.value];
    }
    var counts: seq<int> := [];
    for k := 0 to |Pieces|
      invariant ReadCounts(countFields, k) == Success(counts)
    {
      var parsed := Parse(countFields[k]);
      if parsed.Failure? {
        ReadCountsFailureSticks(countFields, k + 1, |Pieces|);
        return Failure(parsed.error);
      }
      counts := counts + [parsed.value];
    }
    if exists i :: 0 <= i < |counts| && counts[i] < 0 {
      return Failure(NegativePieces);
    }
    var desired := Parse(desiredField);
    if desired.Failure? {
      return Failure(desired.error);
    }
    if desired.value < 0 {
      return Failure(NegativeDesired);
    }
    r := Success(Inputs(mats, counts, desired.value));
  }
}
