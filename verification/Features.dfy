/**
 * The request schema of the prediction service: thirteen clinical features,
 * each required and each bounded by an inclusive range. A request that omits
 * a field or carries a value outside its range is rejected as a whole, with
 * one violation per offending field; values are never clamped.
 */
module Features {
  import opened Wrappers

  /** The thirteen features, in the order the request schema declares them. */
  datatype Field =
    | Age | Sex | Cp | Trestbps | Chol | Fbs | Restecg
    | Thalach | Exang | Oldpeak | Slope | Ca | Thal

  /** Every field, in declaration order; validation checks the fields in this order. */
  const Schema: seq<Field> :=
    [Age, Sex, Cp, Trestbps, Chol, Fbs, Restecg, Thalach, Exang, Oldpeak, Slope, Ca, Thal]

  /** The position of a field in the declaration order of the schema. */
  function Position(f: Field): (n: nat)
    ensures n < |Schema| && Schema[n] == f
  {
    match f
    case Age => 0
    case Sex => 1
    case Cp => 2
    case Trestbps => 3
    case Chol => 4
    case Fbs => 5
    case Restecg => 6
    case Thalach => 7
    case Exang => 8
    case Oldpeak => 9
    case Slope => 10
    case Ca => 11
    case Thal => 12
  }

  /** The fields `fs` appear in declaration order, each at most once. */
  predicate InSchemaOrder(fs: seq<Field>) {
    forall i, j :: 0 <= i < j < |fs| ==> Position(fs[i]) < Position(fs[j])
  }

  /** Inclusive lower bound of a field. */
  function Lower(f: Field): int {
    match f
    case Oldpeak => -10
    case _ => 0
  }

  /** Inclusive upper bound of a field. */
  function Upper(f: Field): int {
    match f
    case Age => 120
    case Sex => 1
    case Cp => 3
    case Trestbps => 300
    case Chol => 600
    case Fbs => 1
    case Restecg => 2
    case Thalach => 300
    case Exang => 1
    case Oldpeak => 10
    case Slope => 2
    case Ca => 4
    case Thal => 3
  }

  /**
   * A request body as it arrives, after numeric parsing: `age`, `sex` and
   * `oldpeak` are declared as floats, the other ten as integers; `None`
   * stands for a field the client left out.
   */
  datatype RawRecord = RawRecord(
    age: Option<real>, sex: Option<real>, cp: Option<int>, trestbps: Option<int>,
    chol: Option<int>, fbs: Option<int>, restecg: Option<int>, thalach: Option<int>,
    exang: Option<int>, oldpeak: Option<real>, slope: Option<int>, ca: Option<int>,
    thal: Option<int>)

  /** A validated request: every field present. */
  datatype FeatureRow = FeatureRow(
    age: real, sex: real, cp: int, trestbps: int, chol: int, fbs: int, restecg: int,
    thalach: int, exang: int, oldpeak: real, slope: int, ca: int, thal: int)

  /** Why a field was rejected: it was omitted, or lies below or above its range. */
  datatype Violation = Missing(field: Field) | BelowMinimum(field: Field) | AboveMaximum(field: Field)

  /** A violation in one element of a batch, located by the element's position. */
  datatype Located = Located(index: nat, violation: Violation)

  /**
   * The ranges of the schema written out field by field: the reference
   * against which the table-driven validation is proved.
   */
  predicate InRange(row: FeatureRow) {
    && 0.0 <= row.age <= 120.0
    && 0.0 <= row.sex <= 1.0
    && 0 <= row.cp <= 3
    && 0 <= row.trestbps <= 300
    && 0 <= row.chol <= 600
    && 0 <= row.fbs <= 1
    && 0 <= row.restecg <= 2
    && 0 <= row.thalach <= 300
    && 0 <= row.exang <= 1
    && -10.0 <= row.oldpeak <= 10.0
    && 0 <= row.slope <= 2
    && 0 <= row.ca <= 4
    && 0 <= row.thal <= 3
  }

  /** The request body that carries exactly the values of a row. */
  function Raw(row: FeatureRow): RawRecord {
    RawRecord(
      Some(row.age), Some(row.sex), Some(row.cp), Some(row.trestbps), Some(row.chol),
      Some(row.fbs), Some(row.restecg), Some(row.thalach), Some(row.exang),
      Some(row.oldpeak), Some(row.slope), Some(row.ca), Some(row.thal))
  }

  function AsReal(v: Option<int>): Option<real> {
    match v
    case None => None
    case Some(n) => Some(n as real)
  }

  /** The submitted value of a field, on the real line, or `None` if it was omitted. */
  function Reading(raw: RawRecord, f: Field): Option<real> {
    match f
    case Age => raw.age
    case Sex => raw.sex
    case Cp => AsReal(raw.cp)
    case Trestbps => AsReal(raw.trestbps)
    case Chol => AsReal(raw.chol)
    case Fbs => AsReal(raw.fbs)
    case Restecg => AsReal(raw.restecg)
    case Thalach => AsReal(raw.thalach)
    case Exang => AsReal(raw.exang)
    case Oldpeak => raw.oldpeak
    case Slope => AsReal(raw.slope)
    case Ca => AsReal(raw.ca)
    case Thal => AsReal(raw.thal)
  }

  /** A field is admissible when it is present and lies within its inclusive range. */
  predicate Admissible(raw: RawRecord, f: Field) {
    Reading(raw, f).Some? && Lower(f) as real <= Reading(raw, f).value <= Upper(f) as real
  }

  /** The check of one field: the lower bound is tested before the upper one. */
  function Check(raw: RawRecord, f: Field): (r: Option<Violation>)
    ensures r.None? <==> Admissible(raw, f)
    ensures r.Some? ==> r.value.field == f
    ensures r == Some(Missing(f)) <==> Reading(raw, f).None?
  {
    match Reading(raw, f)
    case None => Some(Missing(f))
    case Some(x) =>
      if x < Lower(f) as real then Some(BelowMinimum(f))
      else if x > Upper(f) as real then Some(AboveMaximum(f))
      else None
  }

  /** The violations among the fields `fs`, in the order of `fs`. */
  function Violations(raw: RawRecord, fs: seq<Field>): (vs: seq<Violation>)
    ensures |vs| <= |fs|
  {
    if fs == [] then []
    else
      var rest := Violations(raw, fs[1..]);
      match Check(raw, fs[0])
      case None => rest
      case Some(v) => [v] + rest
  }

  /** The violations found among `fs` are exactly the failing checks of fields in `fs`. */
  lemma {:induction false} ViolationsExact(raw: RawRecord, fs: seq<Field>)
    ensures forall v :: v in Violations(raw, fs) ==> v.field in fs && Check(raw, v.field) == Some(v)
    ensures forall f :: f in fs && !Admissible(raw, f) ==> Check(raw, f).value in Violations(raw, fs)
    ensures Violations(raw, fs) == [] <==> forall f :: f in fs ==> Admissible(raw, f)
  {
    if fs != [] {
      ViolationsExact(raw, fs[1..]);
      assert forall f :: f in fs <==> f == fs[0] || f in fs[1..];
    }
  }

  /** Violations found among fields in declaration order come out in that order, one per field. */
  lemma {:induction false} ViolationsInOrder(raw: RawRecord, fs: seq<Field>)
    requires InSchemaOrder(fs)
    ensures forall i, j :: 0 <= i < j < |Violations(raw, fs)| ==>
      Position(Violations(raw, fs)[i].field) < Position(Violations(raw, fs)[j].field)
  {
    if fs != [] {
      var rest := Violations(raw, fs[1..]);
      assert InSchemaOrder(fs[1..]) by {
        forall i, j | 0 <= i < j < |fs[1..]| ensures Position(fs[1..][i]) < Position(fs[1..][j]) {
          assert fs[1..][i] == fs[i + 1] && fs[1..][j] == fs[j + 1];
        }
      }
      ViolationsInOrder(raw, fs[1..]);
      ViolationsExact(raw, fs[1..]);
      forall v | v in rest ensures Position(fs[0]) < Position(v.field) {
        var k :| 0 <= k < |fs[1..]| && fs[1..][k] == v.field;
        assert fs[k + 1] == v.field;
      }
    }
  }

  lemma SchemaIsComplete(f: Field)
    ensures f in Schema
  {
  }

  /** Every field of the request is present. */
  predicate Present(raw: RawRecord) {
    && raw.age.Some? && raw.sex.Some? && raw.cp.Some? && raw.trestbps.Some?
    && raw.chol.Some? && raw.fbs.Some? && raw.restecg.Some? && raw.thalach.Some?
    && raw.exang.Some? && raw.oldpeak.Some? && raw.slope.Some? && raw.ca.Some?
    && raw.thal.Some?
  }

  /** The row made of the values of a complete request. */
  function Row(raw: RawRecord): FeatureRow
    requires Present(raw)
  {
    FeatureRow(
      raw.age.value, raw.sex.value, raw.cp.value, raw.trestbps.value, raw.chol.value,
      raw.fbs.value, raw.restecg.value, raw.thalach.value, raw.exang.value,
      raw.oldpeak.value, raw.slope.value, raw.ca.value, raw.thal.value)
  }

  /** Checking the schema's fields one by one finds exactly the failing checks. */
  lemma SchemaViolations(raw: RawRecord)
    ensures Violations(raw, Schema) == [] <==> forall f :: Admissible(raw, f)
    ensures forall v :: v in Violations(raw, Schema) <==> Check(raw, v.field) == Some(v)
  {
    ViolationsExact(raw, Schema);
    forall f ensures f in Schema { SchemaIsComplete(f); }
  }

  /** A request whose every field is admissible carries a row within the schema's ranges. */
  lemma AdmissibleRow(raw: RawRecord)
    requires forall f :: Admissible(raw, f)
    ensures Present(raw) && Raw(Row(raw)) == raw && InRange(Row(raw))
  {
    assert && Admissible(raw, Age) && Admissible(raw, Sex) && Admissible(raw, Cp)
           && Admissible(raw, Trestbps) && Admissible(raw, Chol) && Admissible(raw, Fbs)
           && Admissible(raw, Restecg) && Admissible(raw, Thalach) && Admissible(raw, Exang)
           && Admissible(raw, Oldpeak) && Admissible(raw, Slope) && Admissible(raw, Ca)
           && Admissible(raw, Thal);
  }

  /**
   * Validation of one request body. It is accepted exactly when every field
   * is admissible, and then the row holds the submitted values unchanged;
   * otherwise the errors are exactly the failing checks, one per field.
   */
  function Validate(raw: RawRecord): (r: Result<FeatureRow, seq<Violation>>)
    ensures r.Ok? <==> forall f :: Admissible(raw, f)
    ensures r.Ok? ==> Raw(r.value) == raw && InRange(r.value)
    ensures r.Err? ==> r.error != []
  {
    var vs := Violations(raw, Schema);
    SchemaViolations(raw);
    if vs == [] then AdmissibleRow(raw); Ok(Row(raw)) else Err(vs)
  }

  /** A rejected request reports exactly the fields whose checks fail, with the reason for each. */
  lemma RejectionReasons(raw: RawRecord)
    requires Validate(raw).Err?
    ensures forall v :: v in Validate(raw).error <==> Check(raw, v.field) == Some(v)
  {
    SchemaViolations(raw);
  }

  lemma SchemaInOrder()
    ensures InSchemaOrder(Schema)
  {
    forall i | 0 <= i < |Schema| ensures Position(Schema[i]) == i {
    }
  }

  /**
   * A rejected request reports its violations in the declaration order of
   * the fields, so no field is reported twice.
   */
  lemma RejectionOrder(raw: RawRecord)
    requires Validate(raw).Err?
    ensures var vs := Validate(raw).error;
      forall i, j :: 0 <= i < j < |vs| ==> Position(vs[i].field) < Position(vs[j].field)
    ensures var vs := Validate(raw).error;
      forall i, j :: 0 <= i < j < |vs| ==> vs[i].field != vs[j].field
  {
    SchemaInOrder();
    ViolationsInOrder(raw, Schema);
    assert Validate(raw).error == Violations(raw, Schema);
  }

  /**
   * A complete request is accepted exactly when the row it carries lies in
   * the ranges of the schema, and then it is accepted unchanged.
   */
  lemma ValidateMatchesRanges(row: FeatureRow)
    ensures Validate(Raw(row)).Ok? <==> InRange(row)
    ensures InRange(row) ==> Validate(Raw(row)) == Ok(row)
  {
    var raw := Raw(row);
    if InRange(row) {
      forall f ensures Admissible(raw, f) { }
    }
  }

  /** A request that omits a field is rejected, and the omission is reported. */
  lemma MissingFieldRejected(raw: RawRecord, f: Field)
    requires Reading(raw, f).None?
    ensures Validate(raw).Err? && Missing(f) in Validate(raw).error
  {
    RejectionReasons(raw);
  }

  /** A request with a field outside its range is rejected, never clamped, and the side it left is reported. */
  lemma OutOfRangeRejected(raw: RawRecord, f: Field)
    requires Reading(raw, f).Some?
    requires Reading(raw, f).value < Lower(f) as real || Reading(raw, f).value > Upper(f) as real
    ensures Validate(raw).Err?
    ensures Reading(raw, f).value < Lower(f) as real ==> BelowMinimum(f) in Validate(raw).error
    ensures Reading(raw, f).value > Upper(f) as real ==> AboveMaximum(f) in Validate(raw).error
  {
    assert !Admissible(raw, f);
    RejectionReasons(raw);
  }

  /** The violations of element `i` of a batch, located at `i`, in their order. */
  function Locate(i: nat, vs: seq<Violation>): (r: seq<Located>)
    ensures |r| == |vs|
    ensures forall e :: e in r <==> e.index == i && e.violation in vs
  {
    if vs == [] then [] else [Located(i, vs[0])] + Locate(i, vs[1..])
  }

  /** The outcome of validating one element of a batch. */
  type RowOutcome = Result<FeatureRow, seq<Violation>>

  /** Element `e.index` is rejected, and `e.violation` is among its violations. */
  predicate RejectedAt(outs: seq<RowOutcome>, e: Located) {
    e.index < |outs| && outs[e.index].Err? && e.violation in outs[e.index].error
  }

  /** Every rejected outcome names at least one violation. */
  predicate Explained(outs: seq<RowOutcome>) {
    forall i :: 0 <= i < |outs| && outs[i].Err? ==> outs[i].error != []
  }

  /** The located violations of the first `n` outcomes, element by element. */
  function Collect(outs: seq<RowOutcome>, n: nat): (es: seq<Located>)
    requires n <= |outs| && Explained(outs)
    ensures es == [] <==> forall i :: 0 <= i < n ==> outs[i].Ok?
  {
    if n == 0 then []
    else if outs[n - 1].Ok? then Collect(outs, n - 1)
    else
      assert Located(n - 1, outs[n - 1].error[0]) in Locate(n - 1, outs[n - 1].error);
      Collect(outs, n - 1) + Locate(n - 1, outs[n - 1].error)
  }

  /** A located violation is collected from the first `n` outcomes exactly when it occurs among them. */
  lemma {:induction false} CollectExact(outs: seq<RowOutcome>, n: nat, e: Located)
    requires n <= |outs| && Explained(outs)
    ensures e in Collect(outs, n) <==> e.index < n && RejectedAt(outs, e)
  {
    if n > 0 {
      CollectExact(outs, n - 1, e);
      if outs[n - 1].Err? {
        var here := Locate(n - 1, outs[n - 1].error);
        assert Collect(outs, n) == Collect(outs, n - 1) + here;
        assert e in here <==> e.index == n - 1 && e.violation in outs[n - 1].error;
      }
    }
  }

  /** Element `e.index` of the batch is rejected, and `e.violation` is among its violations. */
  predicate Rejects(raws: seq<RawRecord>, e: Located) {
    e.index < |raws| && Validate(raws[e.index]).Err? && e.violation in Validate(raws[e.index]).error
  }

  /**
   * Validation of a batch body: every element is validated, and the errors of
   * all failing elements are collected, element by element, before the batch
   * is rejected. An accepted batch keeps its length and its order.
   */
  function ValidateBatch(raws: seq<RawRecord>): (r: Result<seq<FeatureRow>, seq<Located>>)
    ensures r.Ok? <==> forall i :: 0 <= i < |raws| ==> Validate(raws[i]).Ok?
    ensures r.Ok? ==> |r.value| == |raws|
    ensures r.Ok? ==> forall i :: 0 <= i < |raws| ==> Validate(raws[i]) == Ok(r.value[i])
    ensures r.Err? ==> r.error != []
    ensures r.Err? ==> forall e :: e in r.error <==> Rejects(raws, e)
  {
    var outs := seq(|raws|, i requires 0 <= i < |raws| => Validate(raws[i]));
    assert forall i :: 0 <= i < |raws| ==> outs[i] == Validate(raws[i]);
    var es := Collect(outs, |outs|);
    assert forall e :: e in es <==> Rejects(raws, e) by {
      forall e ensures e in es <==> Rejects(raws, e) { CollectExact(outs, |outs|, e); }
    }
    if es == [] then Ok(seq(|raws|, i requires 0 <= i < |raws| => outs[i].value))
    else Err(es)
  }

  /** The row of the sample request used by the test script. */
  function SampleRow(): FeatureRow {
    FeatureRow(65.0, 1.0, 3, 140, 250, 0, 1, 150, 0, 2.0, 1, 0, 3)
  }

  /** The sample request is accepted unchanged. */
  lemma SampleAccepted()
    ensures Validate(Raw(SampleRow())) == Ok(SampleRow())
  {
    ValidateMatchesRanges(SampleRow());
  }

  /** The sample request without `cp` is rejected, with `cp` reported missing. */
  lemma SampleRejected()
    ensures Validate(Raw(SampleRow()).(cp := None)).Err?
    ensures Missing(Cp) in Validate(Raw(SampleRow()).(cp := None)).error
  {
    MissingFieldRejected(Raw(SampleRow()).(cp := None), Cp);
  }

  /**
   * The age bound at its edge, on the sample request: age 120 is accepted
   * unchanged, age 150 is rejected as above the maximum.
   */
  lemma AgeBoundary()
    ensures Validate(Raw(SampleRow().(age := 120.0))) == Ok(SampleRow().(age := 120.0))
    ensures Validate(Raw(SampleRow()).(age := Some(150.0))).Err?
    ensures AboveMaximum(Age) in Validate(Raw(SampleRow()).(age := Some(150.0))).error
  {
    ValidateMatchesRanges(SampleRow().(age := 120.0));
    OutOfRangeRejected(Raw(SampleRow()).(age := Some(150.0)), Age);
  }
}
