/** The request and response schemas of the inference service: the two closed
    enumerations, the clinical feature record with its field constraints, the
    validation the schema library performs on a decoded JSON body, and the
    bound on the response's risk score. */
module Schemas {
  import opened Wrappers

  // ---------------------------------------------------------------------------
  // Enumerations
  // ---------------------------------------------------------------------------

  /** The kinds of prediction the service offers. */
  datatype PredictionType = ReadmissionRisk | DiabetesRisk

  /** The wire value of a prediction type. */
  function PredictionTypeValue(t: PredictionType): string {
    match t
    case ReadmissionRisk => "READMISSION_RISK"
    case DiabetesRisk => "DIABETES_RISK"
  }

  /** The enumeration member with wire value `s`, if there is one. */
  function ParsePredictionType(s: string): (r: Option<PredictionType>)
    ensures r.Some? <==> s == "READMISSION_RISK" || s == "DIABETES_RISK"
    ensures r.Some? ==> PredictionTypeValue(r.value) == s
  {
    if s == "READMISSION_RISK" then Some(ReadmissionRisk)
    else if s == "DIABETES_RISK" then Some(DiabetesRisk)
    else None
  }

  /** Parsing inverts the wire value, and distinct types have distinct values. */
  lemma PredictionTypeRoundTrip(t: PredictionType, u: PredictionType)
    ensures ParsePredictionType(PredictionTypeValue(t)) == Some(t)
    ensures PredictionTypeValue(t) == PredictionTypeValue(u) ==> t == u
  {
  }

  /** The three ordinal risk bands. */
  datatype RiskLevel = Low | Medium | High

  /** The wire value of a risk band. */
  function RiskLevelValue(l: RiskLevel): string {
    match l
    case Low => "LOW"
    case Medium => "MEDIUM"
    case High => "HIGH"
  }

  /** The risk band with wire value `s`, if there is one. */
  function ParseRiskLevel(s: string): (r: Option<RiskLevel>)
    ensures r.Some? <==> s == "LOW" || s == "MEDIUM" || s == "HIGH"
    ensures r.Some? ==> RiskLevelValue(r.value) == s
  {
    if s == "LOW" then Some(Low)
    else if s == "MEDIUM" then Some(Medium)
    else if s == "HIGH" then Some(High)
    else None
  }

  /** Parsing inverts the wire value, and distinct bands have distinct values. */
  lemma RiskLevelRoundTrip(l: RiskLevel, m: RiskLevel)
    ensures ParseRiskLevel(RiskLevelValue(l)) == Some(l)
    ensures RiskLevelValue(l) == RiskLevelValue(m) ==> l == m
  {
  }

  // ---------------------------------------------------------------------------
  // Field constraints
  // ---------------------------------------------------------------------------

  /** A closed numeric range `lo <= v <= hi`. */
  datatype Bounds = Bounds(lo: real, hi: real)

  predicate Within(v: real, b: Bounds) {
    b.lo <= v <= b.hi
  }

  /** A numeric field of the feature schema: its JSON key, whether it is
      declared `int`, and its `ge`/`le` constraint. */
  datatype NumberSpec = NumberSpec(name: string, integral: bool, bounds: Bounds)

  const AgeSpec := NumberSpec("age", true, Bounds(0.0, 150.0))
  const BmiSpec := NumberSpec("bmi", false, Bounds(10.0, 80.0))
  const SystolicSpec := NumberSpec("blood_pressure_systolic", true, Bounds(60.0, 250.0))
  const DiastolicSpec := NumberSpec("blood_pressure_diastolic", true, Bounds(40.0, 150.0))
  const GlucoseSpec := NumberSpec("glucose_level", false, Bounds(20.0, 600.0))
  const CholesterolSpec := NumberSpec("cholesterol", false, Bounds(50.0, 500.0))
  const Hba1cSpec := NumberSpec("hba1c", false, Bounds(3.0, 20.0))
  const PreviousAdmissionsSpec := NumberSpec("previous_admissions", true, Bounds(0.0, 100.0))
  const LastStaySpec := NumberSpec("last_stay_duration", true, Bounds(0.0, 365.0))

  /** Every numeric field, in declaration order. */
  const NumberSpecs: seq<NumberSpec> :=
    [AgeSpec, BmiSpec, SystolicSpec, DiastolicSpec, GlucoseSpec, CholesterolSpec,
     Hba1cSpec, PreviousAdmissionsSpec, LastStaySpec]

  const HasDiabetesKey := "has_diabetes"
  const HasHypertensionKey := "has_hypertension"
  const HasHeartDiseaseKey := "has_heart_disease"
  const SmokingStatusKey := "smoking_status"
  const DefaultPreviousAdmissions := 0
  const DefaultSmokingStatus := "NEVER"

  // ---------------------------------------------------------------------------
  // The feature record
  // ---------------------------------------------------------------------------

  /** A validated clinical feature record. Optional measurements are `None`
      when they were not supplied. */
  datatype PredictionFeatures = PredictionFeatures(
    age: int,
    bmi: Option<real>,
    bloodPressureSystolic: Option<int>,
    bloodPressureDiastolic: Option<int>,
    glucoseLevel: Option<real>,
    cholesterol: Option<real>,
    hba1c: Option<real>,
    previousAdmissions: int,
    lastStayDuration: Option<int>,
    hasDiabetes: bool,
    hasHypertension: bool,
    hasHeartDisease: bool,
    smokingStatus: string)

  predicate OptionalWithin(v: Option<real>, b: Bounds) {
    v.Some? ==> Within(v.value, b)
  }

  function IntAsReal(v: Option<int>): Option<real> {
    match v
    case Some(i) => Some(i as real)
    case None => None
  }

  /** The field constraints of the schema: `age` and `previous_admissions`
      always within range, each optional measurement within range when
      present; flags and the smoking status are unconstrained. */
  predicate Valid(f: PredictionFeatures) {
    && Within(f.age as real, AgeSpec.bounds)
    && OptionalWithin(f.bmi, BmiSpec.bounds)
    && OptionalWithin(IntAsReal(f.bloodPressureSystolic), SystolicSpec.bounds)
    && OptionalWithin(IntAsReal(f.bloodPressureDiastolic), DiastolicSpec.bounds)
    && OptionalWithin(f.glucoseLevel, GlucoseSpec.bounds)
    && OptionalWithin(f.cholesterol, CholesterolSpec.bounds)
    && OptionalWithin(f.hba1c, Hba1cSpec.bounds)
    && Within(f.previousAdmissions as real, PreviousAdmissionsSpec.bounds)
    && OptionalWithin(IntAsReal(f.lastStayDuration), LastStaySpec.bounds)
  }

  // ---------------------------------------------------------------------------
  // Validation of a decoded JSON body
  // ---------------------------------------------------------------------------

  /** A decoded JSON value. */
  datatype Json =
    | JNull
    | JBool(b: bool)
    | JNumber(n: real)
    | JString(s: string)
    | JObject(members: map<string, Json>)

  datatype ErrorKind =
    | Missing              // a required key is absent
    | WrongType            // the value has the wrong JSON type (including null for a non-optional field)
    | NotInteger           // a number with a fractional part for an `int` field
    | BelowMinimum(lo: real)
    | AboveMaximum(hi: real)
    | NotEnumMember        // a string that names no member of the enumeration

  /** One validation error, located by its path of keys. */
  datatype FieldError = FieldError(loc: seq<string>, kind: ErrorKind)

  predicate IsIntegral(v: real) {
    v.Floor as real == v
  }

  /** The errors reported for a value present at a numeric field. */
  function NumberErrors(spec: NumberSpec, j: Json): seq<FieldError> {
    match j
    case JNumber(v) =>
      if spec.integral && !IsIntegral(v) then [FieldError([spec.name], NotInteger)]
      else if v < spec.bounds.lo then [FieldError([spec.name], BelowMinimum(spec.bounds.lo))]
      else if v > spec.bounds.hi then [FieldError([spec.name], AboveMaximum(spec.bounds.hi))]
      else []
    case _ => [FieldError([spec.name], WrongType)]
  }

  /** A required field (`Field(...)`): absence is an error. */
  function RequiredNumberErrors(spec: NumberSpec, obj: map<string, Json>): seq<FieldError> {
    if spec.name !in obj then [FieldError([spec.name], Missing)]
    else NumberErrors(spec, obj[spec.name])
  }

  /** An `Optional` field defaulting to `None`: absence and null are accepted. */
  function OptionalNumberErrors(spec: NumberSpec, obj: map<string, Json>): seq<FieldError> {
    if spec.name !in obj || obj[spec.name] == JNull then []
    else NumberErrors(spec, obj[spec.name])
  }

  /** A non-optional field with a default: absence is accepted, null is not. */
  function DefaultedNumberErrors(spec: NumberSpec, obj: map<string, Json>): seq<FieldError> {
    if spec.name !in obj then []
    else NumberErrors(spec, obj[spec.name])
  }

  function BoolErrors(key: string, obj: map<string, Json>): seq<FieldError> {
    if key !in obj || obj[key].JBool? then [] else [FieldError([key], WrongType)]
  }

  function StringErrors(key: string, obj: map<string, Json>): seq<FieldError> {
    if key !in obj || obj[key].JString? then [] else [FieldError([key], WrongType)]
  }

  /** All errors of a feature object, in field declaration order. */
  function FeatureErrors(obj: map<string, Json>): seq<FieldError> {
    RequiredNumberErrors(AgeSpec, obj)
    + OptionalNumberErrors(BmiSpec, obj)
    + OptionalNumberErrors(SystolicSpec, obj)
    + OptionalNumberErrors(DiastolicSpec, obj)
    + OptionalNumberErrors(GlucoseSpec, obj)
    + OptionalNumberErrors(CholesterolSpec, obj)
    + OptionalNumberErrors(Hba1cSpec, obj)
    + DefaultedNumberErrors(PreviousAdmissionsSpec, obj)
    + OptionalNumberErrors(LastStaySpec, obj)
    + BoolErrors(HasDiabetesKey, obj)
    + BoolErrors(HasHypertensionKey, obj)
    + BoolErrors(HasHeartDiseaseKey, obj)
    + StringErrors(SmokingStatusKey, obj)
  }

  function NumberOr(obj: map<string, Json>, key: string, default: real): real {
    if key in obj && obj[key].JNumber? then obj[key].n else default
  }

  function OptionalNumber(obj: map<string, Json>, key: string): Option<real> {
    if key in obj && obj[key].JNumber? then Some(obj[key].n) else None
  }

  function OptionalInt(obj: map<string, Json>, key: string): Option<int> {
    if key in obj && obj[key].JNumber? then Some(obj[key].n.Floor) else None
  }

  function BoolOr(obj: map<string, Json>, key: string, default: bool): bool {
    if key in obj && obj[key].JBool? then obj[key].b else default
  }

  function StringOr(obj: map<string, Json>, key: string, default: string): string {
    if key in obj && obj[key].JString? then obj[key].s else default
  }

  /** The record a feature object denotes, with the schema's defaults for
      absent keys: `previous_admissions` 0, the flags false, the smoking
      status "NEVER", the optional measurements `None`. */
  function FeaturesOf(obj: map<string, Json>): PredictionFeatures {
    PredictionFeatures(
      NumberOr(obj, AgeSpec.name, 0.0).Floor,
      OptionalNumber(obj, BmiSpec.name),
      OptionalInt(obj, SystolicSpec.name),
      OptionalInt(obj, DiastolicSpec.name),
      OptionalNumber(obj, GlucoseSpec.name),
      OptionalNumber(obj, CholesterolSpec.name),
      OptionalNumber(obj, Hba1cSpec.name),
      NumberOr(obj, PreviousAdmissionsSpec.name, DefaultPreviousAdmissions as real).Floor,
      OptionalInt(obj, LastStaySpec.name),
      BoolOr(obj, HasDiabetesKey, false),
      BoolOr(obj, HasHypertensionKey, false),
      BoolOr(obj, HasHeartDiseaseKey, false),
      StringOr(obj, SmokingStatusKey, DefaultSmokingStatus))
  }

  /** Validation of a feature object: the record when no field is in error,
      otherwise every error found. A record it accepts satisfies `Valid`. */
  function ValidateFeatures(obj: map<string, Json>): (r: Result<PredictionFeatures, seq<FieldError>>)
    ensures r.Ok? ==> Valid(r.value)
    ensures r.Err? ==> |r.error| > 0
  {
    var errors := FeatureErrors(obj);
    if errors == [] then
      ValidFeaturesOf(obj);
      Ok(FeaturesOf(obj))
    else Err(errors)
  }

  lemma ValidFeaturesOf(obj: map<string, Json>)
    requires FeatureErrors(obj) == []
    ensures Valid(FeaturesOf(obj))
  {
    NoNumberErrorsWithin(AgeSpec, obj);
    NoNumberErrorsWithin(BmiSpec, obj);
    NoNumberErrorsWithin(SystolicSpec, obj);
    NoNumberErrorsWithin(DiastolicSpec, obj);
    NoNumberErrorsWithin(GlucoseSpec, obj);
    NoNumberErrorsWithin(CholesterolSpec, obj);
    NoNumberErrorsWithin(Hba1cSpec, obj);
    NoNumberErrorsWithin(PreviousAdmissionsSpec, obj);
    NoNumberErrorsWithin(LastStaySpec, obj);
  }

  /** A present number that raises no error lies within the field's bounds,
      and is integral when the field is declared `int`. */
  lemma NoNumberErrorsWithin(spec: NumberSpec, obj: map<string, Json>)
    requires spec.name in obj && obj[spec.name].JNumber? ==> NumberErrors(spec, obj[spec.name]) == []
    ensures spec.name in obj && obj[spec.name].JNumber? ==>
      Within(obj[spec.name].n, spec.bounds) && (spec.integral ==> IsIntegral(obj[spec.name].n))
  {
  }

  /** The JSON object that serialises a record (`None` as null). */
  function FeaturesJson(f: PredictionFeatures): map<string, Json> {
    map[
      AgeSpec.name := JNumber(f.age as real),
      BmiSpec.name := OptionalJson(f.bmi),
      SystolicSpec.name := OptionalJson(IntAsReal(f.bloodPressureSystolic)),
      DiastolicSpec.name := OptionalJson(IntAsReal(f.bloodPressureDiastolic)),
      GlucoseSpec.name := OptionalJson(f.glucoseLevel),
      CholesterolSpec.name := OptionalJson(f.cholesterol),
      Hba1cSpec.name := OptionalJson(f.hba1c),
      PreviousAdmissionsSpec.name := JNumber(f.previousAdmissions as real),
      LastStaySpec.name := OptionalJson(IntAsReal(f.lastStayDuration)),
      HasDiabetesKey := JBool(f.hasDiabetes),
      HasHypertensionKey := JBool(f.hasHypertension),
      HasHeartDiseaseKey := JBool(f.hasHeartDisease),
      SmokingStatusKey := JString(f.smokingStatus)]
  }

  function OptionalJson(v: Option<real>): Json {
    match v
    case Some(x) => JNumber(x)
    case None => JNull
  }

  /** Serialising a record and reading it back gives the record. */
  lemma FeaturesOfJson(f: PredictionFeatures)
    ensures FeaturesOf(FeaturesJson(f)) == f
  {
    MeasurementsOfJson(f);
    LabsOfJson(f);
    HistoryOfJson(f);
  }

  lemma MeasurementsOfJson(f: PredictionFeatures)
    ensures var g := FeaturesOf(FeaturesJson(f));
      && g.age == f.age && g.bmi == f.bmi
      && g.bloodPressureSystolic == f.bloodPressureSystolic
      && g.bloodPressureDiastolic == f.bloodPressureDiastolic
  {
    var obj := FeaturesJson(f);
    assert obj[AgeSpec.name] == JNumber(f.age as real);
    assert obj[SystolicSpec.name] == OptionalJson(IntAsReal(f.bloodPressureSystolic));
    assert obj[DiastolicSpec.name] == OptionalJson(IntAsReal(f.bloodPressureDiastolic));
  }

  lemma LabsOfJson(f: PredictionFeatures)
    ensures var g := FeaturesOf(FeaturesJson(f));
      g.glucoseLevel == f.glucoseLevel && g.cholesterol == f.cholesterol && g.hba1c == f.hba1c
  {
  }

  lemma HistoryOfJson(f: PredictionFeatures)
    ensures var g := FeaturesOf(FeaturesJson(f));
      && g.previousAdmissions == f.previousAdmissions && g.lastStayDuration == f.lastStayDuration
      && g.hasDiabetes == f.hasDiabetes && g.hasHypertension == f.hasHypertension
      && g.hasHeartDisease == f.hasHeartDisease && g.smokingStatus == f.smokingStatus
  {
    var obj := FeaturesJson(f);
    assert obj[PreviousAdmissionsSpec.name] == JNumber(f.previousAdmissions as real);
    assert obj[LastStaySpec.name] == OptionalJson(IntAsReal(f.lastStayDuration));
  }

  /** Round trip: a record satisfying the constraints is accepted as itself. */
  lemma FeaturesRoundTrip(f: PredictionFeatures)
    requires Valid(f)
    ensures ValidateFeatures(FeaturesJson(f)) == Ok(f)
  {
    FeaturesOfJson(f);
    MeasurementsAccepted(f);
    HistoryAccepted(f);
  }

  lemma MeasurementsAccepted(f: PredictionFeatures)
    requires Valid(f)
    ensures var obj := FeaturesJson(f);
      && RequiredNumberErrors(AgeSpec, obj) == []
      && OptionalNumberErrors(BmiSpec, obj) == []
      && OptionalNumberErrors(SystolicSpec, obj) == []
      && OptionalNumberErrors(DiastolicSpec, obj) == []
      && OptionalNumberErrors(GlucoseSpec, obj) == []
  {
    var obj := FeaturesJson(f);
    assert obj[AgeSpec.name] == JNumber(f.age as real);
    assert obj[SystolicSpec.name] == OptionalJson(IntAsReal(f.bloodPressureSystolic));
    assert obj[DiastolicSpec.name] == OptionalJson(IntAsReal(f.bloodPressureDiastolic));
  }

  lemma HistoryAccepted(f: PredictionFeatures)
    requires Valid(f)
    ensures var obj := FeaturesJson(f);
      && OptionalNumberErrors(CholesterolSpec, obj) == []
      && OptionalNumberErrors(Hba1cSpec, obj) == []
      && DefaultedNumberErrors(PreviousAdmissionsSpec, obj) == []
      && OptionalNumberErrors(LastStaySpec, obj) == []
      && BoolErrors(HasDiabetesKey, obj) == []
      && BoolErrors(HasHypertensionKey, obj) == []
      && BoolErrors(HasHeartDiseaseKey, obj) == []
      && StringErrors(SmokingStatusKey, obj) == []
  {
    var obj := FeaturesJson(f);
    assert obj[PreviousAdmissionsSpec.name] == JNumber(f.previousAdmissions as real);
    assert obj[LastStaySpec.name] == OptionalJson(IntAsReal(f.lastStayDuration));
  }

  /** The serialised form of a record is accepted exactly when the record
      satisfies the field constraints. */
  lemma AcceptedIffValid(f: PredictionFeatures)
    ensures ValidateFeatures(FeaturesJson(f)).Ok? <==> Valid(f)
  {
    FeaturesOfJson(f);
    if Valid(f) {
      FeaturesRoundTrip(f);
    }
  }

  /** `age` is required: an object without it is rejected, and the first
      error reported is that `age` is missing. */
  lemma AgeRequired(obj: map<string, Json>)
    requires AgeSpec.name !in obj
    ensures ValidateFeatures(obj).Err?
    ensures ValidateFeatures(obj).error[0] == FieldError(["age"], Missing)
  {
    assert FeatureErrors(obj)[0] == FieldError(["age"], Missing);
  }

  /** A numeric value outside its field's range is rejected, with an error
      at that field: `NotInteger` for a fraction at an `int` field (checked
      first), otherwise the bound it crosses. */
  lemma {:induction false} OutOfRangeRejected(obj: map<string, Json>, k: nat, v: real)
    requires k < |NumberSpecs|
    requires NumberSpecs[k].name in obj && obj[NumberSpecs[k].name] == JNumber(v)
    requires !Within(v, NumberSpecs[k].bounds)
    ensures ValidateFeatures(obj).Err?
    ensures FieldError([NumberSpecs[k].name],
      if NumberSpecs[k].integral && !IsIntegral(v) then NotInteger
      else if v < NumberSpecs[k].bounds.lo then BelowMinimum(NumberSpecs[k].bounds.lo)
      else AboveMaximum(NumberSpecs[k].bounds.hi)) in ValidateFeatures(obj).error
  {
    var spec := NumberSpecs[k];
    var own := NumberErrors(spec, obj[spec.name]);
    assert |own| == 1;
    var errors := FeatureErrors(obj);
    var parts := [RequiredNumberErrors(AgeSpec, obj),
                  OptionalNumberErrors(BmiSpec, obj),
                  OptionalNumberErrors(SystolicSpec, obj),
                  OptionalNumberErrors(DiastolicSpec, obj),
                  OptionalNumberErrors(GlucoseSpec, obj),
                  OptionalNumberErrors(CholesterolSpec, obj),
                  OptionalNumberErrors(Hba1cSpec, obj),
                  DefaultedNumberErrors(PreviousAdmissionsSpec, obj),
                  OptionalNumberErrors(LastStaySpec, obj)];
    assert parts[k] == own;
    assert own[0] in errors;
  }

  /** An optional real field raising no error: absent or null gives `None`,
      a number gives that number. */
  lemma OptionalRealAccepted(spec: NumberSpec, obj: map<string, Json>)
    requires OptionalNumberErrors(spec, obj) == []
    ensures var v := OptionalNumber(obj, spec.name);
      && (v.None? <==> spec.name !in obj || obj[spec.name] == JNull)
      && (v.Some? ==> obj[spec.name] == JNumber(v.value))
  {
  }

  /** An optional `int` field raising no error: absent or null gives `None`,
      a number gives the integer equal to it. */
  lemma OptionalIntAccepted(spec: NumberSpec, obj: map<string, Json>)
    requires spec.integral && OptionalNumberErrors(spec, obj) == []
    ensures var v := OptionalInt(obj, spec.name);
      && (v.None? <==> spec.name !in obj || obj[spec.name] == JNull)
      && (v.Some? ==> obj[spec.name] == JNumber(v.value as real))
  {
  }

  /** What an accepted object denotes for `age` and the physical
      measurements: `age` as given, each measurement as given, or `None`
      when its key is absent or null. */
  lemma AcceptedMeasurements(obj: map<string, Json>, f: PredictionFeatures)
    requires ValidateFeatures(obj) == Ok(f)
    ensures AgeSpec.name in obj && obj[AgeSpec.name] == JNumber(f.age as real)
    ensures f.bmi.None? <==> BmiSpec.name !in obj || obj[BmiSpec.name] == JNull
    ensures f.bmi.Some? ==> obj[BmiSpec.name] == JNumber(f.bmi.value)
    ensures f.bloodPressureSystolic.None? <==> SystolicSpec.name !in obj || obj[SystolicSpec.name] == JNull
    ensures f.bloodPressureSystolic.Some? ==> obj[SystolicSpec.name] == JNumber(f.bloodPressureSystolic.value as real)
    ensures f.bloodPressureDiastolic.None? <==> DiastolicSpec.name !in obj || obj[DiastolicSpec.name] == JNull
    ensures f.bloodPressureDiastolic.Some? ==> obj[DiastolicSpec.name] == JNumber(f.bloodPressureDiastolic.value as real)
  {
    assert FeatureErrors(obj) == [];
    assert RequiredNumberErrors(AgeSpec, obj) == [];
    OptionalRealAccepted(BmiSpec, obj);
    OptionalIntAccepted(SystolicSpec, obj);
    OptionalIntAccepted(DiastolicSpec, obj);
  }

  /** What an accepted object denotes for the lab results: each as given, or
      `None` when its key is absent or null. */
  lemma AcceptedLabs(obj: map<string, Json>, f: PredictionFeatures)
    requires ValidateFeatures(obj) == Ok(f)
    ensures f.glucoseLevel.None? <==> GlucoseSpec.name !in obj || obj[GlucoseSpec.name] == JNull
    ensures f.glucoseLevel.Some? ==> obj[GlucoseSpec.name] == JNumber(f.glucoseLevel.value)
    ensures f.cholesterol.None? <==> CholesterolSpec.name !in obj || obj[CholesterolSpec.name] == JNull
    ensures f.cholesterol.Some? ==> obj[CholesterolSpec.name] == JNumber(f.cholesterol.value)
    ensures f.hba1c.None? <==> Hba1cSpec.name !in obj || obj[Hba1cSpec.name] == JNull
    ensures f.hba1c.Some? ==> obj[Hba1cSpec.name] == JNumber(f.hba1c.value)
  {
    assert FeatureErrors(obj) == [];
    OptionalRealAccepted(GlucoseSpec, obj);
    OptionalRealAccepted(CholesterolSpec, obj);
    OptionalRealAccepted(Hba1cSpec, obj);
  }

  /** What an accepted object denotes for the medical history and lifestyle
      fields: each present value as given; the schema defaults (0
      admissions, `None` stay, false flags, "NEVER") for absent keys. */
  lemma AcceptedHistory(obj: map<string, Json>, f: PredictionFeatures)
    requires ValidateFeatures(obj) == Ok(f)
    ensures PreviousAdmissionsSpec.name in obj ==> obj[PreviousAdmissionsSpec.name] == JNumber(f.previousAdmissions as real)
    ensures PreviousAdmissionsSpec.name !in obj ==> f.previousAdmissions == DefaultPreviousAdmissions
    ensures f.lastStayDuration.None? <==> LastStaySpec.name !in obj || obj[LastStaySpec.name] == JNull
    ensures f.lastStayDuration.Some? ==> obj[LastStaySpec.name] == JNumber(f.lastStayDuration.value as real)
    ensures HasDiabetesKey in obj ==> obj[HasDiabetesKey] == JBool(f.hasDiabetes)
    ensures HasDiabetesKey !in obj ==> !f.hasDiabetes
    ensures HasHypertensionKey in obj ==> obj[HasHypertensionKey] == JBool(f.hasHypertension)
    ensures HasHypertensionKey !in obj ==> !f.hasHypertension
    ensures HasHeartDiseaseKey in obj ==> obj[HasHeartDiseaseKey] == JBool(f.hasHeartDisease)
    ensures HasHeartDiseaseKey !in obj ==> !f.hasHeartDisease
    ensures SmokingStatusKey in obj ==> obj[SmokingStatusKey] == JString(f.smokingStatus)
    ensures SmokingStatusKey !in obj ==> f.smokingStatus == DefaultSmokingStatus
  {
    assert FeatureErrors(obj) == [];
    assert DefaultedNumberErrors(PreviousAdmissionsSpec, obj) == [];
    OptionalIntAccepted(LastStaySpec, obj);
    assert BoolErrors(HasDiabetesKey, obj) == [];
    assert BoolErrors(HasHypertensionKey, obj) == [];
    assert BoolErrors(HasHeartDiseaseKey, obj) == [];
    assert StringErrors(SmokingStatusKey, obj) == [];
  }

  /** `obj` holds the optional value `v` at `key`: absent or null for `None`,
      the number for `Some`. */
  predicate OptionalAt(obj: map<string, Json>, key: string, v: Option<real>) {
    match v
    case None => key !in obj || obj[key] == JNull
    case Some(x) => key in obj && obj[key] == JNumber(x)
  }

  /** `obj` holds `v` at a key with a default: absent when `v` is the
      default, otherwise `v` itself. */
  predicate DefaultedAt(obj: map<string, Json>, key: string, v: Json, isDefault: bool) {
    if key in obj then obj[key] == v else isDefault
  }

  /** The objects that denote a record: `age` present, each optional
      measurement present or absent/null as the record says, each defaulted
      field present with its value or absent when it holds the default. Keys
      outside the schema are ignored. */
  predicate Denotes(obj: map<string, Json>, f: PredictionFeatures) {
    && AgeSpec.name in obj && obj[AgeSpec.name] == JNumber(f.age as real)
    && OptionalAt(obj, BmiSpec.name, f.bmi)
    && OptionalAt(obj, SystolicSpec.name, IntAsReal(f.bloodPressureSystolic))
    && OptionalAt(obj, DiastolicSpec.name, IntAsReal(f.bloodPressureDiastolic))
    && OptionalAt(obj, GlucoseSpec.name, f.glucoseLevel)
    && OptionalAt(obj, CholesterolSpec.name, f.cholesterol)
    && OptionalAt(obj, Hba1cSpec.name, f.hba1c)
    && DefaultedAt(obj, PreviousAdmissionsSpec.name, JNumber(f.previousAdmissions as real),
                   f.previousAdmissions == DefaultPreviousAdmissions)
    && OptionalAt(obj, LastStaySpec.name, IntAsReal(f.lastStayDuration))
    && DefaultedAt(obj, HasDiabetesKey, JBool(f.hasDiabetes), !f.hasDiabetes)
    && DefaultedAt(obj, HasHypertensionKey, JBool(f.hasHypertension), !f.hasHypertension)
    && DefaultedAt(obj, HasHeartDiseaseKey, JBool(f.hasHeartDisease), !f.hasHeartDisease)
    && DefaultedAt(obj, SmokingStatusKey, JString(f.smokingStatus), f.smokingStatus == DefaultSmokingStatus)
  }

  /** Validation accepts an object as a record exactly when the record
      satisfies the field constraints and the object denotes it. */
  lemma ValidateFeaturesIff(obj: map<string, Json>, f: PredictionFeatures)
    ensures ValidateFeatures(obj) == Ok(f) <==> Valid(f) && Denotes(obj, f)
  {
    if ValidateFeatures(obj) == Ok(f) {
      AcceptedMeasurements(obj, f);
      AcceptedLabs(obj, f);
      AcceptedHistory(obj, f);
    }
    if Valid(f) && Denotes(obj, f) {
      DenotedAccepted(obj, f);
    }
  }

  /** Every object denoting a valid record is accepted as that record,
      whichever optional or defaulted keys it omits and whatever other keys it
      carries. */
  lemma DenotedAccepted(obj: map<string, Json>, f: PredictionFeatures)
    requires Valid(f) && Denotes(obj, f)
    ensures ValidateFeatures(obj) == Ok(f)
  {
    DenotedMeasurements(obj, f);
    DenotedHistory(obj, f);
    assert FeatureErrors(obj) == [];
    assert FeaturesOf(obj) == f;
  }

  lemma DenotedMeasurements(obj: map<string, Json>, f: PredictionFeatures)
    requires Valid(f) && Denotes(obj, f)
    ensures RequiredNumberErrors(AgeSpec, obj) == [] && NumberOr(obj, AgeSpec.name, 0.0).Floor == f.age
    ensures OptionalNumberErrors(BmiSpec, obj) == [] && OptionalNumber(obj, BmiSpec.name) == f.bmi
    ensures OptionalNumberErrors(SystolicSpec, obj) == [] && OptionalInt(obj, SystolicSpec.name) == f.bloodPressureSystolic
    ensures OptionalNumberErrors(DiastolicSpec, obj) == [] && OptionalInt(obj, DiastolicSpec.name) == f.bloodPressureDiastolic
    ensures OptionalNumberErrors(GlucoseSpec, obj) == [] && OptionalNumber(obj, GlucoseSpec.name) == f.glucoseLevel
    ensures OptionalNumberErrors(CholesterolSpec, obj) == [] && OptionalNumber(obj, CholesterolSpec.name) == f.cholesterol
    ensures OptionalNumberErrors(Hba1cSpec, obj) == [] && OptionalNumber(obj, Hba1cSpec.name) == f.hba1c
  {
    OptionalRealDenoted(BmiSpec, obj, f.bmi);
    OptionalIntDenoted(SystolicSpec, obj, f.bloodPressureSystolic);
    OptionalIntDenoted(DiastolicSpec, obj, f.bloodPressureDiastolic);
    OptionalRealDenoted(GlucoseSpec, obj, f.glucoseLevel);
    OptionalRealDenoted(CholesterolSpec, obj, f.cholesterol);
    OptionalRealDenoted(Hba1cSpec, obj, f.hba1c);
  }

  lemma DenotedHistory(obj: map<string, Json>, f: PredictionFeatures)
    requires Valid(f) && Denotes(obj, f)
    ensures DefaultedNumberErrors(PreviousAdmissionsSpec, obj) == []
    ensures NumberOr(obj, PreviousAdmissionsSpec.name, DefaultPreviousAdmissions as real).Floor == f.previousAdmissions
    ensures OptionalNumberErrors(LastStaySpec, obj) == [] && OptionalInt(obj, LastStaySpec.name) == f.lastStayDuration
    ensures BoolErrors(HasDiabetesKey, obj) == [] && BoolOr(obj, HasDiabetesKey, false) == f.hasDiabetes
    ensures BoolErrors(HasHypertensionKey, obj) == [] && BoolOr(obj, HasHypertensionKey, false) == f.hasHypertension
    ensures BoolErrors(HasHeartDiseaseKey, obj) == [] && BoolOr(obj, HasHeartDiseaseKey, false) == f.hasHeartDisease
    ensures StringErrors(SmokingStatusKey, obj) == [] && StringOr(obj, SmokingStatusKey, DefaultSmokingStatus) == f.smokingStatus
  {
    OptionalIntDenoted(LastStaySpec, obj, f.lastStayDuration);
  }

  /** An in-range value of an optional `float` field, held as `OptionalAt`
      says, raises no error and reads back as itself. */
  lemma OptionalRealDenoted(spec: NumberSpec, obj: map<string, Json>, v: Option<real>)
    requires !spec.integral && OptionalAt(obj, spec.name, v) && OptionalWithin(v, spec.bounds)
    ensures OptionalNumberErrors(spec, obj) == [] && OptionalNumber(obj, spec.name) == v
  {
  }

  /** The same for an optional integer: an integer is never a fraction. */
  lemma OptionalIntDenoted(spec: NumberSpec, obj: map<string, Json>, v: Option<int>)
    requires OptionalAt(obj, spec.name, IntAsReal(v)) && OptionalWithin(IntAsReal(v), spec.bounds)
    ensures OptionalNumberErrors(spec, obj) == [] && OptionalInt(obj, spec.name) == v
  {
  }

  /** The features of the documented example request, which omits `hba1c`
      and `last_stay_duration`, are accepted with those two left `None`. */
  lemma ExampleFeaturesAccepted()
    ensures ValidateFeatures(map[
      "age" := JNumber(55.0), "bmi" := JNumber(28.5),
      "blood_pressure_systolic" := JNumber(140.0), "blood_pressure_diastolic" := JNumber(90.0),
      "glucose_level" := JNumber(126.0), "cholesterol" := JNumber(220.0),
      "previous_admissions" := JNumber(2.0),
      "has_diabetes" := JBool(true), "has_hypertension" := JBool(true), "has_heart_disease" := JBool(false),
      "smoking_status" := JString("FORMER")])
      == Ok(PredictionFeatures(55, Some(28.5), Some(140), Some(90), Some(126.0), Some(220.0), None,
                               2, None, true, true, false, "FORMER"))
  {
    var obj := map[
      "age" := JNumber(55.0), "bmi" := JNumber(28.5),
      "blood_pressure_systolic" := JNumber(140.0), "blood_pressure_diastolic" := JNumber(90.0),
      "glucose_level" := JNumber(126.0), "cholesterol" := JNumber(220.0),
      "previous_admissions" := JNumber(2.0),
      "has_diabetes" := JBool(true), "has_hypertension" := JBool(true), "has_heart_disease" := JBool(false),
      "smoking_status" := JString("FORMER")];
    DenotedAccepted(obj, PredictionFeatures(55, Some(28.5), Some(140), Some(90), Some(126.0), Some(220.0), None,
                                            2, None, true, true, false, "FORMER"));
  }

  /** A non-number at a numeric field is rejected with a type error at that
      field; null counts as a non-number at `age` and `previous_admissions`,
      which are not optional. */
  lemma {:induction false} NonNumberRejected(obj: map<string, Json>, k: nat)
    requires k < |NumberSpecs|
    requires NumberSpecs[k].name in obj && !obj[NumberSpecs[k].name].JNumber?
    requires obj[NumberSpecs[k].name] == JNull ==> k == 0 || k == 7
    ensures ValidateFeatures(obj).Err?
    ensures FieldError([NumberSpecs[k].name], WrongType) in ValidateFeatures(obj).error
  {
    var spec := NumberSpecs[k];
    var errors := FeatureErrors(obj);
    var parts := [RequiredNumberErrors(AgeSpec, obj),
                  OptionalNumberErrors(BmiSpec, obj),
                  OptionalNumberErrors(SystolicSpec, obj),
                  OptionalNumberErrors(DiastolicSpec, obj),
                  OptionalNumberErrors(GlucoseSpec, obj),
                  OptionalNumberErrors(CholesterolSpec, obj),
                  OptionalNumberErrors(Hba1cSpec, obj),
                  DefaultedNumberErrors(PreviousAdmissionsSpec, obj),
                  OptionalNumberErrors(LastStaySpec, obj)];
    assert parts[k] == [FieldError([spec.name], WrongType)];
    assert parts[k][0] in errors;
  }

  /** Only `age` given: every other field takes its schema default. */
  lemma DefaultsApplied(age: int)
    requires 0 <= age <= 150
    ensures ValidateFeatures(map[AgeSpec.name := JNumber(age as real)]) ==
      Ok(PredictionFeatures(age, None, None, None, None, None, None, 0, None, false, false, false, "NEVER"))
  {
    var obj := map[AgeSpec.name := JNumber(age as real)];
    assert RequiredNumberErrors(AgeSpec, obj) == [];
    assert FeatureErrors(obj) == [];
  }

  // ---------------------------------------------------------------------------
  // Request and response
  // ---------------------------------------------------------------------------

  /** The body of a prediction request. */
  datatype PredictionRequest = PredictionRequest(predictionType: PredictionType, features: PredictionFeatures)

  const PredictionTypeKey := "prediction_type"
  const FeaturesKey := "features"

  /** The errors of a nested object, located under `key`. */
  function Nested(key: string, errors: seq<FieldError>): seq<FieldError> {
    seq(|errors|, i requires 0 <= i < |errors| => FieldError([key] + errors[i].loc, errors[i].kind))
  }

  function PredictionTypeErrors(obj: map<string, Json>): seq<FieldError> {
    if PredictionTypeKey !in obj then [FieldError([PredictionTypeKey], Missing)]
    else match obj[PredictionTypeKey]
      case JString(s) => if ParsePredictionType(s).Some? then [] else [FieldError([PredictionTypeKey], NotEnumMember)]
      case _ => [FieldError([PredictionTypeKey], WrongType)]
  }

  function NestedFeatureErrors(obj: map<string, Json>): seq<FieldError> {
    if FeaturesKey !in obj then [FieldError([FeaturesKey], Missing)]
    else match obj[FeaturesKey]
      case JObject(m) => Nested(FeaturesKey, FeatureErrors(m))
      case _ => [FieldError([FeaturesKey], WrongType)]
  }

  /** Validation of a request body: both fields are required; the type must
      name a member of the enumeration and the features must be an object
      that passes feature validation. */
  function ValidateRequest(obj: map<string, Json>): (r: Result<PredictionRequest, seq<FieldError>>)
    ensures r.Ok? <==>
      && PredictionTypeKey in obj && obj[PredictionTypeKey].JString?
      && ParsePredictionType(obj[PredictionTypeKey].s).Some?
      && FeaturesKey in obj && obj[FeaturesKey].JObject?
      && ValidateFeatures(obj[FeaturesKey].members).Ok?
    ensures r.Ok? ==>
      && PredictionTypeValue(r.value.predictionType) == obj[PredictionTypeKey].s
      && Ok(r.value.features) == ValidateFeatures(obj[FeaturesKey].members)
      && Valid(r.value.features)
  {
    var errors := PredictionTypeErrors(obj) + NestedFeatureErrors(obj);
    if errors == [] then
      var m := obj[FeaturesKey].members;
      Ok(PredictionRequest(ParsePredictionType(obj[PredictionTypeKey].s).value, ValidateFeatures(m).value))
    else Err(errors)
  }

  /** A features object that fails validation fails the request, and each of
      its errors is reported with `features` prepended to its location. */
  lemma FeatureErrorsReported(obj: map<string, Json>, m: map<string, Json>)
    requires FeaturesKey in obj && obj[FeaturesKey] == JObject(m) && ValidateFeatures(m).Err?
    ensures ValidateRequest(obj).Err?
    ensures forall e :: e in ValidateFeatures(m).error ==>
      FieldError([FeaturesKey] + e.loc, e.kind) in ValidateRequest(obj).error
  {
    var inner := FeatureErrors(m);
    var nested := Nested(FeaturesKey, inner);
    assert NestedFeatureErrors(obj) == nested;
    forall e | e in ValidateFeatures(m).error
      ensures FieldError([FeaturesKey] + e.loc, e.kind) in ValidateRequest(obj).error
    {
      var i :| 0 <= i < |inner| && inner[i] == e;
      assert nested[i] == FieldError([FeaturesKey] + e.loc, e.kind);
      assert nested[i] in PredictionTypeErrors(obj) + nested;
    }
  }

  /** The body of a prediction response. The importance map is kept as its
      ordered list of items. */
  datatype PredictionResponse = PredictionResponse(
    success: bool,
    predictionType: string,
    riskScore: real,
    riskLevel: RiskLevel,
    modelVersion: string,
    modelAlgorithm: string,
    featureImportance: seq<(string, real)>,
    processingTimeMs: int)

  const RiskScoreBounds := Bounds(0.0, 1.0)

  /** The response constraint: the score is a probability. */
  predicate ValidResponse(r: PredictionResponse) {
    Within(r.riskScore, RiskScoreBounds)
  }

  /** Constructing a response validates it: a score outside [0, 1] is
      rejected with an error at `risk_score`, anything else is accepted
      unchanged. */
  function CreateResponse(success: bool, predictionType: string, riskScore: real, riskLevel: RiskLevel,
                          modelVersion: string, modelAlgorithm: string,
                          featureImportance: seq<(string, real)>, processingTimeMs: int)
    : (r: Result<PredictionResponse, seq<FieldError>>)
    ensures r.Ok? <==> 0.0 <= riskScore <= 1.0
    ensures r.Ok? ==> ValidResponse(r.value)
    ensures r.Ok? ==> r.value == PredictionResponse(success, predictionType, riskScore, riskLevel, modelVersion,
                                       modelAlgorithm, featureImportance, processingTimeMs)
    ensures r.Err? ==> r.error == [FieldError(["risk_score"], if riskScore < 0.0 then BelowMinimum(0.0) else AboveMaximum(1.0))]
  {
    var resp := PredictionResponse(success, predictionType, riskScore, riskLevel, modelVersion,
                                   modelAlgorithm, featureImportance, processingTimeMs);
    if riskScore < RiskScoreBounds.lo then Err([FieldError(["risk_score"], BelowMinimum(RiskScoreBounds.lo))])
    else if riskScore > RiskScoreBounds.hi then Err([FieldError(["risk_score"], AboveMaximum(RiskScoreBounds.hi))])
    else Ok(resp)
  }
}
