/** The inference service's model wrapper: the fixed feature layout, the
    imputation and encoding of a feature record into the model's input
    vector, the three-band risk classification, the per-prediction feature
    importance ranking, and the service object that holds the loaded model
    and its coefficients. The learned model's probability is an opaque
    function of the model and the input vector. */
module ModelService {
  import opened Wrappers
  import opened Schemas

  // ---------------------------------------------------------------------------
  // Feature layout and defaults
  // ---------------------------------------------------------------------------

  /** The model's input slots, in the order the model expects them. */
  const FeatureNames: seq<string> := [
    "age",
    "bmi",
    "blood_pressure_systolic",
    "blood_pressure_diastolic",
    "glucose_level",
    "cholesterol",
    "hba1c",
    "previous_admissions",
    "last_stay_duration",
    "has_diabetes",
    "has_hypertension",
    "has_heart_disease",
    "smoking_never",
    "smoking_former",
    "smoking_current"]

  /** Mean/mode values imputed for absent optional measurements. */
  const DefaultValues: map<string, real> := map[
    "bmi" := 25.0,
    "blood_pressure_systolic" := 120.0,
    "blood_pressure_diastolic" := 80.0,
    "glucose_level" := 100.0,
    "cholesterol" := 200.0,
    "hba1c" := 5.5,
    "last_stay_duration" := 0.0]

  predicate Distinct<T(==)>(s: seq<T>) {
    forall i, j :: 0 <= i < j < |s| ==> s[i] != s[j]
  }

  lemma FeatureNamesDistinct()
    ensures |FeatureNames| == 15 && Distinct(FeatureNames)
  {
  }

  /** The position of `name` among the feature names. */
  function FeatureIndex(name: string): (i: nat)
    requires name in FeatureNames
    ensures i < |FeatureNames| && FeatureNames[i] == name
  {
    IndexOf(FeatureNames, name)
  }

  function IndexOf(s: seq<string>, x: string): (i: nat)
    requires x in s
    ensures i < |s| && s[i] == x
  {
    if s[0] == x then 0 else 1 + IndexOf(s[1..], x)
  }

  lemma FeatureIndexOf(i: nat)
    requires i < |FeatureNames|
    ensures FeatureIndex(FeatureNames[i]) == i
  {
    FeatureNamesDistinct();
  }

  /** The numeric fields of the schema are the first nine slots, in the same
      order and under the same names; the imputed fields are exactly the
      optional measurements. */
  lemma LayoutMatchesSchema()
    ensures |NumberSpecs| == 9
    ensures forall i :: 0 <= i < |NumberSpecs| ==> NumberSpecs[i].name == FeatureNames[i]
    ensures DefaultValues.Keys == {BmiSpec.name, SystolicSpec.name, DiastolicSpec.name, GlucoseSpec.name,
                                   CholesterolSpec.name, Hba1cSpec.name, LastStaySpec.name}
  {
  }

  /** Every imputed default lies inside its field's schema range. */
  lemma DefaultsWithinSchema()
    ensures forall i :: 0 <= i < |NumberSpecs| && NumberSpecs[i].name in DefaultValues ==>
      Within(DefaultValues[NumberSpecs[i].name], NumberSpecs[i].bounds)
  {
    LayoutMatchesSchema();
  }

  // ---------------------------------------------------------------------------
  // Preprocessing
  // ---------------------------------------------------------------------------

  function Indicator(b: bool): real {
    if b then 1.0 else 0.0
  }

  /** The keyed feature values of a record: optional measurements fall back to
      their default, flags become 0/1, and the smoking status is one-hot
      encoded over "NEVER", "FORMER" and "CURRENT". */
  function FeatureDict(f: PredictionFeatures): map<string, real> {
    map[
      "age" := f.age as real,
      "bmi" := f.bmi.GetOr(DefaultValues["bmi"]),
      "blood_pressure_systolic" := IntAsReal(f.bloodPressureSystolic).GetOr(DefaultValues["blood_pressure_systolic"]),
      "blood_pressure_diastolic" := IntAsReal(f.bloodPressureDiastolic).GetOr(DefaultValues["blood_pressure_diastolic"]),
      "glucose_level" := f.glucoseLevel.GetOr(DefaultValues["glucose_level"]),
      "cholesterol" := f.cholesterol.GetOr(DefaultValues["cholesterol"]),
      "hba1c" := f.hba1c.GetOr(DefaultValues["hba1c"]),
      "previous_admissions" := f.previousAdmissions as real,
      "last_stay_duration" := IntAsReal(f.lastStayDuration).GetOr(DefaultValues["last_stay_duration"]),
      "has_diabetes" := Indicator(f.hasDiabetes),
      "has_hypertension" := Indicator(f.hasHypertension),
      "has_heart_disease" := Indicator(f.hasHeartDisease),
      "smoking_never" := Indicator(f.smokingStatus == "NEVER"),
      "smoking_former" := Indicator(f.smokingStatus == "FORMER"),
      "smoking_current" := Indicator(f.smokingStatus == "CURRENT")]
  }

  /** The model input vector: the keyed values read out in layout order. */
  function PreprocessFeatures(f: PredictionFeatures): (x: seq<real>)
    ensures |x| == |FeatureNames|
  {
    var d := FeatureDict(f);
    assert forall i :: 0 <= i < |FeatureNames| ==> FeatureNames[i] in d;
    seq(|FeatureNames|, i requires 0 <= i < |FeatureNames| => d[FeatureNames[i]])
  }

  /** The vector, slot by slot, in layout order. `age` and
      `previous_admissions` are always copied; each optional measurement is
      passed through unchanged when present and replaced by its default when
      absent. */
  lemma PreprocessLayout(f: PredictionFeatures)
    ensures PreprocessFeatures(f) == [
      f.age as real,
      f.bmi.GetOr(DefaultValues["bmi"]),
      IntAsReal(f.bloodPressureSystolic).GetOr(DefaultValues["blood_pressure_systolic"]),
      IntAsReal(f.bloodPressureDiastolic).GetOr(DefaultValues["blood_pressure_diastolic"]),
      f.glucoseLevel.GetOr(DefaultValues["glucose_level"]),
      f.cholesterol.GetOr(DefaultValues["cholesterol"]),
      f.hba1c.GetOr(DefaultValues["hba1c"]),
      f.previousAdmissions as real,
      IntAsReal(f.lastStayDuration).GetOr(DefaultValues["last_stay_duration"]),
      Indicator(f.hasDiabetes),
      Indicator(f.hasHypertension),
      Indicator(f.hasHeartDisease),
      Indicator(f.smokingStatus == "NEVER"),
      Indicator(f.smokingStatus == "FORMER"),
      Indicator(f.smokingStatus == "CURRENT")]
  {
    var x := PreprocessFeatures(f);
    MeasurementSlots(f);
    EncodedSlots(f);
    assert x == x[..9] + x[9..];
  }

  lemma MeasurementSlots(f: PredictionFeatures)
    ensures PreprocessFeatures(f)[..9] == [
      f.age as real,
      f.bmi.GetOr(DefaultValues["bmi"]),
      IntAsReal(f.bloodPressureSystolic).GetOr(DefaultValues["blood_pressure_systolic"]),
      IntAsReal(f.bloodPressureDiastolic).GetOr(DefaultValues["blood_pressure_diastolic"]),
      f.glucoseLevel.GetOr(DefaultValues["glucose_level"]),
      f.cholesterol.GetOr(DefaultValues["cholesterol"]),
      f.hba1c.GetOr(DefaultValues["hba1c"]),
      f.previousAdmissions as real,
      IntAsReal(f.lastStayDuration).GetOr(DefaultValues["last_stay_duration"])]
  {
  }

  lemma EncodedSlots(f: PredictionFeatures)
    ensures PreprocessFeatures(f)[9..] == [
      Indicator(f.hasDiabetes),
      Indicator(f.hasHypertension),
      Indicator(f.hasHeartDisease),
      Indicator(f.smokingStatus == "NEVER"),
      Indicator(f.smokingStatus == "FORMER"),
      Indicator(f.smokingStatus == "CURRENT")]
  {
  }

  /** Flags become 1 or 0; of the three smoking slots exactly one is 1 when
      the status is "NEVER", "FORMER" or "CURRENT", and none otherwise. */
  lemma Encoding(f: PredictionFeatures)
    ensures var x := PreprocessFeatures(f);
      && x[9] == (if f.hasDiabetes then 1.0 else 0.0)
      && x[10] == (if f.hasHypertension then 1.0 else 0.0)
      && x[11] == (if f.hasHeartDisease then 1.0 else 0.0)
      && (forall i :: 12 <= i < 15 ==> x[i] == 0.0 || x[i] == 1.0)
      && x[12] + x[13] + x[14] ==
           (if f.smokingStatus in {"NEVER", "FORMER", "CURRENT"} then 1.0 else 0.0)
  {
    PreprocessLayout(f);
  }

  /** The schema range of each slot: the field's own range for the nine
      numeric slots, [0, 1] for the encoded flags and smoking slots. */
  function SlotBounds(i: nat): Bounds
    requires i < |FeatureNames|
  {
    if i < |NumberSpecs| then NumberSpecs[i].bounds else Bounds(0.0, 1.0)
  }

  /** A valid record always yields an in-range vector, because each imputed
      default lies inside its field's range. */
  lemma PreprocessWithinSchema(f: PredictionFeatures)
    requires Valid(f)
    ensures forall i :: 0 <= i < |FeatureNames| ==> Within(PreprocessFeatures(f)[i], SlotBounds(i))
  {
    forall i | 0 <= i < |FeatureNames| ensures Within(PreprocessFeatures(f)[i], SlotBounds(i)) {
      SlotWithinSchema(f, i);
    }
  }

  lemma SlotWithinSchema(f: PredictionFeatures, i: nat)
    requires Valid(f) && i < |FeatureNames|
    ensures Within(PreprocessFeatures(f)[i], SlotBounds(i))
  {
    if i < |NumberSpecs| {
      MeasurementWithinSchema(f, i);
    } else {
      EncodedSlots(f);
      assert PreprocessFeatures(f)[i] == PreprocessFeatures(f)[9..][i - 9];
    }
  }

  lemma MeasurementWithinSchema(f: PredictionFeatures, i: nat)
    requires Valid(f) && i < |NumberSpecs|
    ensures Within(PreprocessFeatures(f)[i], NumberSpecs[i].bounds)
  {
    MeasurementSlots(f);
    var x := PreprocessFeatures(f);
    assert x[i] == x[..9][i];
    if i == 0 {
    } else if i == 1 {
    } else if i == 2 {
    } else if i == 3 {
    } else if i == 4 {
    } else if i == 5 {
    } else if i == 6 {
    } else if i == 7 {
    } else {
      assert i == 8;
    }
  }

  // ---------------------------------------------------------------------------
  // Risk classification
  // ---------------------------------------------------------------------------

  const MediumThreshold: real := 0.3
  const HighThreshold: real := 0.7

  /** The risk band of a score. Total: no range check is made. */
  function CalculateRiskLevel(score: real): (level: RiskLevel)
    ensures level == Low <==> score < MediumThreshold
    ensures level == Medium <==> MediumThreshold <= score < HighThreshold
    ensures level == High <==> HighThreshold <= score
  {
    if score < MediumThreshold then Low
    else if score < HighThreshold then Medium
    else High
  }

  /** The position of a band in LOW < MEDIUM < HIGH. */
  function Rank(l: RiskLevel): nat {
    match l
    case Low => 0
    case Medium => 1
    case High => 2
  }

  /** A higher score never gives a lower band. */
  lemma RiskLevelMonotone(s1: real, s2: real)
    requires s1 <= s2
    ensures Rank(CalculateRiskLevel(s1)) <= Rank(CalculateRiskLevel(s2))
  {
  }

  // ---------------------------------------------------------------------------
  // Feature importance
  // ---------------------------------------------------------------------------

  /** How many features the importance map keeps. */
  const TopCount: nat := 10

  function Abs(r: real): (a: real)
    ensures a >= 0.0 && (a == r || a == -r)
  {
    if r < 0.0 then -r else r
  }

  /** The coefficient of a feature, 0 when none was extracted for it. */
  function Coefficient(coefs: map<string, real>, name: string): real {
    if name in coefs then coefs[name] else 0.0
  }

  /** |coefficient * value| per slot, in layout order. */
  function RawScores(coefs: map<string, real>, x: seq<real>): (s: seq<real>)
    requires |x| == |FeatureNames|
    ensures |s| == |FeatureNames|
    ensures forall i :: 0 <= i < |s| ==> s[i] >= 0.0
  {
    seq(|FeatureNames|, i requires 0 <= i < |FeatureNames| => RawScore(coefs, x, i))
  }

  /** |coefficient * value| of slot `i`. */
  function RawScore(coefs: map<string, real>, x: seq<real>, i: nat): (s: real)
    requires i < |x| == |FeatureNames|
    ensures s >= 0.0
  {
    Abs(Coefficient(coefs, FeatureNames[i]) * x[i])
  }

  function Sum(s: seq<real>): real {
    if s == [] then 0.0 else s[0] + Sum(s[1..])
  }

  predicate NonNegative(s: seq<real>) {
    forall i :: 0 <= i < |s| ==> s[i] >= 0.0
  }

  /** Each score divided by the total when the total is positive; the scores
      unchanged (all zero) otherwise. */
  function Normalize(s: seq<real>): (r: seq<real>)
    ensures |r| == |s|
  {
    var total := Sum(s);
    if total > 0.0 then seq(|s|, i requires 0 <= i < |s| => s[i] / total) else s
  }

  /** The normalised importance of every slot. */
  function Scores(coefs: map<string, real>, x: seq<real>): (s: seq<real>)
    requires |x| == |FeatureNames|
    ensures |s| == |FeatureNames|
  {
    Normalize(RawScores(coefs, x))
  }

  /** Slot `i` ranks ahead of slot `j`: a larger score, or an equal score and
      an earlier slot (the sort is stable over the layout order). */
  predicate Before(v: seq<real>, i: nat, j: nat)
    requires i < |v| && j < |v|
  {
    v[i] > v[j] || (v[i] == v[j] && i < j)
  }

  predicate InRange(v: seq<real>, s: seq<nat>) {
    forall k :: 0 <= k < |s| ==> s[k] < |v|
  }

  predicate SortedBy(v: seq<real>, s: seq<nat>) {
    InRange(v, s) && forall a, b :: 0 <= a < b < |s| ==> Before(v, s[a], s[b])
  }

  function Insert(v: seq<real>, k: nat, s: seq<nat>): (r: seq<nat>)
    requires k < |v| && InRange(v, s)
    ensures InRange(v, r) && multiset(r) == multiset(s) + multiset{k}
  {
    if s == [] then [k]
    else if Before(v, k, s[0]) then [k] + s
    else
      assert s == [s[0]] + s[1..];
      [s[0]] + Insert(v, k, s[1..])
  }

  /** Insertion sort of slot indices into ranking order. */
  function SortIndices(v: seq<real>, s: seq<nat>): (r: seq<nat>)
    requires InRange(v, s)
    ensures InRange(v, r) && multiset(r) == multiset(s)
  {
    if s == [] then []
    else
      assert s == [s[0]] + s[1..];
      Insert(v, s[0], SortIndices(v, s[1..]))
  }

  lemma {:induction false} InsertSorted(v: seq<real>, k: nat, s: seq<nat>)
    requires k < |v| && SortedBy(v, s) && k !in s
    ensures SortedBy(v, Insert(v, k, s))
  {
    if s == [] {
    } else if Before(v, k, s[0]) {
      var r := [k] + s;
      forall a, b | 0 <= a < b < |r| ensures Before(v, r[a], r[b]) {
        if a == 0 && b > 1 {
          assert Before(v, s[0], s[b - 1]);
        }
      }
    } else {
      var rest := Insert(v, k, s[1..]);
      InsertSorted(v, k, s[1..]);
      var r := [s[0]] + rest;
      forall b | 0 < b < |r| ensures Before(v, s[0], r[b]) {
        var y := r[b];
        assert y in multiset(rest);
        if y != k {
          assert y in multiset(s[1..]);
          var c :| 0 <= c < |s[1..]| && s[1..][c] == y;
          assert Before(v, s[0], s[c + 1]);
        }
      }
    }
  }

  lemma {:induction false} SortSorted(v: seq<real>, s: seq<nat>)
    requires InRange(v, s) && Distinct(s)
    ensures SortedBy(v, SortIndices(v, s))
  {
    if s != [] {
      SortSorted(v, s[1..]);
      assert s[0] !in multiset(s[1..]);
      InsertSorted(v, s[0], SortIndices(v, s[1..]));
    }
  }

  /** The slots 0 .. n-1. */
  function Slots(n: nat): seq<nat> {
    seq(n, i => i)
  }

  /** The slots in ranking order. */
  function Ranking(v: seq<real>): (r: seq<nat>)
    requires |v| == |FeatureNames|
  {
    SortIndices(v, Slots(|FeatureNames|))
  }

  /** The importance entries of the given slots, in that order. */
  function Entries(v: seq<real>, slots: seq<nat>): (r: seq<(string, real)>)
    requires |v| == |FeatureNames| && InRange(v, slots)
    ensures |r| == |slots|
  {
    seq(|slots|, a requires 0 <= a < |slots| => (FeatureNames[slots[a]], v[slots[a]]))
  }

  function Min(a: nat, b: nat): nat {
    if a < b then a else b
  }

  /** The importance map of one prediction, as its ordered list of items:
      empty when no coefficients are known; otherwise the normalised scores
      of the best-ranked slots. */
  function FeatureImportance(coefs: map<string, real>, x: seq<real>): seq<(string, real)>
    requires |x| == |FeatureNames|
  {
    if |coefs| == 0 then []
    else
      var v := Scores(coefs, x);
      var order := Ranking(v);
      Entries(v, order[..Min(TopCount, |order|)])
  }

  lemma RankingPermutation(v: seq<real>)
    requires |v| == |FeatureNames|
    ensures |Ranking(v)| == |FeatureNames| && SortedBy(v, Ranking(v))
    ensures forall j :: 0 <= j < |FeatureNames| ==> j in Ranking(v)
  {
    var slots := Slots(|FeatureNames|);
    SortSorted(v, slots);
    var r := Ranking(v);
    assert |r| == |multiset(r)| == |multiset(slots)| == |slots|;
    forall j | 0 <= j < |FeatureNames| ensures j in r {
      assert slots[j] == j;
      assert j in multiset(slots);
    }
  }

  /** Any ordering of the slots that is sorted by `Before` is the ranking:
      the stable descending order does not depend on the sorting algorithm. */
  lemma RankingUnique(v: seq<real>, s: seq<nat>)
    requires |v| == |FeatureNames| && SortedBy(v, s)
    requires multiset(s) == multiset(Slots(|FeatureNames|))
    ensures s == Ranking(v)
  {
    var slots := Slots(|FeatureNames|);
    SortSorted(v, slots);
    SortedUnique(v, s, Ranking(v));
  }

  /** Two sequences sorted by `Before` with the same elements are equal. */
  lemma {:induction false} SortedUnique(v: seq<real>, s: seq<nat>, t: seq<nat>)
    requires SortedBy(v, s) && SortedBy(v, t) && multiset(s) == multiset(t)
    ensures s == t
  {
    if s == [] {
      assert |t| == |multiset(t)| == 0;
    } else {
      assert |t| == |multiset(t)| == |multiset(s)| == |s|;
      SameFirst(v, s, t);
      assert s == [s[0]] + s[1..] && t == [t[0]] + t[1..];
      assert multiset(s) == multiset{s[0]} + multiset(s[1..]);
      assert multiset(t) == multiset{t[0]} + multiset(t[1..]);
      assert multiset(s[1..]) == multiset(s) - multiset{s[0]} == multiset(t) - multiset{t[0]} == multiset(t[1..]);
      SortedTail(v, s);
      SortedTail(v, t);
      SortedUnique(v, s[1..], t[1..]);
    }
  }

  /** The first element of a sorted sequence ranks ahead of all the others,
      so two sorted sequences with the same elements start alike. */
  lemma SameFirst(v: seq<real>, s: seq<nat>, t: seq<nat>)
    requires SortedBy(v, s) && SortedBy(v, t) && multiset(s) == multiset(t) && s != []
    ensures t != [] && s[0] == t[0]
  {
    assert s[0] in multiset(t);
    assert t[0] in multiset(s);
    var c :| 0 <= c < |t| && t[c] == s[0];
    var d :| 0 <= d < |s| && s[d] == t[0];
    assert c == 0;
  }

  lemma SortedTail(v: seq<real>, s: seq<nat>)
    requires SortedBy(v, s) && s != []
    ensures SortedBy(v, s[1..])
  {
    forall a, b | 0 <= a < b < |s[1..]| ensures Before(v, s[1..][a], s[1..][b]) {
      assert Before(v, s[a + 1], s[b + 1]);
    }
  }

  lemma SumNonNegative(s: seq<real>)
    requires NonNegative(s)
    ensures Sum(s) >= 0.0
  {
    if s != [] {
      SumNonNegative(s[1..]);
    }
  }

  lemma {:induction false} ElementAtMostSum(s: seq<real>, i: nat)
    requires NonNegative(s) && i < |s|
    ensures s[i] <= Sum(s)
  {
    SumNonNegative(s[1..]);
    if i > 0 {
      ElementAtMostSum(s[1..], i - 1);
    }
  }

  lemma {:induction false} SumScaled(s: seq<real>, total: real)
    requires total > 0.0
    ensures Sum(seq(|s|, i requires 0 <= i < |s| => s[i] / total)) == Sum(s) / total
  {
    var t := seq(|s|, i requires 0 <= i < |s| => s[i] / total);
    if s != [] {
      var tail := seq(|s[1..]|, i requires 0 <= i < |s[1..]| => s[1..][i] / total);
      assert t[1..] == tail;
      SumScaled(s[1..], total);
    }
  }

  lemma ShareAtMostOne(part: real, total: real)
    requires 0.0 <= part <= total && total > 0.0
    ensures part / total <= 1.0
    ensures part == total ==> part / total == 1.0
  {
    assert part / total * total == part;
  }

  /** Normalisation keeps scores non-negative; when the total is positive they
      all lie in [0, 1] and sum to 1. */
  lemma NormalizeShares(s: seq<real>)
    requires NonNegative(s)
    ensures NonNegative(Normalize(s))
    ensures Sum(s) > 0.0 ==> Sum(Normalize(s)) == 1.0 && forall i :: 0 <= i < |s| ==> Normalize(s)[i] <= 1.0
  {
    if Sum(s) > 0.0 {
      NormalizedSumIsOne(s);
      NormalizedAtMostOne(s);
    }
  }

  lemma NormalizedSumIsOne(s: seq<real>)
    requires Sum(s) > 0.0
    ensures Sum(Normalize(s)) == 1.0
  {
    var total := Sum(s);
    SumScaled(s, total);
    assert Normalize(s) == seq(|s|, i requires 0 <= i < |s| => s[i] / total);
    assert Sum(Normalize(s)) == total / total;
    ShareAtMostOne(total, total);
  }

  lemma NormalizedAtMostOne(s: seq<real>)
    requires NonNegative(s) && Sum(s) > 0.0
    ensures forall i :: 0 <= i < |s| ==> Normalize(s)[i] <= 1.0
  {
    var total := Sum(s);
    forall i | 0 <= i < |s| ensures Normalize(s)[i] <= 1.0 {
      ElementAtMostSum(s, i);
      ShareAtMostOne(s[i], total);
    }
  }

  /** The shape of the importance map: empty exactly when no coefficients are
      known, otherwise ten entries with distinct feature names, non-negative
      values in non-increasing order, equal values in layout order, each value
      the normalised score of its feature, and no left-out feature scoring
      above a kept one. */
  lemma FeatureImportanceShape(coefs: map<string, real>, x: seq<real>)
    requires |x| == |FeatureNames|
    ensures var r := FeatureImportance(coefs, x); var v := Scores(coefs, x);
      && (|r| == 0 <==> |coefs| == 0)
      && (|coefs| > 0 ==> |r| == TopCount)
      && (forall a :: 0 <= a < |r| ==> r[a].0 in FeatureNames && r[a].1 >= 0.0)
      && (forall a :: 0 <= a < |r| ==> r[a].1 == v[FeatureIndex(r[a].0)])
      && (forall a, b :: 0 <= a < b < |r| ==> r[a].0 != r[b].0 && r[a].1 >= r[b].1)
      && (forall a, b :: 0 <= a < b < |r| && r[a].1 == r[b].1 ==> FeatureIndex(r[a].0) < FeatureIndex(r[b].0))
      && (forall j, a :: 0 <= j < |FeatureNames| && 0 <= a < |r| && FeatureNames[j] !in Keys(r) ==>
            v[j] <= r[a].1 && Before(v, FeatureIndex(r[a].0), j))
  {
    if |coefs| > 0 {
      NormalizeShares(RawScores(coefs, x));
      ImportanceRanked(coefs, x);
      ImportanceCut(coefs, x);
    }
  }

  /** The kept items: distinct named features with their scores, in ranking
      order. */
  lemma ImportanceRanked(coefs: map<string, real>, x: seq<real>)
    requires |x| == |FeatureNames| && |coefs| > 0
    ensures var r := FeatureImportance(coefs, x); var v := Scores(coefs, x);
      && |r| == TopCount
      && (forall a :: 0 <= a < |r| ==> r[a].0 in FeatureNames && r[a].1 == v[FeatureIndex(r[a].0)])
      && (forall a, b :: 0 <= a < b < |r| ==> r[a].0 != r[b].0 && r[a].1 >= r[b].1)
      && (forall a, b :: 0 <= a < b < |r| && r[a].1 == r[b].1 ==> FeatureIndex(r[a].0) < FeatureIndex(r[b].0))
  {
    var v := Scores(coefs, x);
    var order := Ranking(v);
    RankingPermutation(v);
    var top := order[..TopCount];
    assert SortedBy(v, top);
    EntriesNamed(v, top);
    SortedEntries(v, top);
  }

  /** The cut after ten items: every kept feature ranks ahead of every
      dropped one. */
  lemma ImportanceCut(coefs: map<string, real>, x: seq<real>)
    requires |x| == |FeatureNames| && |coefs| > 0
    ensures var r := FeatureImportance(coefs, x); var v := Scores(coefs, x);
      forall j, a :: 0 <= j < |FeatureNames| && 0 <= a < |r| && FeatureNames[j] !in Keys(r) ==>
        r[a].0 in FeatureNames && v[j] <= r[a].1 && Before(v, FeatureIndex(r[a].0), j)
  {
    var v := Scores(coefs, x);
    var order := Ranking(v);
    RankingPermutation(v);
    var top := order[..TopCount];
    EntriesNamed(v, top);
    TopDominates(v, order, TopCount);
  }

  /** Each entry carries the name and the score of its slot. */
  lemma EntriesNamed(v: seq<real>, slots: seq<nat>)
    requires |v| == |FeatureNames| && InRange(v, slots)
    ensures var r := Entries(v, slots);
      forall a :: 0 <= a < |r| ==> r[a].0 in FeatureNames && FeatureIndex(r[a].0) == slots[a] && r[a].1 == v[slots[a]]
  {
    var r := Entries(v, slots);
    forall a | 0 <= a < |r| ensures r[a].0 in FeatureNames && FeatureIndex(r[a].0) == slots[a] {
      FeatureIndexOf(slots[a]);
    }
  }

  /** Entries of slots in ranking order have distinct names, non-increasing
      values, and equal values in layout order. */
  lemma SortedEntries(v: seq<real>, slots: seq<nat>)
    requires |v| == |FeatureNames| && SortedBy(v, slots)
    ensures var r := Entries(v, slots);
      && (forall a, b :: 0 <= a < b < |r| ==> r[a].0 != r[b].0 && r[a].1 >= r[b].1)
      && (forall a, b :: 0 <= a < b < |r| && r[a].1 == r[b].1 ==> FeatureIndex(r[a].0) < FeatureIndex(r[b].0))
  {
    EntriesNamed(v, slots);
    var r := Entries(v, slots);
    forall a, b | 0 <= a < b < |r| ensures r[a].0 != r[b].0 && r[a].1 >= r[b].1 {
      assert Before(v, slots[a], slots[b]);
    }
  }

  /** Cutting a ranking after `n` slots keeps every kept slot ranked ahead of
      every dropped one: no dropped slot scores above a kept one, and a
      dropped slot tying a kept one comes later in the layout. */
  lemma TopDominates(v: seq<real>, order: seq<nat>, n: nat)
    requires |v| == |FeatureNames| && SortedBy(v, order) && n <= |order|
    requires forall j :: 0 <= j < |v| ==> j in order
    ensures var r := Entries(v, order[..n]);
      forall j, a :: 0 <= j < |FeatureNames| && 0 <= a < |r| && FeatureNames[j] !in Keys(r) ==>
        v[j] <= r[a].1 && Before(v, order[a], j)
  {
    var r := Entries(v, order[..n]);
    forall j, a | 0 <= j < |FeatureNames| && 0 <= a < |r| && FeatureNames[j] !in Keys(r)
      ensures v[j] <= r[a].1 && Before(v, order[a], j)
    {
      assert j in order;
      var p :| 0 <= p < |order| && order[p] == j;
      if p < n {
        KeyOf(r, p);
        assert false;
      }
      assert Before(v, order[a], order[p]);
    }
  }

  /** The feature names of a list of items. */
  function Keys(items: seq<(string, real)>): set<string> {
    set a | 0 <= a < |items| :: items[a].0
  }

  lemma KeyOf(items: seq<(string, real)>, a: int)
    requires 0 <= a < |items|
    ensures items[a].0 in Keys(items)
  {
  }

  // ---------------------------------------------------------------------------
  // The service object
  // ---------------------------------------------------------------------------

  /** The classifier step of a fitted pipeline: its first coefficient row, if
      it has been fitted. */
  datatype Classifier = Classifier(coef: Option<seq<real>>)

  /** A loaded pipeline (scaler then classifier); the classifier step may be
      missing from an arbitrary loaded object. */
  datatype Pipeline = Pipeline(classifier: Option<Classifier>)

  /** The four results of a prediction. */
  datatype PredictionOutcome = PredictionOutcome(
    riskScore: real,
    riskLevel: RiskLevel,
    featureImportance: seq<(string, real)>,
    processingTimeMs: int)

  datatype PredictError = ModelNotLoaded

  /** Feature names paired with a coefficient row; the pairing stops at the
      shorter of the two. */
  function ZipCoefficients(names: seq<string>, coef: seq<real>): map<string, real> {
    if names == [] || coef == [] then map[]
    else ZipCoefficients(names[1..], coef[1..])[names[0] := coef[0]]
  }

  /** The extracted map has one entry per paired feature name, holding that
      feature's coefficient. */
  lemma {:induction false} ZipCoefficientsContents(names: seq<string>, coef: seq<real>)
    requires Distinct(names)
    ensures var m := ZipCoefficients(names, coef);
      && m.Keys == (set i | 0 <= i < Min(|names|, |coef|) :: names[i])
      && forall i :: 0 <= i < Min(|names|, |coef|) ==> m[names[i]] == coef[i]
  {
    if names != [] && coef != [] {
      ZipCoefficientsContents(names[1..], coef[1..]);
      var m := ZipCoefficients(names, coef);
      var n := Min(|names|, |coef|);
      assert m.Keys == set i | 0 <= i < n :: names[i] by {
        forall y | y in m.Keys ensures y in set i | 0 <= i < n :: names[i] {
          if y != names[0] {
            var i :| 0 <= i < n - 1 && names[1..][i] == y;
            assert names[i + 1] == y;
          }
        }
        forall i | 0 <= i < n ensures names[i] in m.Keys {
          if i > 0 { assert names[1..][i - 1] == names[i]; }
        }
      }
      forall i | 0 <= i < n ensures m[names[i]] == coef[i] {
        if i > 0 {
          assert names[1..][i - 1] == names[i];
          assert names[i] != names[0];
        }
      }
    }
  }

  /** The extracted map is empty exactly when the coefficient row is. */
  lemma ZipCoefficientsEmpty(coef: seq<real>)
    ensures |ZipCoefficients(FeatureNames, coef)| == 0 <==> |coef| == 0
  {
    if coef != [] {
      assert FeatureNames[0] in ZipCoefficients(FeatureNames, coef);
    }
  }

  class ModelService {
    var model: Option<Pipeline>
    var modelVersion: string
    var modelAlgorithm: string
    var featureCoefficients: map<string, real>

    constructor ()
      ensures model == None && featureCoefficients == map[]
      ensures modelVersion == "1.0.0" && modelAlgorithm == "logistic_regression"
    {
      model := None;
      modelVersion := "1.0.0";
      modelAlgorithm := "logistic_regression";
      featureCoefficients := map[];
    }

    /** Installs a pipeline read from the model file, and takes the
        coefficients from its classifier step when it has a fitted one. */
    method LoadModel(loaded: Pipeline)
      modifies this
      ensures model == Some(loaded)
      ensures featureCoefficients ==
        if loaded.classifier.Some? && loaded.classifier.value.coef.Some?
        then ZipCoefficients(FeatureNames, loaded.classifier.value.coef.value)
        else old(featureCoefficients)
      ensures modelVersion == old(modelVersion) && modelAlgorithm == old(modelAlgorithm)
    {
      model := Some(loaded);
      if loaded.classifier.Some? {
        ExtractCoefficients(loaded.classifier.value);
      }
    }

    /** Replaces the coefficients by the classifier's first row paired with the
        feature names; leaves them as they are for an unfitted classifier. */
    method ExtractCoefficients(lr: Classifier)
      modifies this
      ensures featureCoefficients ==
        if lr.coef.Some? then ZipCoefficients(FeatureNames, lr.coef.value) else old(featureCoefficients)
      ensures model == old(model) && modelVersion == old(modelVersion) && modelAlgorithm == old(modelAlgorithm)
    {
      if lr.coef.Some? {
        featureCoefficients := ZipCoefficients(FeatureNames, lr.coef.value);
      }
    }

    /** The importance map for an input vector. */
    method CalculateFeatureImportance(x: seq<real>) returns (r: seq<(string, real)>)
      requires |x| == |FeatureNames|
      ensures r == FeatureImportance(featureCoefficients, x)
      ensures |r| == 0 <==> |featureCoefficients| == 0
      ensures |r| <= TopCount
    {
      if |featureCoefficients| == 0 {
        return [];
      }
      FeatureNamesDistinct();
      var importanceScores: map<string, real> := map[];
      for i := 0 to |FeatureNames|
        invariant forall j :: 0 <= j < i ==> FeatureNames[j] in importanceScores
        invariant forall j :: 0 <= j < i ==>
          importanceScores[FeatureNames[j]] == RawScore(featureCoefficients, x, j)
      {
        assert forall j :: 0 <= j < i ==> FeatureNames[j] != FeatureNames[i];
        var coef := Coefficient(featureCoefficients, FeatureNames[i]);
        importanceScores := importanceScores[FeatureNames[i] := Abs(coef * x[i])];
      }
      // The dictionary's values in insertion order, which is the layout order.
      var values := seq(|FeatureNames|, j requires 0 <= j < |FeatureNames| => importanceScores[FeatureNames[j]]);
      assert values == RawScores(featureCoefficients, x);
      var normalized := Normalize(values);
      var order := Ranking(normalized);
      r := Entries(normalized, order[..Min(TopCount, |order|)]);
      FeatureImportanceShape(featureCoefficients, x);
    }

    /** Runs one prediction: fails when no model is loaded; otherwise scores
        the preprocessed vector with the model and classifies that score. */
    method Predict(predictionType: PredictionType, features: PredictionFeatures,
                   predictProba: (Pipeline, seq<real>) -> real, elapsedMs: int)
      returns (r: Result<PredictionOutcome, PredictError>)
      ensures model.None? <==> r == Err(ModelNotLoaded)
      ensures r.Ok? ==> r.value.riskLevel == CalculateRiskLevel(r.value.riskScore)
      ensures r.Ok? ==> r.value == PredictionOutcome(
        predictProba(model.value, PreprocessFeatures(features)),
        CalculateRiskLevel(predictProba(model.value, PreprocessFeatures(features))),
        FeatureImportance(featureCoefficients, PreprocessFeatures(features)),
        elapsedMs)
    {
      if model.None? {
        return Err(ModelNotLoaded);
      }
      var x := PreprocessFeatures(features);
      var riskScore := predictProba(model.value, x);
      var riskLevel := CalculateRiskLevel(riskScore);
      var featureImportance := CalculateFeatureImportance(x);
      r := Ok(PredictionOutcome(riskScore, riskLevel, featureImportance, elapsedMs));
    }
  }
}
