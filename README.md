# Clinical risk inference core, modelled in Dafny

This project models the core of a clinical ML inference service. A client posts a
prediction request: a prediction type plus a record of clinical features. The
service validates the record against its schema and imputes defaults for absent
measurements. It one-hot encodes the smoking status and lays the record out as a
15-slot input vector. A loaded logistic-regression pipeline turns that vector
into a probability, which becomes one of three risk bands (LOW, MEDIUM, HIGH).
The service also returns a per-prediction feature-importance map: the ten
largest normalised |coefficient × value| products, in stable descending order.

Files:

- `wrappers.dfy`: `Option` and `Result`.
- `schemas.dfy` (module `Schemas`) covers the request and response schemas:
  - the two enumerations;
  - the feature record with its ranges and defaults;
  - validation of a decoded JSON object, including errors located by field;
  - the request body;
  - the bound 0 ≤ risk score ≤ 1 on the response.
- `model_service.dfy` (module `ModelService`) covers the model wrapper:
  - the feature layout and default table;
  - preprocessing;
  - risk classification;
  - feature importance, specified by functions and computed by a loop in the
    `ModelService` class;
  - coefficient extraction;
  - the class itself. It holds the loaded model and its coefficients and runs
    `Predict`.

The model's probability is opaque. `Predict` takes it as a function parameter of
the pipeline and the input vector. The elapsed time is a parameter too.

Two points of behaviour worth knowing, both following the code:

- The risk classifier (`ml-service/app/services/model_service.py:274-279`) has
  no range check: every real gets a band, so `CalculateRiskLevel` is total.
  The bound 0 ≤ score ≤ 1 is enforced only by the response schema
  (`CreateResponse`).
- Absent optional measurements are imputed with the fixed `DEFAULT_VALUES`
  (`model_service.py:200-209`), not passed on to the model as missing values.

## Model

| member | source | states |
|---|---|---|
| Schemas.ParsePredictionType | ml-service/app/schemas/prediction.py:14-17 | a string is accepted exactly when it is one of the two wire values, and the parsed member has that wire value |
| Schemas.PredictionTypeRoundTrip | ml-service/app/schemas/prediction.py:14-17 | parsing a member's wire value gives the member back; distinct members have distinct wire values |
| Schemas.ParseRiskLevel | ml-service/app/schemas/prediction.py:20-24 | a string is accepted exactly when it is LOW, MEDIUM or HIGH, and the parsed band has that wire value |
| Schemas.RiskLevelRoundTrip | ml-service/app/schemas/prediction.py:20-24 | parsing a band's wire value gives the band back; distinct bands have distinct wire values |
| Schemas.Valid | ml-service/app/schemas/prediction.py:36-50 | no contract of its own; the `ge`/`le` bounds of the nine numeric fields, optional ones only when present; used by ValidateFeatures, ValidateFeaturesIff and PreprocessWithinSchema |
| Schemas.FeatureErrors | ml-service/app/schemas/prediction.py:27-56 | no contract of its own; the errors of the 13 fields in declaration order; its properties are in AgeRequired, OutOfRangeRejected and NonNumberRejected |
| Schemas.FeaturesOf | ml-service/app/schemas/prediction.py:36-56 | no contract of its own; the record an object denotes, with the declared defaults; its properties are in the Accepted* and Denoted* lemmas |
| Schemas.ValidateFeatures | ml-service/app/schemas/prediction.py:27-56 | an accepted record satisfies every field constraint; a rejection carries at least one error |
| Schemas.ValidFeaturesOf | ml-service/app/schemas/prediction.py:36-50 | an object raising no error denotes a record within all the field ranges |
| Schemas.NoNumberErrorsWithin | ml-service/app/schemas/prediction.py:36-50 | a present number raising no error is within its field's bounds, and integral for an `int` field |
| Schemas.FeaturesOfJson | ml-service/app/schemas/prediction.py:27-56 | reading back the serialised form of any record gives the record |
| Schemas.MeasurementsOfJson | ml-service/app/schemas/prediction.py:36-41 | age, BMI and both blood pressures survive serialisation and reading back |
| Schemas.LabsOfJson | ml-service/app/schemas/prediction.py:44-46 | glucose, cholesterol and HbA1c survive serialisation and reading back |
| Schemas.HistoryOfJson | ml-service/app/schemas/prediction.py:49-56 | admission history, the three flags and the smoking status survive serialisation and reading back |
| Schemas.FeaturesRoundTrip | ml-service/app/schemas/prediction.py:27-56 | validating the serialised form of a valid record accepts exactly that record |
| Schemas.MeasurementsAccepted | ml-service/app/schemas/prediction.py:36-44 | the serialised fields age through glucose of a valid record raise no error |
| Schemas.HistoryAccepted | ml-service/app/schemas/prediction.py:45-56 | the serialised fields cholesterol through smoking status of a valid record raise no error |
| Schemas.AcceptedIffValid | ml-service/app/schemas/prediction.py:27-56 | a serialised record is accepted if and only if it satisfies the field constraints |
| Schemas.AgeRequired | ml-service/app/schemas/prediction.py:36 | an object without `age` is rejected, and its first error is that `age` is missing |
| Schemas.OutOfRangeRejected | ml-service/app/schemas/prediction.py:36-50 | a number outside its field's range is rejected, with the exact error at that field: NotInteger for a fraction at an `int` field, otherwise BelowMinimum(lo) below the range and AboveMaximum(hi) above it |
| Schemas.OptionalRealAccepted | ml-service/app/schemas/prediction.py:39-46 | an optional real field raising no error gives None exactly when absent or null, otherwise the given number |
| Schemas.OptionalIntAccepted | ml-service/app/schemas/prediction.py:40-50 | an optional `int` field raising no error gives None exactly when absent or null, otherwise the integer equal to the given number |
| Schemas.AcceptedMeasurements | ml-service/app/schemas/prediction.py:36-41 | an accepted record holds the given age, and each physical measurement as given, or None exactly when its key is absent or null |
| Schemas.AcceptedLabs | ml-service/app/schemas/prediction.py:44-46 | an accepted record holds each lab result as given, or None exactly when its key is absent or null |
| Schemas.AcceptedHistory | ml-service/app/schemas/prediction.py:49-56 | an accepted record holds each present admissions count, stay, flag and smoking status as given, and the defaults 0 / None / false / "NEVER" for absent keys |
| Schemas.NonNumberRejected | ml-service/app/schemas/prediction.py:36-50 | a non-number at a numeric field is rejected with a type error at that field; null is such a non-number at the non-optional `age` and `previous_admissions` |
| Schemas.OptionalAt | ml-service/app/schemas/prediction.py:39-50 | no contract of its own; an optional field absent or null for None, the number for Some |
| Schemas.DefaultedAt | ml-service/app/schemas/prediction.py:49-56 | no contract of its own; a defaulted field present with the value, or absent when the value is the default |
| Schemas.Denotes | ml-service/app/schemas/prediction.py:27-56 | no contract of its own; the objects denoting a record: `age` present, optional fields per OptionalAt, defaulted fields per DefaultedAt, any other keys ignored |
| Schemas.ValidateFeaturesIff | ml-service/app/schemas/prediction.py:27-56 | for every object and record: validation accepts the object as the record if and only if the record is valid and the object denotes it |
| Schemas.DenotedAccepted | ml-service/app/schemas/prediction.py:27-56 | any object denoting a valid record, whatever optional or defaulted keys it omits and whatever other keys it holds, is accepted as that record |
| Schemas.DenotedMeasurements | ml-service/app/schemas/prediction.py:36-46 | age and the six optional measurements of such an object raise no error and read back as the record's values |
| Schemas.DenotedHistory | ml-service/app/schemas/prediction.py:49-56 | the admissions count, stay, flags and smoking status of such an object raise no error and read back as the record's values |
| Schemas.OptionalRealDenoted | ml-service/app/schemas/prediction.py:39-46 | an in-range optional float held as OptionalAt says raises no error and reads back as itself |
| Schemas.OptionalIntDenoted | ml-service/app/schemas/prediction.py:40-50 | an in-range optional integer held as OptionalAt says raises no error and reads back as itself |
| Schemas.ExampleFeaturesAccepted | ml-service/app/schemas/prediction.py:91-103 | the documented example features, without `hba1c` and `last_stay_duration`, are accepted with those two None and the other fields as given |
| Schemas.DefaultsApplied | ml-service/app/schemas/prediction.py:36-56 | an object holding only an in-range age is accepted, with every other field at its declared default |
| Schemas.Nested | ml-service/app/schemas/prediction.py:85 | no contract of its own; prefixes the features object's error locations with `features`; its property is in Schemas.FeatureErrorsReported |
| Schemas.FeatureErrorsReported | ml-service/app/schemas/prediction.py:85 | a request whose features object fails validation is rejected, and each of that object's errors is reported with `features` prepended to its location |
| Schemas.ValidateRequest | ml-service/app/schemas/prediction.py:78-85 | a request is accepted exactly when its type names an enumeration member and its features object validates; the accepted request holds that member and that record |
| Schemas.CreateResponse | ml-service/app/schemas/prediction.py:108-121 | a response is accepted exactly when 0 ≤ risk score ≤ 1, then unchanged; otherwise the one error is at `risk_score`, naming the crossed bound |
| ModelService.FeatureNamesDistinct | ml-service/app/services/model_service.py:55-71 | the layout has 15 slots with pairwise distinct names |
| ModelService.FeatureIndex | ml-service/app/services/model_service.py:55-71 | the slot returned for a name holds that name |
| ModelService.FeatureIndexOf | ml-service/app/services/model_service.py:55-71 | the slot of the name at slot i is i |
| ModelService.LayoutMatchesSchema | ml-service/app/services/model_service.py:55-82 | the nine numeric schema fields are the first nine slots, in order; the defaults cover exactly the seven optional measurements |
| ModelService.DefaultsWithinSchema | ml-service/app/services/model_service.py:74-82 | every imputed default lies within its field's schema range |
| ModelService.FeatureDict | ml-service/app/services/model_service.py:200-217 | no contract of its own; the keyed feature values; its properties are in PreprocessLayout, Encoding and PreprocessWithinSchema |
| ModelService.PreprocessFeatures | ml-service/app/services/model_service.py:200-220 | the input vector has one entry per layout slot |
| ModelService.PreprocessLayout | ml-service/app/services/model_service.py:200-220 | the vector, slot by slot: age and admissions copied, each optional measurement passed through or replaced by its default, flags as 0/1, smoking one-hot |
| ModelService.MeasurementSlots | ml-service/app/services/model_service.py:200-209 | the first nine slots are the measurements, with defaults for absent ones |
| ModelService.EncodedSlots | ml-service/app/services/model_service.py:210-216 | the last six slots are the three flags and the three smoking indicators |
| ModelService.Encoding | ml-service/app/services/model_service.py:210-216 | flags map to 1/0; the smoking slots are 0 or 1 and sum to 1 exactly for NEVER, FORMER or CURRENT, otherwise to 0 |
| ModelService.PreprocessWithinSchema | ml-service/app/services/model_service.py:200-220 | a valid record yields a vector whose every slot lies within its schema range ([0, 1] for encoded slots) |
| ModelService.SlotWithinSchema | ml-service/app/services/model_service.py:200-220 | one slot of a valid record's vector lies within its range |
| ModelService.MeasurementWithinSchema | ml-service/app/services/model_service.py:200-209 | a measurement slot of a valid record's vector lies within its field's range |
| ModelService.CalculateRiskLevel | ml-service/app/services/model_service.py:274-279 | LOW exactly below 0.3, MEDIUM exactly on [0.3, 0.7), HIGH exactly from 0.7 on, for every real |
| ModelService.RiskLevelMonotone | ml-service/app/services/model_service.py:274-279 | a higher score never gets a lower band |
| ModelService.Abs | ml-service/app/services/model_service.py:296 | the magnitude is non-negative and equals the value or its negation |
| ModelService.RawScores | ml-service/app/services/model_service.py:293-296 | one non-negative raw importance per slot |
| ModelService.RawScore | ml-service/app/services/model_service.py:295-296 | a slot's raw importance is non-negative |
| ModelService.Normalize | ml-service/app/services/model_service.py:298-304 | normalisation keeps one value per slot |
| ModelService.NormalizeShares | ml-service/app/services/model_service.py:298-304 | normalised scores are non-negative; for a positive total they are at most 1 and sum to 1 |
| ModelService.NormalizedSumIsOne | ml-service/app/services/model_service.py:299-304 | for a positive total, the normalised scores sum to 1 |
| ModelService.NormalizedAtMostOne | ml-service/app/services/model_service.py:299-304 | for a positive total, non-negative scores normalise to at most 1 |
| ModelService.SumNonNegative | ml-service/app/services/model_service.py:299 | the total of non-negative scores is non-negative |
| ModelService.ElementAtMostSum | ml-service/app/services/model_service.py:299 | each non-negative score is at most the total |
| ModelService.SumScaled | ml-service/app/services/model_service.py:299-304 | dividing every score by the total divides the sum by the total |
| ModelService.Before | ml-service/app/services/model_service.py:307-309 | no contract of its own; the order of the stable `sorted(..., reverse=True)`: a larger score first, equal scores in layout order; its properties are in SortSorted and RankingUnique |
| ModelService.Insert | ml-service/app/services/model_service.py:307-309 | insertion adds exactly the one slot index |
| ModelService.SortIndices | ml-service/app/services/model_service.py:307-309 | sorting permutes the slot indices |
| ModelService.InsertSorted | ml-service/app/services/model_service.py:307-309 | inserting a new slot into a ranked list keeps it ranked |
| ModelService.SortSorted | ml-service/app/services/model_service.py:307-309 | sorting distinct slots ranks them: larger score first, ties in layout order |
| ModelService.Entries | ml-service/app/services/model_service.py:307-309 | one (name, score) item per chosen slot |
| ModelService.RankingPermutation | ml-service/app/services/model_service.py:307-309 | the ranking holds each of the 15 slots and is sorted |
| ModelService.RankingUnique | ml-service/app/services/model_service.py:307-309 | any sorted ordering of the 15 slots is the ranking, so the stable descending order does not depend on the algorithm |
| ModelService.SortedUnique | ml-service/app/services/model_service.py:307-309 | two ranked lists with the same elements are equal |
| ModelService.FeatureImportance | ml-service/app/services/model_service.py:289-311 | no contract of its own; the importance map: empty without coefficients, otherwise the first ten slots of the ranking of the normalised scores; its properties are in FeatureImportanceShape and RankingUnique |
| ModelService.FeatureImportanceShape | ml-service/app/services/model_service.py:289-311 | empty exactly without coefficients, otherwise 10 items: distinct features with their normalised scores, non-negative and non-increasing, ties in layout order, and every kept feature ranked ahead of every dropped one (a dropped feature tying a kept one comes later in the layout) |
| ModelService.ImportanceRanked | ml-service/app/services/model_service.py:307-309 | the ten kept items are distinct features with their scores, non-increasing, ties in layout order |
| ModelService.ImportanceCut | ml-service/app/services/model_service.py:308 | every kept feature ranks ahead of every dropped one |
| ModelService.EntriesNamed | ml-service/app/services/model_service.py:307-309 | each item names its slot and carries that slot's score |
| ModelService.SortedEntries | ml-service/app/services/model_service.py:307-309 | items of a ranked slot list have distinct names, non-increasing values, and ties in layout order |
| ModelService.TopDominates | ml-service/app/services/model_service.py:308 | cutting the ranking after n items keeps each kept slot ranked ahead of each dropped one: no higher score is dropped, and a dropped tie comes later in the layout |
| ModelService.ZipCoefficients | ml-service/app/services/model_service.py:184-187 | no contract of its own; the names paired with a coefficient row, up to the shorter; its properties are in ZipCoefficientsContents and ZipCoefficientsEmpty |
| ModelService.ZipCoefficientsContents | ml-service/app/services/model_service.py:184-187 | the coefficient map has one key per paired name, holding that name's coefficient |
| ModelService.ZipCoefficientsEmpty | ml-service/app/services/model_service.py:182-187 | the coefficient map is empty exactly when the coefficient row is |
| ModelService.ModelService.constructor | ml-service/app/services/model_service.py:84-88 | no model, no coefficients, version "1.0.0", algorithm "logistic_regression" |
| ModelService.ModelService.LoadModel | ml-service/app/services/model_service.py:99-106 | the loaded pipeline is installed; coefficients are taken from a fitted classifier step, else kept |
| ModelService.ModelService.ExtractCoefficients | ml-service/app/services/model_service.py:180-187 | a fitted classifier's first row, paired with the layout names, replaces the coefficients; nothing else changes |
| ModelService.ModelService.CalculateFeatureImportance | ml-service/app/services/model_service.py:281-311 | the loop's result is the specified importance map: empty exactly without coefficients, at most 10 items |
| ModelService.ModelService.Predict | ml-service/app/services/model_service.py:224-263 | fails with "model not loaded" exactly when no model is loaded. Otherwise it returns the model's probability on the preprocessed vector, that score's band, the importance map of that vector and the elapsed time |

## Left out

- Training and `_create_default_model`. The offline training script
  (`ml-service/training/train_model.py`) fits a pipeline on `dataset.csv`,
  with a seeded train/test split. `_create_default_model`
  (`model_service.py:111-178`) fits one on seeded synthetic data. Both write
  the pipeline with joblib. The model treats a loaded pipeline as given, so
  neither is part of this model.
- The file-existence test and the joblib read in `load_model`. `LoadModel`
  receives the pipeline that was read. The `named_steps` test always holds for a
  pipeline, so it is not modelled.
- `predict_proba`, the scaler and the sigmoid. They are floating-point numerics
  and appear only as the opaque `predictProba` parameter of
  `ModelService.ModelService.Predict`.
- Timing. `time.time()` is left out. The elapsed milliseconds are a parameter of
  `Predict`.
- ModelService.NormalizeShares and ModelService.FeatureImportanceShape work on
  exact reals, without `round(v / total, 4)`. Two consequences of rounding are
  therefore not modelled: rounded shares need not sum to exactly 1, and scores
  that differ slightly can tie after rounding. All measurements and scores are
  exact reals, not IEEE doubles.
- `get_model_info` and the FastAPI application: routers, the health endpoint,
  start-up, and the rounding of the risk score in the router. The package
  `__init__` re-exports and the `Config` example bodies in the schemas carry no
  behaviour.
- Schemas.ValidateFeatures does not model Pydantic's lax coercions. Numeric
  strings and booleans are not accepted as numbers, and `"true"` is not accepted
  as a boolean. Every non-number at a numeric field is reported as a wrong type.
  Integral floats such as `55.0` are accepted for `int` fields, as in Pydantic.
- A classifier coefficient array with no row: the source then fails with an
  index error. It is not modelled, because the classifier's first row is taken
  as given.
