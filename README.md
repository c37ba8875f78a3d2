# Rental price form and prediction request, modelled in Dafny

This project models the input layer of a San Francisco rental price
predictor. A React page holds a form record. It checks area, bedrooms
and bathrooms, then posts the record as JSON to `POST /predict`. A
FastAPI backend checks the body against a pydantic schema (`RentInput`).
It then maps the categorical labels to the model's categories and aligns
the one-hot encoded row to the columns the regression was trained on.

Modules, one per source file:

- `RentRequest` (`rent_request.dfy`): the record shared by the form state, the JSON body and `RentInput`, and the four label lists.
- `Form` (`form.dfy`): `frontend/src/pages/Index.tsx`. The class `PredictForm` has the component's four state fields `formData`, `isLoading`, `prediction` and `error`. Its methods are the handlers. Pure functions give the record update, the check chain and how a request outcome is read.
- `Schema` (`schema.dfy`): `backend/schema/input_pydantic_model.py`, as per-field constraints and the set of failing fields.
- `Mappings` (`mappings.dfy`): `backend/config/mappings.py`, the four dictionaries as Dafny maps.
- `Predict` (`predict.dfy`): `backend/model/predict.py`, building `input_dict` and the column-alignment loop.
- `Agreement` (`agreement.dfy`): facts that join files, such as the form's checks against the schema's bounds, or the map domains against the schema's literals.
- `Wrappers` (`wrappers.dfy`): `Option` and `Result`.

Modelling choices:

- JavaScript numbers and Python floats are reals. "Integral" means `x == x.Floor as real`.
- The fetch is not performed. `handlePredict` is split at its `await`. `StartPredict` validates, resets the state and returns the body it would post. `FinishPredict(outcome)` takes the outcome as a parameter: a response with a status and a body, or a rejected fetch. `HandlePredict` runs both.
- The disabled submit button (`Index.tsx:288`) becomes the precondition `!isLoading`.
- `prediction` holds a JavaScript value, so the model can express that `predicted_rent || prediction` may be `undefined`.
- `pd.get_dummies` is a function parameter of `Predict.PrepareFeatures`.
- The schema follows pydantic v2, which rejects a float with a fractional part in an `int` field (pydantic v1 would truncate it). So `sqft` and `beds` must be integral.

The code is inconsistent with itself in two places; the model follows each file as written:

- The district selector offers only the integers 1 to 10 (`Index.tsx:201-210`). The schema, however, declares `hood_district: float` in [1, 10] (`input_pydantic_model.py:14`). A fractional district therefore passes the schema and then misses in `district_map` (`Agreement.HalfDistrictPassesSchemaButHasNoKey`).
- The bathroom message says "at least 0.5", but the check is `bath < 0`, so zero bathrooms pass (`Form.ZeroBathroomsPass`).

## Model

| member | source | states |
|---|---|---|
| `Schema.Violations` | backend/schema/input_pydantic_model.py:4-14 | a field is reported exactly when its declared constraint fails; every failing field is reported, not only the first |
| `Schema.FieldAccepted` | backend/schema/input_pydantic_model.py:5-14 | no contract; the constraint each field declares, pinned down field by field by `SqftConstraint`, `BedsBathConstraints`, `LiteralConstraints` and `DistrictConstraint` |
| `Schema.Accepts` | backend/schema/input_pydantic_model.py:4-14 | no contract; the body parses into `RentInput`, characterised by `AcceptsIffEveryField` |
| `Schema.AcceptsIffEveryField` | backend/schema/input_pydantic_model.py:4-14 | the body parses into `RentInput` iff every field meets its constraint |
| `Schema.SqftConstraint` | backend/schema/input_pydantic_model.py:5 | `sqft` is accepted iff it is integral and at least 100 (100.5 is rejected) |
| `Schema.BedsBathConstraints` | backend/schema/input_pydantic_model.py:6-7 | `beds` is accepted iff integral and at least 0; `bath` iff at least 0, fractions allowed |
| `Schema.LiteralConstraints` | backend/schema/input_pydantic_model.py:9-12 | laundry, pets, housing type and parking each accept exactly their listed literals, of which there are 3, 4, 3 and 4 |
| `Schema.DistrictConstraint` | backend/schema/input_pydantic_model.py:14 | `hood_district` is accepted iff 1 <= d <= 10, bounds included, with no integrality demanded (2.5 passes) |
| `Mappings.LaundryMapContents` | backend/config/mappings.py:2-6 | the domain is the three laundry labels; only "(a) in-unit" maps to "in-unit", and the only images are "in-unit" and "not in-unit" |
| `Mappings.PetMapContents` | backend/config/mappings.py:7-12 | the domain is the four pet labels; "(a) both" and "(b) dogs" map to "allows_dogs", "(c) cats" and "(d) no pets" to "no_dogs" |
| `Mappings.HouseMapContents` | backend/config/mappings.py:13-17 | the domain is the three housing labels; only "(a) single" maps to "single", the others to "multi" |
| `Mappings.DistrictKeys` | backend/config/mappings.py:18-29 | a district is a key iff it is a whole number from 1 to 10 |
| `Mappings.DistrictRegions` | backend/config/mappings.py:18-29 | 2, 3 and 10 are exactly the "southwest" districts, 4, 5 and 6 exactly the "central" ones, and there are six distinct regions |
| `Predict.BuildInputDict` | backend/model/predict.py:13-22 | succeeds iff all four lookups hit; then it copies sqft, beds, bath and parking unchanged and holds the map images of laundry, pets, housing type and district; with the labels found, a failure is the district's `KeyError` |
| `Predict.AlignColumns` | backend/model/predict.py:27-32 | the resulting columns are exactly the training columns in their order; `const` is 1.0, a training column absent from the encoding is 0, a shared column keeps its encoded value, and encoded columns not in training are gone |
| `Predict.PrepareFeatures` | backend/model/predict.py:12-32 | fails with the lookup's `KeyError` exactly when `input_dict` cannot be built; otherwise returns the aligned row of the encoded `input_dict` |
| `Form.WithField` | frontend/src/pages/Index.tsx:38-42 | the updated record has the new value in the named field and every other field unchanged |
| `Form.Admissible` | frontend/src/pages/Index.tsx:156-276 | no contract; what the `onChange` and `onValueChange` handlers can pass, used by `WithFieldKeepsReachable` |
| `Form.Reachable` | frontend/src/pages/Index.tsx:156-276 | no contract; records built only from admissible values, established by `InitialFormReachable` and kept by `WithFieldKeepsReachable` |
| `Form.InitialFormReachable` | frontend/src/pages/Index.tsx:22-31 | the initial record is among those the inputs can produce |
| `Form.WithFieldKeepsReachable` | frontend/src/pages/Index.tsx:156-276 | a value the page's inputs can deliver keeps the record integral where `parseInt` is used, district in 1..10, and labels among the listed options |
| `Form.ValidationMessage` | frontend/src/pages/Index.tsx:46-60 | no contract; `validateForm`'s guard chain, fixed by `ValidationIsFirstFailingCheck` and `ValidationPassesIff` |
| `Form.FirstFailing` | frontend/src/pages/Index.tsx:46-60 | reference reading of a guard chain: no message iff no check fails, else the message of a failing check with none failing before it |
| `Form.ValidationIsFirstFailingCheck` | frontend/src/pages/Index.tsx:46-60 | `validateForm`'s message is that of the first failing check among area, bedrooms, bathrooms, in that order |
| `Form.ValidationPassesIff` | frontend/src/pages/Index.tsx:46-59 | validation passes iff sqft >= 100, beds >= 0 and bath >= 0 |
| `Form.AreaCheckedFirst` | frontend/src/pages/Index.tsx:47-53 | sqft 50 with beds -1 reports only "Area must be at least 100 sqft" |
| `Form.ZeroBathroomsPass` | frontend/src/pages/Index.tsx:55-58 | zero bathrooms pass, although the message speaks of at least 0.5 |
| `Form.InitialFormFailsOnArea` | frontend/src/pages/Index.tsx:22-49 | the untouched form (area 0) fails with the area message |
| `Form.Decimal` | frontend/src/pages/Index.tsx:79 | a status renders as a non-empty string of decimal digits without a leading zero |
| `Form.DecimalRoundTrip` | frontend/src/pages/Index.tsx:79 | reading the rendered digits back gives the status |
| `Form.TryBlock` | frontend/src/pages/Index.tsx:69-83 | no contract; the `try` body's value or thrown error, fixed through `Interpret` by `NonOkStatusMessage`, `OkBodyChoosesField` and `RejectionMessage` |
| `Form.CatchMessage` | frontend/src/pages/Index.tsx:90 | no contract; the `catch` clause's message, fixed by `RejectionMessage` |
| `Form.Interpret` | frontend/src/pages/Index.tsx:69-92 | the attempt fails iff the fetch rejected, the status is not 2xx, or the body could not be read |
| `Form.NonOkStatusMessage` | frontend/src/pages/Index.tsx:78-80 | a non-ok status s ends in the message "Server error: " followed by s (500 gives "Server error: 500") |
| `Form.OkBodyChoosesField` | frontend/src/pages/Index.tsx:82-83 | an ok body yields `predicted_rent` when truthy, otherwise `prediction` |
| `Form.ZeroRentFallsThrough` | frontend/src/pages/Index.tsx:83 | `predicted_rent = 0` is falsy and the fallback field is taken |
| `Form.MissingFieldsGiveUndefined` | frontend/src/pages/Index.tsx:83 | a body with neither field sets `prediction` to `undefined`, which is not `null` |
| `Form.RejectionMessage` | frontend/src/pages/Index.tsx:89-91 | a thrown `Error` reports its message; any other thrown value reports the fixed fallback text |
| `Form.PredictForm.constructor` | frontend/src/pages/Index.tsx:22-35 | initial state: the default record, not loading, no prediction, no error |
| `Form.PredictForm.HandleInputChange` | frontend/src/pages/Index.tsx:38-44 | sets the one field, clears a truthy error, leaves loading and prediction alone |
| `Form.PredictForm.ValidateForm` | frontend/src/pages/Index.tsx:46-60 | returns true iff no check fails; on failure sets the first failing message, on success leaves `error` unchanged |
| `Form.PredictForm.StartPredict` | frontend/src/pages/Index.tsx:62-67 | on a failed check no request is made, and loading and prediction are unchanged; otherwise the posted body is the record, loading is on, and error and prediction are null |
| `Form.PredictForm.FinishPredict` | frontend/src/pages/Index.tsx:69-100 | a success sets `prediction` and a failure sets `error`, never both; loading is off afterwards |
| `Form.PredictForm.HandlePredict` | frontend/src/pages/Index.tsx:62-101 | the whole handler: no request on a failed check; otherwise either the prediction with no error, or the error with prediction null; loading ends off |
| `Agreement.NumericChecksAgree` | backend/schema/input_pydantic_model.py:5-7 | for integral area and bedrooms (as `parseInt` gives), the form's three checks (Index.tsx:47-58) pass iff the schema accepts sqft, beds and bath |
| `Agreement.FractionalAreaPassesOnlyTheForm` | backend/schema/input_pydantic_model.py:5 | without integrality the two differ: area 150.5 passes the form and fails the schema |
| `Agreement.FormReportsFirstSchemaReportsAll` | frontend/src/pages/Index.tsx:46-60 | with sqft 50 and beds -1 the form reports the area only, the schema both fields |
| `Agreement.MapDomainsAreSchemaLiterals` | backend/config/mappings.py:2-17 | the laundry, pet and house map domains equal the schema's literal sets (input_pydantic_model.py:9-11) |
| `Agreement.AcceptedLookupIffIntegralDistrict` | backend/model/predict.py:17-21 | on a schema-valid record the lookups succeed iff the district is integral, and otherwise fail on the district key |
| `Agreement.HalfDistrictPassesSchemaButHasNoKey` | backend/schema/input_pydantic_model.py:14 | district 2.5 passes the schema and then raises a `KeyError` in `district_map` |
| `Agreement.SubmittedFormReachesModel` | frontend/src/pages/Index.tsx:62-76 | every record the form can post after passing its checks is accepted by the schema and gets through every lookup |

## Left out

- All JSX markup, the card, select and button components, and the toast notifications: these are presentation.
- `fetch`, `response.json()` and the backend base URL from the build environment. The request's result is a parameter (`Form.Outcome`). A body that could not be read is one error message.
- `Math.round(prediction).toLocaleString()`: floating-point rounding and locale formatting.
- `parseInt` and `parseFloat` with their `|| 0` fallbacks. `Form.Admissible` states what they can deliver instead.
- Form.PredictForm.HandleInputChange: requires the value's kind (number or string) to match the field. The TypeScript signature `string | number` does not enforce this, but every caller on the page respects it.
- IEEE doubles: NaN, infinities and rounding are not modelled. Numbers are exact reals.
- React's batching and re-rendering, and stale closures: the handlers are modelled as sequential steps on one object.
- `backend/app.py`: routing, CORS, logging and the mapping of exceptions to HTTP status codes. A `KeyError` from a missing district would end in its generic 500 handler.
- Loading the pickled model, `model.predict`, `np.exp` and `round(..., 2)`: foreign calls and floating point.
- The internals of `pd.get_dummies` and `.astype(float)`: the encoded row is a given map from column names to numbers.
