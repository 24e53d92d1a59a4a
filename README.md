# Buddhi Vetta prediction page, modelled in Dafny

Buddhi Vetta's home page lets a user enter a vehicle's sensor readings, posts them to a
predictive-maintenance inference service and renders the returned risk report. This
project models the page's logic in three parts:

- **Payload normaliser** (`normalizer.dfy`, with the JavaScript `||` defaulting in
  `coerce.dfy`): how the form record becomes the request body. Empty names become
  `"Unknown"`. Numbers are `parseFloat(text) || 0`. The machine type gives the two flags
  `Type_L` and `Type_M`.
- **Request state machine** (`page.dfy`): the class `PredictionPage` with the page's four
  state variables `formData`, `isLoading`, `predictionResult` and `error`. Its methods are
  the input handler, the synchronous start of `handlePredict` and the part of
  `handlePredict` after its two awaits (`fetch` and `response.json()`). `View` says what the page renders from the state.
- **Response classifier** (`classifier.dfy`): how the response body becomes the result
  panel. The panel has a verdict, the overall risk in percent and either one card per
  failure-mode entry or a single "None Detected" placeholder. The report text is passed
  through as it is.

The network call is not modelled. `BeginPredict` returns the payload that would be sent,
and `Complete` takes how the request settled (`Ok(body)`, `NotOk` or `Threw(message)`) as
a parameter. `parseFloat` is a parameter of type `string -> Option<real>`, where `None`
stands for NaN. JavaScript's `undefined`/`null` is `None` throughout.

In these places the model follows what the code does, which a reader may not expect:

- Only the number `1` counts as a failure flag (`=== 1`). A boolean `true` renders
  "System Healthy" (`Classifier.BooleanFlagIsHealthy`).
- A fetch or body-parsing error keeps its own message. Only a non-ok status gives
  "Prediction request failed". The generic "An error occurred during prediction" appears
  only when the thrown message is empty.
- An ok response whose body is JSON `null` leaves both the result and the error unset.
  `Complete` states that exactly one of them is set in every other case.
- An overflowing number such as "1e999" parses to `Infinity`, which is truthy, so it
  reaches the payload object. `JSON.stringify` (line 56) then sends it as `null`. A
  number input cannot hold the literal text "Infinity". The model's reals cannot express
  either value (see "Left out").

## Model

| member | source | states |
|---|---|---|
| `Coerce.OrText` | frontend/src/app/Home/Page.tsx:38-39 | defaulting a string: a non-empty string is kept; an empty or absent one gives the fallback; a non-empty fallback makes the result non-empty |
| `Coerce.OrZero` | frontend/src/app/Home/Page.tsx:40-46 | defaulting a number to 0: a nonzero number is kept, NaN/undefined gives 0, and the result is 0 or the number itself |
| `Coerce.OrZeroIsValueOrZero` | frontend/src/app/Home/Page.tsx:40-46 | defaulting to 0 equals "the number if any, else 0"; it is 0 exactly for a failed parse or a parsed 0 |
| `Normalizer.Lookup` | frontend/src/app/Home/Page.tsx:38-48 | reading `formData.<id>`: the stored text when the record has the key, and undefined (None) when it lacks it |
| `Normalizer.ParsedOrZero` | frontend/src/app/Home/Page.tsx:40 | a numeric field is the parsed value when parsing succeeds, otherwise 0; an absent field counts as a failed parse |
| `Normalizer.Normalize` | frontend/src/app/Home/Page.tsx:37-49 | total function; each name is kept when non-empty and is "Unknown" otherwise (so never empty); each of the seven numbers follows the parse-or-0 rule; `typeL` iff the machine type is "L", `typeM` iff it is "M", never both |
| `Normalizer.ExactlyOneMachineType` | frontend/src/app/Home/Page.tsx:47-48 | for the select's two options "L" and "M" (lines 186-187), exactly one flag is true |
| `Normalizer.NormalizeReadsOnlyFields` | frontend/src/app/Home/Page.tsx:37-49 | two forms that agree on the ten fields give the same payload |
| `Normalizer.EditOutsideFieldsKeepsPayload` | frontend/src/app/Home/Page.tsx:37-49 | storing a value under an id that is not one of the ten fields leaves the payload unchanged |
| `Normalizer.EditVehicleNameChangesOnlyName` | frontend/src/app/Home/Page.tsx:23-39 | after editing the vehicle-name input to `v`, the payload differs from before only in its name, which is `v` or "Unknown" when `v` is empty |
| `Normalizer.InitialFormPayload` | frontend/src/app/Home/Page.tsx:6-17 | the untouched form (all empty, machine type "M") gives "Unknown" names, zero readings, `Type_L` false and `Type_M` true |
| `Classifier.FailureOf` | frontend/src/app/Home/Page.tsx:249 | `prediction?.failure`: absent when there is no `prediction` object, else that object's `failure` |
| `Classifier.ProbabilityOf` | frontend/src/app/Home/Page.tsx:271 | `prediction?.failure_probability`: absent when there is no `prediction` object, else that object's probability |
| `Classifier.TypesOf` | frontend/src/app/Home/Page.tsx:275 | `prediction?.failure_types`: absent when there is no `prediction` object, else that object's entries |
| `Classifier.FailureFlagged` | frontend/src/app/Home/Page.tsx:258 | `failure === 1`: true exactly when a `prediction` object holds the number 1; booleans, strings and absence are not flagged |
| `Classifier.Label` | frontend/src/app/Home/Page.tsx:280-283 | TWF, HDF, PWF and OSF map to "Tool Wear", "Heat Dissipation", "Power" and "Overstrain"; any other code is shown unchanged |
| `Classifier.LabelKeepsExactlyUnknownCodes` | frontend/src/app/Home/Page.tsx:280-283 | a code is shown as itself exactly when it is not one of the four known codes |
| `Classifier.Cards` | frontend/src/app/Home/Page.tsx:276-289 | one card per entry, in entry order; each card keeps the code, has that code's label, and shows probability times 100 |
| `Classifier.Classify` | frontend/src/app/Home/Page.tsx:249-307 | "Maintenance Required" iff `failure === 1`; overall risk is the probability times 100, or 0 when it is missing; mode cards iff flagged with a present, non-empty `failure_types`, one per entry with its label; otherwise the placeholder; report copied verbatim |
| `Classifier.ModeAreaNeverEmpty` | frontend/src/app/Home/Page.tsx:275-295 | the failure-mode area always shows at least one card; the single placeholder appears exactly when the machine is not flagged or `failure_types` is missing or empty |
| `Classifier.CardCodesAreKeys` | frontend/src/app/Home/Page.tsx:276-277 | the set of codes on the cards equals the set of keys of `failure_types` |
| `Classifier.DistinctKeysGiveDistinctCards` | frontend/src/app/Home/Page.tsx:276-277 | when the `failure_types` keys are distinct, as in any parsed JSON object, no two cards share a code (the React `key`) |
| `Classifier.HealthyIgnoresFailureTypes` | frontend/src/app/Home/Page.tsx:275 | without `failure === 1` the panel does not depend on `failure_types` and shows the placeholder |
| `Classifier.RiskIsPercentage` | frontend/src/app/Home/Page.tsx:271 | a probability in [0, 1], or a missing one, gives an overall risk in [0, 100] |
| `Classifier.BooleanFlagIsHealthy` | frontend/src/app/Home/Page.tsx:258 | the strict comparison classifies `failure: true` as "System Healthy" |
| `Classifier.MissingPredictionIsHealthy` | frontend/src/app/Home/Page.tsx:249-295 | a body without `prediction` renders healthy, 0 risk and the placeholder, and keeps its report |
| `Classifier.FlaggedWithTwoModes` | frontend/src/app/Home/Page.tsx:275-289 | failure 1, probability 0.87 and modes TWF 0.6, HDF 0.3 give "Maintenance Required", 87% and the cards "Tool Wear" 60% and "Heat Dissipation" 30% |
| `Classifier.FlaggedWithoutModes` | frontend/src/app/Home/Page.tsx:290-295 | a flagged machine with an empty `failure_types` shows the one placeholder, not zero cards |
| `Page.CaughtMessage` | frontend/src/app/Home/Page.tsx:66 | the recorded message is never empty: the thrown message if it is non-empty, else "An error occurred during prediction" |
| `Page.FailureMessage` | frontend/src/app/Home/Page.tsx:59-66 | a non-ok status records "Prediction request failed"; a thrown error records its own message, with the generic fallback |
| `Page.PredictionPage.constructor` | frontend/src/app/Home/Page.tsx:6-21 | starts with the initial form, not loading, with no result and no error, satisfying the page invariant |
| `Page.PredictionPage.InputChange` | frontend/src/app/Home/Page.tsx:23-29 | field `id` holds the value, every other field and the rest of the state is unchanged, and the invariant is kept |
| `Page.PredictionPage.BeginPredict` | frontend/src/app/Home/Page.tsx:31-49 | requires not loading (the button is disabled at line 230); sets loading, clears the error and the result, leaves the form alone, and returns the normalised payload, which has exactly one machine-type flag |
| `Page.PredictionPage.Complete` | frontend/src/app/Home/Page.tsx:59-69 | loading ends in every case; ok stores the body; non-ok records "Prediction request failed"; a throw records its message or the generic one; exactly one of result and error is set unless the ok body was `null` |
| `Page.PredictionPage.View` | frontend/src/app/Home/Page.tsx:230-246 | the button is enabled iff not loading and reads "Processing..." while loading; the banner and the classified panel follow the state; under the invariant they never show together, and neither shows while loading |
| `Page.FailedSubmission` | frontend/src/app/Home/Page.tsx:23-69 | editing the name and the machine type, submitting and getting a non-ok status yields a payload with those edits and a screen with the request-failed banner, no panel and an enabled button |

## Left out

- The `fetch` call, the endpoint URL, request headers and `response.json()` (lines 51-63) are network I/O. Their result is the `Outcome` parameter of `Complete`.
- The internals of `parseFloat` are left abstract. Infinity and negative zero are not representable, because the parser's result is an optional real. So the model does not show an overflowing reading reaching the wire as `null`.
- Percentages are kept as the real `p * 100`. The `toFixed(1)` rounding and string formatting (lines 271, 286) are floating-point formatting.
- A response body that is a JSON scalar or array is not modelled. A body is either `null` or an object. Inside it, `failure_probability` is a number or absent. `failure_types` is an object or absent, and each of its values is a number: a `null` value, which the page shows as 0.0%, is not expressible. A `failure_types` that is not an object is not modelled. `report` is a string or absent.
- React's batching of state updates and re-rendering is left out. Each setter is applied in program order. Two clicks landing before the button re-renders as disabled are excluded by `BeginPredict`'s `!isLoading` requirement.
- The source has no stale-response guard, no timeout and no cancellation, so the model has none either.
- Page layout, styling, navigation links, the CSV upload box and the footer (lines 72-334 outside the cited expressions) are presentational.
- `backend/vehiclereport.py` is not part of this model. It is an HTTP client over an external language-model API, built from environment lookup, prompt templating and an exception fallback.
