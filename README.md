# Fridge settings pipeline — Dafny model

This project models the decision logic of a small web app that photographs the inside of a
refrigerated cooler, detects the food in it, recommends cooler settings for that inventory and
pushes the settings to the cooler. Four pipeline steps are modelled: upload, detect, recommend
and apply. The dashboard's pure classifiers and the step indicator are modelled too.

- `Recommendations` (`cooler_recommendations.dfy`) is the recommendation engine, written as pure
  functions. It reads three category flags, starts from the baseline 3 °C / 65 % / 60 % with an
  8-hour defrost cycle, and clamps each adjustment step. It builds the reasoning list by filtering
  a five-entry array. The two `Math.random()` draws are parameters in [0, 1); the `Math.floor`
  is kept.
- `Application` (`settings_application.dfy`) is the apply panel, written as a class. `handleApply`
  awaits the transmission, so it is split into `BeginApply` (makes the call) and `FinishApply`
  (receives the outcome: resolved true, resolved false, or threw). The button-enabling
  conditions are predicates, and each action requires its button to be enabled.
- `Pipeline` (`index_page.dfy`) is the page controller, written as a class. It holds the step
  and the artefacts, has guarded forward transitions and a full reset.
- `Detection` (`food_detection.dfy`) holds the pure list edits and a class for the review
  panel's state.
- `Upload` (`image_upload.dfy`) holds the pure list computations (filter, append, truncate,
  remove) and a class for the upload panel's state. The class keeps a ghost history of actions
  that ties its list to `Replay`.
- `Predict` (`cool_sight_predict.dfy`) models the dashboard classifiers; CSS classes become tags.
- `Steps` (`step_indicator.dfy`) models the per-step status, marker, label highlight and connectors.
- `ArrayOps` (`array_ops.dfy`) models the JavaScript array and string operations used above:
  `filter` by index, `slice(0, n)` and `includes`.

The model follows what the code computes where its comments say otherwise, and proves the
tighter facts:
- The comments beside the two scores (cooler-recommendations.tsx:81-82) give ranges up to 100.
  The code floors `random * 15` and `random * 10`, so the model proves [85, 99] and [90, 99]
  and that 100 is never produced.
- The clamps only ever raise humidity and airflow from their baselines, so the model proves
  the ranges 65–85 and 60–80 rather than a bound that starts at 0.
- The upload panel receives an `onContinue` property that it never declares or calls.
  `HandleContinueToDetection` is modelled as an operator action at the upload step, as the
  page writes it.

## Model

| member | source | states |
|---|---|---|
| `Recommendations.GenerateRecommendations` | src/components/cooler-recommendations.tsx:37-85 | for every inventory: temperature 1–3, humidity 65–85, airflow 60–80, defrost 8; standard mode iff perishables present, eco otherwise; reasoning has 2 + (number of true flags) entries and ends with the energy-mode and defrost sentences; efficiency in [85,99], preservation in [90,99] |
| `Recommendations.ReasoningLayout` | src/components/cooler-recommendations.tsx:70-76 | the reasoning is the perishable, vegetable and fruit sentences for the true flags, in that order, then the energy-mode and defrost sentences; length 2 + number of true flags |
| `Recommendations.CompactLayout` | src/components/cooler-recommendations.tsx:70-76 | `filter(Boolean)` over the five-entry array keeps exactly the present entries in order |
| `Recommendations.EnergyEfficiency` | src/components/cooler-recommendations.tsx:81 | `floor(draw*15)+85` lies in [85,99] for every draw in [0,1) |
| `Recommendations.FoodPreservation` | src/components/cooler-recommendations.tsx:82 | `floor(draw*10)+90` lies in [90,99] for every draw in [0,1) |
| `Recommendations.ScoreRangesAreExact` | src/components/cooler-recommendations.tsx:81-82 | both ends 85/99 and 90/99 are reached; 100 is reached by neither score |
| `Recommendations.BaselineWithoutBoostingCategories` | src/components/cooler-recommendations.tsx:41-68 | an inventory of only beverages and other items (including the empty one) gets 3, 65, 60, 8, eco |
| `Recommendations.PerishablesDecideTemperatureAndMode` | src/components/cooler-recommendations.tsx:49-67 | temperature is 2 iff meat or dairy is present; then humidity ≥ 70 and mode standard; otherwise temperature 3 and eco; performance is never chosen |
| `Recommendations.VegetablesRaiseHumidity` | src/components/cooler-recommendations.tsx:51-56 | humidity is 80/75 with vegetables (with/without perishables) and 70/65 without |
| `Recommendations.FruitsRaiseAirflow` | src/components/cooler-recommendations.tsx:58-60 | airflow is 75 with fruits and 60 without |
| `Recommendations.FlagsFollowCategories` | src/components/cooler-recommendations.tsx:41-43 | each flag holds iff its categories occur in the set of categories present |
| `Recommendations.RecommendationDependsOnlyOnCategories` | src/components/cooler-recommendations.tsx:41-84 | two inventories with the same set of categories get the same recommendation for the same draws, whatever their order, duplicates, names, quantities or confidences |
| `Recommendations.DairyScenario` | src/components/cooler-recommendations.tsx:41-68 | one dairy item gives 2, 70, 60, 8, standard |
| `Recommendations.FruitScenario` | src/components/cooler-recommendations.tsx:41-68 | one fruit item gives 3, 65, 75, 8, eco |
| `Recommendations.MixedScenario` | src/components/cooler-recommendations.tsx:41-68 | dairy, vegetables and fruits give 2, 80, 75, 8, standard |
| `Application.SettingsApplication.constructor` | src/components/settings-application.tsx:35-38 | a fresh panel is idle, not applying, not applied, and has made no transmission |
| `Application.SettingsApplication.BeginApply` | src/components/settings-application.tsx:40-45 | allowed only from the enabled apply or retry button; sets applying and connecting; appends exactly one transmission with the recommendation's settings; applied unchanged |
| `Application.SettingsApplication.FinishApply` | src/components/settings-application.tsx:47-60 | a true result gives success and applied; false or a throw gives error and leaves applied unchanged; applying is cleared in every case |
| `Application.SettingsApplication.Reject` | src/components/settings-application.tsx:63-66 | available only while not applied and not applying; invokes onComplete once and makes no transmission |
| `Application.SettingsApplication.Complete` | src/components/settings-application.tsx:233-238 | available only when applied; invokes onComplete once |
| `Application.AtMostOneInFlight` | src/components/settings-application.tsx:196-198 | at most one transmission is unsettled, and one is unsettled exactly while connecting |
| `Application.SuccessIsFinal` | src/components/settings-application.tsx:184-238 | in success the panel is applied and not applying; apply, retry and reject are all unavailable and complete is offered, so the status never changes again |
| `Pipeline.Index.constructor` | src/pages/Index.tsx:36-39 | the page starts at step 0 with no images, no items and no recommendation |
| `Pipeline.Index.HandleImagesUploaded` | src/pages/Index.tsx:41-43 | replaces the image list wholesale and leaves the step unchanged |
| `Pipeline.Index.HandleContinueToDetection` | src/pages/Index.tsx:45-49 | moves to step 1 iff at least one image is uploaded; otherwise nothing changes |
| `Pipeline.Index.HandleDetectionComplete` | src/pages/Index.tsx:51-54 | stores exactly the given items (empty allowed) and moves to step 2 |
| `Pipeline.Index.HandleRecommendationAccept` | src/pages/Index.tsx:56-59 | stores the recommendation and moves to step 3 |
| `Pipeline.Index.Reset` | src/pages/Index.tsx:61-67 | back to step 0 with images, items and recommendation cleared |
| `Pipeline.Index.HandleComplete` | src/pages/Index.tsx:61-67 | the completion callback performs the full reset |
| `Pipeline.Index.StartOver` | src/pages/Index.tsx:125-133 | offered only past step 0; performs the same full reset as completion |
| `Pipeline.ApplyStepHasRecommendation` | src/pages/Index.tsx:92-98 | under the page invariant (step in 0..3, one per label), step 3 always has a recommendation and at least one uploaded image |
| `Detection.MockDetectFood` | src/components/food-detection.tsx:22-35 | the mock classifier returns six items, all with confidence in [0,100] |
| `Detection.MergeIdempotent` | src/components/food-detection.tsx:77 | applying an update twice equals applying it once; an empty update changes nothing |
| `Detection.UpdatedItems` | src/components/food-detection.tsx:76-78 | an in-range index replaces exactly that position with the merged item; an out-of-range index leaves the list unchanged |
| `Detection.UpdateKeepsConfidences` | src/components/food-detection.tsx:75-79 | an edit keeps the length and keeps every confidence in [0,100] |
| `Detection.RemoveDeletesOneItem` | src/components/food-detection.tsx:83-85 | an in-range index gives the items before it followed by those after it, length n−1; an out-of-range index changes nothing; confidences stay in range |
| `Detection.ManualItem` | src/components/food-detection.tsx:90-93 | a manual entry carries the form's name, quantity and category, with confidence 100, inside [0,100] |
| `Detection.FoodDetection.constructor` | src/components/food-detection.tsx:50-54 | a fresh panel is not detecting, has not started detection, has no items and no editor open, and shows an empty, hidden form |
| `Detection.FoodDetection.BeginDetection` | src/components/food-detection.tsx:56-63 | detection starts once, only when there is at least one image, and sets the detecting flag |
| `Detection.FoodDetection.FinishDetection` | src/components/food-detection.tsx:64-72 | a resolved classifier replaces the list; a throw leaves it unchanged; detecting is false afterwards |
| `Detection.FoodDetection.UpdateItem` | src/components/food-detection.tsx:75-81 | the list becomes the edited list and the editor is always closed |
| `Detection.FoodDetection.RemoveItem` | src/components/food-detection.tsx:83-86 | the list becomes the list without that position |
| `Detection.FoodDetection.EditDraft` | src/components/food-detection.tsx:189-211 | the form's change handlers overwrite the draft |
| `Detection.FoodDetection.AddNewItem` | src/components/food-detection.tsx:88-99 | with name and quantity both non-empty, appends exactly one item with confidence 100 and resets and hides the form; otherwise nothing changes |
| `Detection.FoodDetection.HandleContinue` | src/components/food-detection.tsx:101-103 | hands over the current list unchanged, empty or not, with all confidences in [0,100] |
| `Upload.ImagesOnly` | src/components/image-upload.tsx:21-23 | keeps only files whose type starts with "image/", and keeps every such file |
| `Upload.ImagesOnlyAppend` | src/components/image-upload.tsx:21-23 | filtering a concatenation is the concatenation of the filtered parts, so the filter keeps order and multiplicity |
| `Upload.ImagesOnlySingleton` | src/components/image-upload.tsx:21-23 | a single file is kept iff its type starts with "image/" |
| `Upload.ImagesOnlyKeepsOrder` | src/components/image-upload.tsx:21-23 | two images dropped in a row are both kept, in the order dropped |
| `Upload.DropAppendsLeadingImages` | src/components/image-upload.tsx:21-27 | a drop keeps the old list and appends the first dropped images, in drop order, as many as fit below maxImages |
| `Upload.AppendKeepsOldList` | src/components/image-upload.tsx:25-35 | when the old list is within the bound, the new list starts with it and has length min(old + added, max) |
| `Upload.DropAddsOnlyImages` | src/components/image-upload.tsx:21-25 | every entry a drop adds is an image |
| `Upload.RemoveDeletesOnePosition` | src/components/image-upload.tsx:44 | deletes exactly position i and keeps order; an out-of-range index changes nothing |
| `Upload.StepKeepsBound` | src/components/image-upload.tsx:25-44 | each of drop, file input and remove keeps the list within maxImages |
| `Upload.ReplayWithinBound` | src/components/image-upload.tsx:13-46 | starting empty, any history of drops, file inputs and removals stays within maxImages |
| `Upload.DefaultPanelHoldsAtMostThree` | src/components/image-upload.tsx:12-13 | with the default bound the page uses, the panel never holds more than three files |
| `Upload.ImageUpload.constructor` | src/components/image-upload.tsx:12-13 | a fresh panel has no images and has reported nothing |
| `Upload.ImageUpload.HandleDrop` | src/components/image-upload.tsx:16-30 | the list becomes the old list plus the dropped images, truncated; the same list is reported to onImagesChange |
| `Upload.ImageUpload.HandleFileInput` | src/components/image-upload.tsx:32-40 | the list becomes the old list plus every chosen file, truncated; the same list is reported |
| `Upload.ImageUpload.RemoveImage` | src/components/image-upload.tsx:42-49 | the list loses that position; the same list is reported |
| `ArrayOps.WithoutIndexIsSplice` | src/components/food-detection.tsx:84 | filtering out one index equals splicing that position out; an out-of-range index changes nothing |
| `ArrayOps.Take` | src/components/image-upload.tsx:25 | `slice(0, n)` is a prefix of length min(len, n) |
| `ArrayOps.IncludesIffOccurs` | src/pages/CoolSightPredict.tsx:309 | the left-to-right `includes` scan is true iff the text occurs at some position |
| `Predict.HealthBands` | src/pages/CoolSightPredict.tsx:91-95 | emerald iff score ≥ 80, yellow iff 60–79, red iff < 60 |
| `Predict.EfficiencyLabelVersusColor` | src/pages/CoolSightPredict.tsx:357-358 | Optimal above 80, Good above 60, else Poor; agrees with the colour except at 80 (emerald but Good) and 60 (yellow but Poor) |
| `Predict.StatusVariantFallback` | src/pages/CoolSightPredict.tsx:98-106 | each known status has its variant; any other status gets the "good" variant |
| `Predict.StatusLabel` | src/pages/CoolSightPredict.tsx:107 | the label has the status's length, its first character upper-cased and the rest unchanged |
| `Predict.StatusLabelExamples` | src/pages/CoolSightPredict.tsx:107 | "warning" shows as "Warning", "good" as "Good", and the empty status as "" |
| `Predict.AlertsLabel` | src/pages/CoolSightPredict.tsx:368 | "2 Active" iff the status is "warning", else "None" |
| `Predict.UrgentIffContainsMarker` | src/pages/CoolSightPredict.tsx:309-314 | a recommendation is highlighted iff "URGENT" occurs in its text |
| `Predict.UrgentExamples` | src/pages/CoolSightPredict.tsx:309-314 | the seeded "URGENT: …" recommendation is highlighted; a text shorter than the marker is not |
| `Steps.MarkerOf` | src/components/ui/step-indicator.tsx:25-29 | a check mark iff the step is completed, otherwise the number i+1 |
| `Steps.LabelHighlightedIffNotPending` | src/components/ui/step-indicator.tsx:33 | the label is highlighted iff i ≤ currentStep, that is iff the step is not pending |
| `Steps.ConnectorLitIffCompleted` | src/components/ui/step-indicator.tsx:42 | connector i is lit iff step i is completed |
| `Steps.Statuses` | src/components/ui/step-indicator.tsx:18-22 | step i is completed, current or pending as i is below, at or above currentStep |
| `Steps.Connectors` | src/components/ui/step-indicator.tsx:38 | a connector follows step i iff i < steps − 1 |
| `Steps.StatusCounts` | src/components/ui/step-indicator.tsx:12-22 | min(currentStep, n) steps are completed, one is current when currentStep < n, and the rest are pending |
| `Steps.ExactlyOneCurrent` | src/components/ui/step-indicator.tsx:18-22 | when 0 ≤ currentStep < n, exactly one step is current and exactly currentStep are completed |
| `Steps.ConnectorCount` | src/components/ui/step-indicator.tsx:38 | a bar of n ≥ 1 steps draws n − 1 connectors |

## Left out

- Simulated latency: the `setTimeout` delays are left out; each call completes at once.
- Randomness: the transmission outcome is a parameter of `FinishApply`. The score draws are
  real parameters in [0, 1).
- Savings: the `estimatedSavings` string is left out. It needs float formatting (`toFixed`).
- Async re-entry: React effect timing and overlapping runs are left out. Examples are a second
  detection racing the first, or a transmission settling after the page was reset (the apply
  panel is unmounted then). The app is single-threaded, and apply is split into begin and finish.
- Component wiring: callbacks between components (`onImagesChange`, `onDetectionComplete`,
  `onRecommendationAccept`, `onComplete`) are not composed. Each class records or returns what
  it hands over, and the page's handlers take it as a parameter. The effect that starts
  detection when images arrive is `BeginDetection`, which runs at most once per panel.
- Presentation: JSX, icons, toasts, the chart, logos and `getCategoryColor` are left out. CSS
  class strings become tags.
- Browser objects: a `File` is a record of `name` and MIME type. `URL.createObjectURL` and
  `dataTransfer` are left out.
- Dashboard data: the mock telemetry uses floats and is left out. So is the `handleCoolerCommand`
  logging stub and the `selectedCooler` lookup.
- View-only flags: the drag-over flag, the edit toggle and the add-form show and cancel toggles
  are left out.
- `Upload.ImageUpload.constructor`: `maxImages` is a natural number. A negative `slice` end is
  not modelled; the page uses the default, `DefaultMaxImages` (3).
- `Predict.StatusLabel`: upper-casing covers ASCII letters only. Unicode case mapping, where one
  character can become several, is not modelled.
- `Predict.HealthBands`: scores are integers; the dashboard's data uses integer scores.
- `Predict.StatusVariantFallback`: the badge lookup is on a plain object, so a status naming an
  inherited member ("constructor", "toString", "__proto__" and the like) finds that member
  instead of falling back to "good". Inherited property names are not modelled; the
  dashboard's data only holds "excellent", "good" and "warning".
- `Detection.FoodDetection.UpdateItem`: requires a confidence carried by the update to be in
  [0, 100]. The panel's editors only pass a name or a quantity.
- `Detection.FoodDetection.FinishDetection`: requires the classifier's items to have
  confidences in [0, 100], as the classifier contract states.
