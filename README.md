# SafeBeat AI: session, history, report and ensemble logic in Dafny

SafeBeat AI is a cardiovascular risk assessment tool. A browser client collects
a patient record and sends it to a prediction service. The service takes a
majority vote of three classifiers and returns an assessment with its top risk
drivers. The client keeps a bounded history of past assessments in local
storage and can print a report. An offline script aligns two heart-disease data
sets before training.

This project models the parts of that system with behaviour that can be stated
and proved:

- **Patient** (`patient.dfy`) models `frontend/src/App.jsx`. It holds the form
  record with its fourteen text fields, the single-field update done by
  `handleChange`, and the advisory `getValidation` rule.
- **History** (`history.dfy`) models `frontend/src/App.jsx`. It holds the
  history list as values. `Updated` is the filter, prepend and cut-to-ten step
  of `updateHistory`. The lemmas prove the dedup key, the ordering, the bound
  and the eviction.
- **Session** (`session.dfy`) models `frontend/src/App.jsx`. The class
  `Session` holds the client's state cells and the `safebeat_history` storage
  key, which the model calls `stored`. Its methods are `updateHistory`,
  `loadHistoryItem`, `clearHistory`, `handleChange`, `triggerAnalysis`,
  `handleSubmit`, the auto-analysis toggle and the start-up restore. The module
  also holds the base-URL normaliser.
- **Report** (`report.dfy`) models `frontend/src/App.jsx`. It holds the
  `downloadPDF` layout as abstract rows, texts, colours and vertical positions.
  The model-line loop that advances `modelY` is a method with loop invariants.
- **Ensemble** (`ensemble.dfy`) models `app.py`. It holds `predict`: the
  empty-body guard, the feature vector, the majority vote, the consensus and
  verdict strings, `models_detail`, and the drivers. The drivers are built by a
  loop, stably sorted by descending impact and cut to three.
- **Harmonise** (`harmonise.dfy`) models `merge_and_train.py`. It covers the
  column rename, both target remappings, the `cp`/`slope` shift, the `thal`
  code map with its default, and the concatenation of the two data sets.
- **Payload** and **Wrappers** hold the response type that the service and
  the client share, and an `Option` type.

## Model

| member | source | states |
|---|---|---|
| `Patient.Set` | frontend/src/App.jsx:131 | `{...prev, [name]: value}` sets field `name` to `value`. Every other field keeps its value. |
| `Patient.SetOwnValue` | frontend/src/App.jsx:131 | Writing a field's own value back leaves the record unchanged. |
| `Patient.SetTwice` | frontend/src/App.jsx:131 | Of two writes to one field, the later one wins and the earlier one leaves no trace. |
| `Patient.FieldsDetermineRecord` | frontend/src/App.jsx:46-50 | Two records that agree on every field are equal. So record equality is the `JSON.stringify` comparison of records with a fixed key order. |
| `Patient.GetValidation` | frontend/src/App.jsx:220-225 | "Range: 80-200" iff the field is `trestbps` and the number is below 80 or above 200. "Critical: >400" iff the field is `chol` and the number is above 400. Otherwise null, including every other field and NaN. |
| `Patient.ValidationBoundsInclusive` | frontend/src/App.jsx:222-223 | 80, 200 and 400 give no warning. 250 for blood pressure and 450 for cholesterol do. |
| `History.MakeEntry` | frontend/src/App.jsx:109 | An entry's name and age come from `data.patientName` and `data.age`. It holds exactly the given input and response. |
| `History.Without` | frontend/src/App.jsx:111 | An entry survives the filter iff it was in the list and does not match both the name and the record. |
| `History.Updated` | frontend/src/App.jsx:111-112 | The new list has between 1 and 10 entries and the new entry is first. No later entry shares its key. |
| `History.WithoutAppend` | frontend/src/App.jsx:111 | The filter commutes with concatenation, so survivors keep their relative order. |
| `History.WithoutNoMatch` | frontend/src/App.jsx:111 | With no matching entry, the filter returns the list unchanged. |
| `History.UpdatedMembers` | frontend/src/App.jsx:111-112 | Every entry after recording is the new entry or an unchanged, non-matching entry of the old list. |
| `History.DifferentKeyKept` | frontend/src/App.jsx:111-112 | An entry with the same name but other data, or another name, stays in a list that is not full. |
| `History.EleventhEvictsOldest` | frontend/src/App.jsx:112 | In a full list with no matching key, recording yields the new entry followed by the first nine old entries. The oldest is dropped. |
| `History.ReinsertIdentical` | frontend/src/App.jsx:111-112 | Recording the same name and input twice gives the same list as recording only the second time. One entry remains, and it holds the newer result. |
| `History.UpdatedKeepsKeysUnique` | frontend/src/App.jsx:111-112 | If no two entries shared a key before recording, none do after. |
| `History.WithoutKeysUnique` | frontend/src/App.jsx:111 | Filtering keeps keys unique. |
| `History.SelfNamedKeyIsData` | frontend/src/App.jsx:109-111 | For entries built from their own record, the name half of the key is redundant: the key matches iff the records are equal. |
| `Session.ApiBaseUrl` | frontend/src/App.jsx:15-18 | An unset or empty value gives `http://localhost:5001`. A value starting with "http" is kept as it is. Any other value gets "https://" in front. The result always starts with "http". |
| `Session.ApiBaseUrlIdempotent` | frontend/src/App.jsx:15-18 | Normalising a normalised URL changes nothing. |
| `Session.HostNamedHttpKeepsNoScheme` | frontend/src/App.jsx:16 | `httpbin.org` passes the prefix test and is left with no scheme. |
| `Session.ApiBaseUrlWithScheme` | frontend/src/App.jsx:15-18 | The corrected normaliser: the result always starts with "http://" or "https://". A value that already has a scheme is kept. |
| `Session.Session.constructor` | frontend/src/App.jsx:52-67 | The initial state is the initial form, no result, not loading, no error and auto-analysis off. The history is the stored list when the key is present, and empty otherwise. Storage and memory agree. |
| `Session.Session.UpdateHistory` | frontend/src/App.jsx:108-116 | The history becomes `Updated(old history, entry)`, within capacity, with the given input and response first. The storage key holds the new list. Unique keys are preserved. Nothing else changes. |
| `Session.Session.LoadHistoryItem` | frontend/src/App.jsx:118-121 | The form becomes exactly `item.data` and the result exactly `item.result`. History and storage are untouched. |
| `Session.Session.ClearHistory` | frontend/src/App.jsx:123-126 | The list is empty and the storage key is removed. Nothing else changes. |
| `Session.Session.ToggleAutoAnalyze` | frontend/src/App.jsx:290 | Auto-analysis is flipped. |
| `Session.Session.HandleChange` | frontend/src/App.jsx:128-135 | The form is the old form with exactly one field replaced. The new record is sent for analysis iff auto-analysis is on and the field is not `patientName`. |
| `Session.Session.TriggerAnalysis` | frontend/src/App.jsx:89-95 | On success, the response is shown and recorded with the analysed record. On failure, result, history and storage are unchanged. Form, loading and error are never touched. |
| `Session.Session.HandleSubmit` | frontend/src/App.jsx:97-106 | On success, the result is the response, the error is cleared, and the current form is recorded with the response. On failure, the error is "Server Connection Failed." and result, history and storage are unchanged. Loading is false afterwards either way. |
| `Session.Reload` | frontend/src/App.jsx:65-67 | A reload restores exactly the list held in memory and returns to the initial form with no result. Storage is unchanged. |
| `Session.ClearThenReload` | frontend/src/App.jsx:65-67 | Clearing the history and then reloading gives a session with an empty list, no stored key, the initial form and no result. |
| `Report.FactorLabel` | frontend/src/App.jsx:194 | A mapped factor name shows its friendly label. An unmapped name shows the name itself, which is the `|| f.name` fallback. |
| `Report.FactorDesc` | frontend/src/App.jsx:194 | The explanation is present iff the name is mapped, and a present explanation is never empty. |
| `Report.FactorLabelFallback` | frontend/src/App.jsx:20-34 | A factor shows its friendly label iff its name is mapped, and the raw name otherwise. Its explanation is present iff the name is mapped. |
| `Report.Status` | frontend/src/App.jsx:186 | "RISK" iff the model's prediction is 1, and "HEALTHY" otherwise. |
| `Report.ModelName` | frontend/src/App.jsx:185 | The display name has no leading or trailing white space, which is the effect of `trim`. Its content is given by `ModelNameRoundTrip`, `TwoWordName`, `ThreeWordName`, `TwoWordKeyNames` and `XGBoostName`. |
| `Report.ModelNameRoundTrip` | frontend/src/App.jsx:185 | For a key without white space, removing the spaces from its display name gives the key back. |
| `Report.TwoWordName` | frontend/src/App.jsx:185 | Two capitalised words run together are shown separated by one space. |
| `Report.TwoWordKeyNames` | frontend/src/App.jsx:185 | "RandomForest" is shown as "Random Forest" and "LogisticRegression" as "Logistic Regression". |
| `Report.SpaceCapitalsThree` | frontend/src/App.jsx:185 | When each of three words gains one leading space from the regex, the words run together gain exactly those three spaces. |
| `Report.ThreeWordName` | frontend/src/App.jsx:185 | Three capitalised words run together are shown with one space between each pair. |
| `Report.XGBoostName` | frontend/src/App.jsx:185 | "XGBoost" is shown as "X G Boost", one letter of the acronym at a time. |
| `Report.DrawModelLines` | frontend/src/App.jsx:183-189 | One line per model in entry order, starting at the given position and stepping by 4. The cursor ends 4 per model lower. |
| `Report.ModelLinesFrom` | frontend/src/App.jsx:183-189 | There is one line per model. The i-th line sits 4·i below the first one and describes the i-th model. `DrawModelLines` is the loop that computes it. |
| `Report.PatientRows` | frontend/src/App.jsx:155-166 | Section I has five rows of three cells, labelled Patient Name, Age, Resting BP, Cholesterol and Peak Heart Rate. The values are the form's name and age, then blood pressure + ` mm Hg`, cholesterol + ` mg/dl` and heart rate + ` BPM`. The reference ranges are N/A, 1-110, 90-140, 125-200 and 60-200. |
| `Report.ToUpper` | frontend/src/App.jsx:176 | Each lower-case ASCII letter becomes its capital, every other character is kept, and the length is unchanged. No lower-case ASCII letter remains. |
| `Report.Layout` | frontend/src/App.jsx:139-209 | The document holds the form's patient rows, one model line per model, one factor row per top factor, and the file name `SafeBeat_Report_<name>.pdf`. Section II starts 15 below the patient table and the signatures 25 below the factor table. `LayoutCursor` states the positions, `LayoutOutcome` the verdict, summary and model lines, and `LayoutFactors` the factor rows. |
| `Report.DownloadPdf` | frontend/src/App.jsx:137-210 | There is no document iff there is no result. Otherwise the document is the layout of the current form and the result. |
| `Report.LayoutCursor` | frontend/src/App.jsx:169-203 | Section II starts 15 below the patient table. Model lines start 40 below that and step by 4. The Section III title sits at +55 and its table at +60, whatever the number of models. The signatures sit 25 below the factor table. |
| `Report.ModelLinesClearOfSectionThree` | frontend/src/App.jsx:183-193 | With up to four models, every model line stays above the Section III title. A fifth model's line falls below it. |
| `Report.LayoutOutcome` | frontend/src/App.jsx:174-187 | The verdict is drawn in the alert colour iff the prediction is 1, and in the confirmation colour otherwise. The verdict text is upper-cased and sits 22 below Section II's top. The summary line `Ensemble Confidence: <c> \| Consensus: <k>` sits 32 below that top. Each model line names the model, its confidence, RISK/HEALTHY and its accuracy. |
| `Report.LayoutFactors` | frontend/src/App.jsx:194 | There is one factor row per top factor, with the same impact. The label is the friendly label, or the raw name when the name is unmapped. The context cell is the friendly description, or none when the name is unmapped. |
| `Ensemble.InputVector` | app.py:34 | The vector follows feature order, with 0 for a missing feature. It fails iff some present value cannot be converted. |
| `Ensemble.MajorityVote` | app.py:43-45 | The final prediction is 1 iff at least two of the three votes are 1. |
| `Ensemble.Consensus` | app.py:66 | The consensus is one digit followed by "/3 Models Calculated Risk". |
| `Ensemble.ConsensusRoundTrip` | app.py:66 | Reading the digit back gives the risk count. |
| `Ensemble.ConsensusAgreesWithVote` | app.py:44-66 | The consensus reports at least two risk votes iff the prediction is 1. |
| `Ensemble.Verdict` | app.py:67 | "High Cardiovascular Risk" iff the final prediction is 1, and "Healthy Cardiovascular Profile" iff it is 0. |
| `Ensemble.Unranked` | app.py:57-60 | One driver per feature, in feature order, carrying that feature's impact. |
| `Ensemble.Insert` | app.py:62 | One step of the stable descending sort: the element is added and nothing else changes. |
| `Ensemble.SortByImpact` | app.py:62 | The sorted list has as many drivers as the input. |
| `Ensemble.InsertSorted` | app.py:62 | Insertion keeps the list sorted by non-increasing impact. |
| `Ensemble.InsertPermutes` | app.py:62 | Insertion is a permutation. |
| `Ensemble.InsertKeepsGroups` | app.py:62 | Insertion keeps drivers of equal impact in their original order. |
| `Ensemble.SortByImpactCorrect` | app.py:62 | The sort is non-increasing by impact and a permutation. It is stable: for every impact value, the drivers with that impact keep their input order. |
| `Ensemble.TopFactorsDominate` | app.py:74 | In a sorted list, every driver among the first k weighs at least as much as every later one. |
| `Ensemble.RankDrivers` | app.py:56-62 | Built by the append loop and then sorted: one driver per feature, sorted, a permutation of the unsorted drivers, and stable. |
| `Ensemble.ModelsDetail` | app.py:69-73 | Exactly RandomForest, LogisticRegression and XGBoost, each with its own vote and the accuracies 88.7%, 89.6% and 88.7%. |
| `Ensemble.Predict` | app.py:27-80 | Status 400 with "No data" iff the parsed body is JSON `null` or `{}`. Status 500 iff a present value cannot be converted or the importances vector is short. Otherwise the reply carries the majority vote, the consensus, the verdict, the confidence with "%", the model details, the first min(3, n) sorted drivers and the disclaimer. |
| `Ensemble.TopFactorsProperties` | app.py:57-74 | There is one driver per feature before the cut. The kept top factors are sorted, and each weighs at least as much as every dropped driver. |
| `Harmonise.RenameColumn` | merge_and_train.py:14-30 | Each of the 14 new names becomes its short name. Any other name is untouched. |
| `Harmonise.Rename` | merge_and_train.py:30 | Only the labels change, each through the mapping. The rows are untouched. |
| `Harmonise.RenameInjective` | merge_and_train.py:14-29 | Two different new names never map to the same short name. |
| `Harmonise.NewTarget` | merge_and_train.py:35 | Presence becomes 1 and Absence becomes 0. Anything else becomes missing. |
| `Harmonise.OldTarget` | merge_and_train.py:36 | 0 becomes 1 and 1 becomes 0. Anything else becomes missing. |
| `Harmonise.OldTargetInvolution` | merge_and_train.py:36 | The flip is its own inverse on {0, 1}. |
| `Harmonise.Shift` | merge_and_train.py:39-42 | A number decreases by 1 and a missing value stays missing. Text makes the subtraction fail. |
| `Harmonise.ShiftCodes` | merge_and_train.py:38-42 | Codes 1..top become 0..top-1: `cp` 1-4 becomes 0-3 and `slope` 1-3 becomes 0-2. |
| `Harmonise.Thal` | merge_and_train.py:47-48 | 6 becomes 1, 3 becomes 2 and 7 becomes 3. Any other value, including a missing one, becomes 2. |
| `Harmonise.ThalInOldRange` | merge_and_train.py:44-48 | Every translated `thal` value lies in 1..3. |
| `Harmonise.UpdateColumn` | merge_and_train.py:35-48 | A column assignment fails iff the label is absent or the rule raises on one of that column's cells. Otherwise only that column's cells change, each through the rule. |
| `Harmonise.HarmoniseNew` | merge_and_train.py:30-48 | The pipeline fails when the renamed table has no `target` or no `thal` column. A successful run keeps the renamed labels and the row count. `HarmoniseNewSucceeds` and `HarmoniseNewCells` give the full account. |
| `Harmonise.HarmoniseOld` | merge_and_train.py:36 | The old data set's step succeeds iff it has a `target` column. Only that column changes, each cell flipped by `OldTarget`. |
| `Harmonise.HarmoniseNewSucceeds` | merge_and_train.py:30-48 | The new data set's pipeline succeeds iff the renamed table has `target`, `cp`, `slope` and `thal`, and every cell converts. |
| `Harmonise.HarmoniseNewCells` | merge_and_train.py:30-48 | After the pipeline, the labels are the renamed ones and the row count is unchanged. Every cell is its column's rule applied to the original cell. |
| `Harmonise.Concat` | merge_and_train.py:51 | The combined labels are the old labels followed by the new data set's other labels. The row count is the sum of the two. `ConcatKeepsCells` states the cells. |
| `Harmonise.ConcatKeepsCells` | merge_and_train.py:51 | Old rows come first with their cells unchanged. Each new row follows with every cell under the same label. A cell under a label that its row's data set lacks is missing. |
| `Harmonise.ConcatSameColumns` | merge_and_train.py:51 | With identical labels, combining simply appends the rows. |
| `Harmonise.Combine` | merge_and_train.py:35-51 | Combining succeeds iff the old data set has a `target` column and the new data set's pipeline succeeds. The result has as many rows as the two data sets together, and its labels start with the old labels. |
| `Harmonise.CombineAppends` | merge_and_train.py:35-51 | When the renamed new labels equal the old ones, the result is the aligned old rows followed by the aligned new rows. |

## Findings

| source | as written | input that shows it | evidently intended | confidence | as-written member | corrected member |
|---|---|---|---|---|---|---|
| frontend/src/App.jsx:16 | The scheme test is `startsWith('http')`, so any host name that begins with those four letters is taken as a full URL. | `VITE_API_URL = "httpbin.org"` stays "httpbin.org", with no scheme. | Prepend "https://" unless the value already starts with "http://" or "https://". | medium, not executed | `Session.HostNamedHttpKeepsNoScheme` (about `Session.ApiBaseUrl`) | `Session.ApiBaseUrlWithScheme` |

## Left out

- Network transport is not modelled. This covers `fetch`, `axios`, the 5-second health poll and its status text, and Flask routing and CORS. A request's outcome is the parameter `Response` (success with a body, or failure).
- Flask's `jsonify` sorts object keys, so `models_detail` arrives at the client in alphabetical order. The client model takes the model entries in whatever order they arrive.
- Out-of-order completion of overlapping automatic analyses is not modelled. Neither is the call to `triggerAnalysis` from inside a state updater. Both are concurrency and scheduling. `HandleChange` returns the record it sends, and `TriggerAnalysis` models the completion of that request.
- The intermediate `loading = true` state of `handleSubmit` during the request is not modelled. Only the state after the request completes is.
- Clock readings are opaque parameters: `Date.now()` ids, `toLocaleTimeString` dates, the report id and the issue time. The code does not make ids strictly increasing, and the model claims nothing about their order.
- JSON serialisation of the history is treated as a faithful encoding, so the storage key holds the list itself. A malformed stored text makes `JSON.parse` throw at start-up, uncaught. That case is not modelled, and neither is a stored empty string, which is present but falsy.
- The theme key, the theme toggle, chart data, rendering, CSS classes and the tutorial are not modelled. They are UI only.
- Report drawing is not modelled: jsPDF and autoTable internals, fonts, font sizes, rectangles, header texts, horizontal positions and the file save. The end positions of the two generated tables are inputs. Factor impacts stay numbers, and their `%` text rendering is not modelled.
- Report.ToUpper: upper-cases ASCII letters only. JavaScript's `toUpperCase` also maps other Unicode letters, but the service's verdicts are ASCII.
- Patient.GetValidation: takes the result of `parseFloat` as a parameter, a number or NaN. The parser itself is not modelled, and `Infinity` (which would warn) cannot be represented.
- Ensemble.InputVector: takes each body value after Python's `float()`, as a number or as "raises". Non-object JSON bodies and a wrong content type are not modelled.
- Ensemble.Predict: its `None` stands for a JSON `null` body. On Flask 2.1 and later, a missing body or a non-JSON content type makes `request.json` raise, and the catch-all handler turns that into a 500. That path is not modelled.
- Ensemble.Predict: floating-point values are inputs. The averaged confidence and the per-model probabilities arrive as rendered text. The importances arrive as impacts already multiplied by 100 and rounded to tenths, counted in tenths. The sort and the ties use these rounded values, as in the source.
- The classifiers' `predict`, `predict_proba` and `feature_importances_` are given as inputs: three 0/1 votes and the impacts. The `joblib` load is not modelled, nor is the module-level failure when the ensemble file is missing.
- Harmonise.UpdateColumn: applies a rule to every column with the given label. pandas' behaviour with duplicate labels, dtype coercion and boolean cells is not modelled.
- Harmonise.Concat: requires distinct column labels in each data set. pandas' alignment of duplicate labels is not modelled.
- Harmonise.Combine: requires distinct column labels in each data set, for the same reason as `Concat`.
- Reading the two CSV files, the training and evaluation half of the data script (lines 54-82), and the other training and exploration scripts are not modelled. They are file I/O and library training with no logic of their own to state.
- Section I and the file name read the current form, which can differ from the input that produced the result (`PatientRows` reads the form).
