# Differential-privacy dashboard: a verified model of its core

This project models the logic of a differential-privacy analytics dashboard. The dashboard has two halves:

- **Backend** (FastAPI): it lists uploaded SQLite databases, their tables and their columns. It answers COUNT/SUM/AVERAGE queries with a Laplace mechanism over a stubbed aggregate. An ingestion pipeline cleans a CSV, classifies its columns and drops the sensitive ones.
- **Frontend** (React): an analyst builds a query from a dataset's schema and edits filter rows. A workspace page turns that query into a request and charges the dataset's budget locally. A small store holds the role, budget, history and notifications. Helpers format percentages, colours, e-mail addresses and numbers.

Each source file is one Dafny module:

| module | models |
|---|---|
| `DpEngine` | `frontend/src/services/dpEngine.js` |
| `PrivacyService` | `backend/app/services/differential_privacy.py` |
| `QuerySchema` | `backend/app/schemas/query.py` |
| `QueryEndpoint` | the decision logic of `backend/app/endpoints/query.py` |
| `QueryDraft` | filter rows and the composed query, shared by both builders |
| `QueryBuilder` | `frontend/src/components/analyst/QueryBuilder.jsx` |
| `QueryComposer` | `frontend/src/components/analyst/QueryComposer.jsx` |
| `QueryWorkspace` | `frontend/src/pages/QueryWorkspace.jsx` |
| `Store` | `frontend/src/store/useStore.js` |
| `Helpers` | `frontend/src/utils/helpers.js` |
| `DataPipeline` | `backend/app/core/data_p.py` |
| `Meta` | `backend/app/endpoints/meta.py` |

Two support modules hold shared definitions:

- `Common`: Option, Result, and an order-preserving filter.
- `Text`: occurrence search, JavaScript's first-match `replace`, Python's all-matches `replace`, ASCII lowercasing, and the whitespace classes of Python `str.isspace` and the JavaScript regex `\s`.

**How the source's features are modelled.**

- **Pure code** becomes functions, with lemmas that relate them.
- **State changed in place** becomes classes:
  - a filter row, which `updateFilter` mutates through a shallow copy;
  - the filter list;
  - the two builders;
  - the workspace page;
  - the store.
- **Loops** become methods proved against specification functions:
  - the hash loop;
  - the `reduce` that flattens filters;
  - `list_columns`;
  - the column-by-column fill and the schema loop of the pipeline.
- **Randomness, `Math.log`, the clock, the network and the filesystem** become parameters. A backend call that throws is `None`.
- **Numbers** are unbounded reals. JavaScript's 32-bit wrap-around in the hash is written out.

**Where the code departs from a reasonable reading of the design.** The model follows the code in each case.

- **No budget ledger.** No server-side budget ledger exists. The only budget logic is:
  - the backend's comparison of `epsilon` with the request's own `epsilon_budget`;
  - the page's local, clamped decrement.
- **Histograms.** The backend has no histogram operation, so the page sends a histogram as COUNT.
- **Sum sensitivity.** The browser estimates a sum's sensitivity as 100 when no maximum is known. The backend uses 1.0 for every operation.
- **Database ids.** The page derives an id by removing the *first* "db_" and ".db". The backend removes *every* occurrence. The ids differ for a name such as "db_db_1.db". The page's branch that uses `database_name` from the upload reply cannot run against the current backend: the upload response declares no such field. So today an upload always takes the fallback that re-lists the databases.
- **The query endpoint.** It can never succeed as written (see Findings). Every exception, its own 400s included, comes back as a *returned* 500 object.

## Model

| member | source | states |
|---|---|---|
| DpEngine.CalculateNoise | frontend/src/services/dpEngine.js:9-11 | the scale times epsilon is the sensitivity; non-negative for positive epsilon and non-negative sensitivity |
| DpEngine.Sign | frontend/src/services/dpEngine.js:23 | `Math.sign` is -1, 0 or 1, agrees in sign with its argument, and is 0 exactly at 0 |
| DpEngine.LaplaceSample | frontend/src/services/dpEngine.js:21-23 | the inverse-CDF sample: a zero draw gives 0; it is linear in the scale (`SampleIsLinearInScale`) |
| DpEngine.SampleIsLinearInScale | frontend/src/services/dpEngine.js:21-23 | the sample is linear in the scale, draw for draw |
| DpEngine.AddLaplaceNoise | frontend/src/services/dpEngine.js:20-25 | the noisy value minus the true value is the inverse-CDF Laplace sample at scale sensitivity/epsilon for the given draw |
| DpEngine.ZeroDrawIsExact | frontend/src/services/dpEngine.js:20-25 | a draw of 0 returns the true value exactly, whatever `ln` is |
| DpEngine.NoiseIsAntisymmetric | frontend/src/services/dpEngine.js:21-24 | mirrored draws give opposite noise around the true value |
| DpEngine.NoiseIsLinearInSensitivity | frontend/src/services/dpEngine.js:21-24 | scaling the sensitivity by k scales the noise by k, draw for draw |
| DpEngine.AccuracyBoundIsScaleTimesFactor | frontend/src/services/dpEngine.js:34-37 | the accuracy bound is the noise scale times ln(2/(1-confidence)) |
| DpEngine.CalculateAccuracyBound | frontend/src/services/dpEngine.js:34-37 | the half-width of the confidence interval; its properties are the four AccuracyBound lemmas |
| DpEngine.AccuracyBoundLinearInSensitivity | frontend/src/services/dpEngine.js:34-37 | the bound is linear in the sensitivity |
| DpEngine.AccuracyBoundInverseInEpsilon | frontend/src/services/dpEngine.js:34-37 | multiplying epsilon by k divides the bound by k |
| DpEngine.AccuracyBoundAtDefaults | frontend/src/services/dpEngine.js:34-37 | at epsilon 0.5 with the default sensitivity and confidence the bound is 2·ln 40 |
| DpEngine.ValidateBudget | frontend/src/services/dpEngine.js:45-61 | insufficient exactly when requested > remaining, carrying both numbers; a sufficient result warns exactly when the leftover is below 0.1 |
| DpEngine.WarningBandIsNarrow | frontend/src/services/dpEngine.js:53-58 | a warning is attached exactly when the leftover lies in [0, 0.1); a rejected query never warns |
| DpEngine.OrHundred | frontend/src/services/dpEngine.js:74-76 | `x \|\| 100`: absent or zero gives 100, any other value is kept; never 0 |
| DpEngine.EstimateSensitivity | frontend/src/services/dpEngine.js:69-82 | count, histogram and unknown kinds give 1; sum gives maxValue or 100; average times (minCount or 100) is (maxValue or 100) |
| DpEngine.SensitivityWithoutStats | frontend/src/services/dpEngine.js:69-82 | with no statistics, sum is 100 and every other kind, average included, is 1 |
| DpEngine.SensitivityIsPositive | frontend/src/services/dpEngine.js:69-82 | non-negative declared statistics give a positive sensitivity for every kind |
| DpEngine.ToInt32 | frontend/src/services/dpEngine.js:110-111 | the result is in [-2^31, 2^31) and congruent to the argument modulo 2^32 |
| DpEngine.ToInt32Congruent | frontend/src/services/dpEngine.js:110-111 | congruent integers have the same 32-bit value |
| DpEngine.JavaHash | frontend/src/services/dpEngine.js:107-112 | the left-to-right hash h := int32(31·h + c) stays in 32-bit range |
| DpEngine.JsStepIsJavaStep | frontend/src/services/dpEngine.js:110-111 | one `(h << 5) - h + c` step followed by `& hash` is one 31·h + c step in 32 bits |
| DpEngine.ToBase36 | frontend/src/services/dpEngine.js:113 | a non-empty upper-case base-36 numeral with no leading zero |
| DpEngine.Base36Digit | frontend/src/services/dpEngine.js:113 | each digit is an upper-case base-36 character that reads back as its value |
| DpEngine.Base36RoundTrip | frontend/src/services/dpEngine.js:113 | reading the numeral back gives the number |
| DpEngine.GenerateVerificationHash | frontend/src/services/dpEngine.js:105-114 | the loop computes the base-36 rendering of the absolute 32-bit string hash, whose value is at most 2^31 |
| DpEngine.EmptyTextHash | frontend/src/services/dpEngine.js:105-114 | the empty text hashes to "0" |
| PrivacyService.SensitivityTableIsUniform | backend/app/services/differential_privacy.py:12-16 | every operation has a sensitivity entry and it is 1.0 |
| PrivacyService.AddLaplaceNoise | backend/app/services/differential_privacy.py:18-39 | a zero epsilon fails with the division error and a negative scale sensitivity/epsilon with numpy's scale error, and nothing else fails; on success the scale is non-negative, noisy minus noise is the true value, and noise·epsilon is sensitivity times the unit draw |
| PrivacyService.TrueResult | backend/app/services/differential_privacy.py:73-88 | every stub aggregate is non-negative |
| PrivacyService.ExecutePrivateQuery | backend/app/services/differential_privacy.py:41-71 | succeeds exactly for a positive epsilon (zero: division error, negative: negative scale); result minus noise is the stub aggregate of the operation, and the noise is scaled by exactly the table's sensitivity |
| PrivacyService.ResultIgnoresColumnTableFilters | backend/app/services/differential_privacy.py:73-88 | the column, table and filters never change the result |
| PrivacyService.AdmittedEpsilonRuns | backend/app/services/differential_privacy.py:90-91 | an epsilon in (0, 10] never reaches the division error |
| PrivacyService.ValidateEpsilon | backend/app/services/differential_privacy.py:90-91 | `0 < epsilon <= 10` (a predicate; `AdmittedEpsilonRuns` and `QueryEndpoint.Admit` state what it guarantees) |
| QuerySchema.OperationValue | backend/app/schemas/query.py:5-8 | every operation has a non-empty wire value |
| QuerySchema.ParseOperation | backend/app/schemas/query.py:5-8 | a parsed operation renders back to its input; parsing fails exactly for strings that are no operation's value |
| QuerySchema.OperationRoundTrip | backend/app/schemas/query.py:5-8 | every operation parses back from its wire value; "HISTOGRAM" is not an operation |
| QuerySchema.FieldErrors | backend/app/schemas/query.py:10-16 | each field error is reported exactly when its field is missing, unparsable or not positive |
| QuerySchema.ParseQuery | backend/app/schemas/query.py:10-16 | succeeds exactly when there is no field error; a success satisfies `epsilon > 0` and a positive budget when present, and carries the body's fields |
| QueryEndpoint.Admit | backend/app/endpoints/query.py:30-41 | admits exactly an epsilon in (0, 10] not above a truthy budget; the range check comes first |
| QueryEndpoint.FirstUnexpected | backend/app/endpoints/query.py:52-59 | none exactly when every keyword names a parameter; otherwise a keyword that names none |
| QueryEndpoint.CallService | backend/app/endpoints/query.py:52-59 | an unexpected keyword always raises the TypeError for the first such keyword |
| QueryEndpoint.HandleQueryAsWritten | backend/app/endpoints/query.py:26-84 | a rejected request comes back as a returned 500 carrying the guard's reason |
| QueryEndpoint.AsWrittenNeverSucceeds | backend/app/endpoints/query.py:52-59 | every request ends in a returned 500; an admitted request with a database name fails on the `db` keyword |
| QueryEndpoint.OutOfRangeEpsilonAsWritten | backend/app/endpoints/query.py:76-84 | epsilon 11 yields a returned 500, not a 400 |
| QueryEndpoint.HandleQuerySpec | backend/app/endpoints/query.py:26-84 | corrected handler: the 400s come in guard order; it succeeds exactly for admitted requests with a database name, and the response echoes the request and carries the stub plus scaled noise |
| QueryEndpoint.HandleQuery | backend/app/endpoints/query.py:26-84 | the corrected handler; its properties are `HandleQuerySpec` |
| QueryEndpoint.Respond | backend/app/endpoints/query.py:64-72 | the response echoes the request's operation, column, table and epsilon with the noisy result and the noise |
| QueryEndpoint.MissingBudgetSkipsComparison | backend/app/endpoints/query.py:37-41 | without a budget only the range check applies |
| QueryEndpoint.ValidBudgetIsTruthy | backend/app/endpoints/query.py:37 | after schema validation a budget is truthy exactly when present |
| QueryDraft.WithField | frontend/src/components/analyst/QueryBuilder.jsx:63-67 | the named field takes the new value and the other two are kept |
| QueryDraft.WithFieldOverwrites | frontend/src/components/analyst/QueryBuilder.jsx:65 | writing a field twice keeps only the second write |
| QueryDraft.FilterRow.constructor | frontend/src/components/analyst/QueryBuilder.jsx:60 | a new row object holds the given contents |
| QueryDraft.FilterRow.Set | frontend/src/components/analyst/QueryBuilder.jsx:65 | the row's contents become its old contents with the field written |
| QueryDraft.RemoveAt | frontend/src/components/analyst/QueryBuilder.jsx:69-71 | the entries before the index are kept and those after it shift down by one; an index with no entry leaves the list unchanged |
| QueryDraft.RemoveAtInverse | frontend/src/components/analyst/QueryBuilder.jsx:69-71 | putting the removed entry back restores the list |
| QueryDraft.FilterList.constructor | frontend/src/components/analyst/QueryBuilder.jsx:8 | the list starts empty |
| QueryDraft.FilterList.Add | frontend/src/components/analyst/QueryBuilder.jsx:59-61 | appends one fresh default row; the old rows are the same objects |
| QueryDraft.FilterList.Update | frontend/src/components/analyst/QueryBuilder.jsx:63-67 | the same row objects remain; the row at the index is changed in place; an index with no row throws and changes nothing |
| QueryDraft.FilterList.Remove | frontend/src/components/analyst/QueryBuilder.jsx:69-71 | the rows and their contents become the old ones without the indexed position |
| QueryDraft.FilterList.Clear | frontend/src/components/analyst/QueryComposer.jsx:184 | no rows remain |
| QueryBuilder.FindColumn | frontend/src/components/analyst/QueryBuilder.jsx:14 | the index of the first column with the name, or -1 when there is none |
| QueryBuilder.GetColumnType | frontend/src/components/analyst/QueryBuilder.jsx:12-16 | a type exactly when there is a schema and its first column of that name has a non-empty type; that type belongs to a column of the name |
| QueryBuilder.IsBinaryColumn | frontend/src/components/analyst/QueryBuilder.jsx:19-29 | binary exactly when the name is non-empty and its lower-case form contains "has", "is", "flag" or "binary", or ends in "_bool" or "_bin" |
| QueryBuilder.DiagnosisLooksBinary | frontend/src/components/analyst/QueryBuilder.jsx:23-24 | "Diagnosis" counts as binary because it contains "is" |
| QueryBuilder.EmptyNameNotBinary | frontend/src/components/analyst/QueryBuilder.jsx:20 | the empty name is not binary |
| QueryBuilder.GetAllowedOperators | frontend/src/components/analyst/QueryBuilder.jsx:32-37 | categorical or binary-named columns allow `=`, `!=`; other numeric columns allow all six; every other column allows `=` |
| QueryBuilder.AllowedOperatorsArePrefix | frontend/src/components/analyst/QueryBuilder.jsx:32-37 | every allowlist is a prefix of length 1, 2 or 6 of the six operators, so `=` is always allowed |
| QueryBuilder.BinaryNameOverridesNumeric | frontend/src/components/analyst/QueryBuilder.jsx:34 | a binary-looking numeric column allows only `=`, `!=` |
| QueryBuilder.GetColumnsForQueryType | frontend/src/components/analyst/QueryBuilder.jsx:49-57 | offered exactly the queryable columns, restricted to numeric or integer ones for average and sum, in schema order |
| QueryBuilder.FilterTwice | frontend/src/components/analyst/QueryBuilder.jsx:49-57 | the two-stage filter of each branch equals the single filter by the offer rule |
| QueryBuilder.OfferedAreQueryable | frontend/src/components/analyst/QueryBuilder.jsx:49-57 | the offered columns are a filter of the queryable columns |
| QueryBuilder.FilterFilter | frontend/src/components/analyst/QueryBuilder.jsx:49 | filtering by queryable first does not change what the offer rule keeps |
| QueryBuilder.Builder.constructor | frontend/src/components/analyst/QueryBuilder.jsx:6-9 | starts at "average" with no column, no filters and epsilon 0.5 |
| QueryBuilder.Builder.SetQueryType | frontend/src/components/analyst/QueryBuilder.jsx:106-108 | a new query type also clears the chosen column |
| QueryBuilder.Builder.SelectColumn | frontend/src/components/analyst/QueryBuilder.jsx:125 | only the chosen column changes |
| QueryBuilder.Builder.SetEpsilon | frontend/src/components/analyst/QueryBuilder.jsx:253 | only epsilon changes |
| QueryBuilder.Builder.HandleExecute | frontend/src/components/analyst/QueryBuilder.jsx:73-83 | nothing is sent exactly when no column is chosen; otherwise the type, column, filter contents and epsilon |
| QueryBuilder.Builder.CanExecute | frontend/src/components/analyst/QueryBuilder.jsx:85 | the button is enabled exactly with a chosen column and epsilon within the remaining budget; `CanExecuteSends` states what that guarantees |
| QueryBuilder.Builder.CanExecuteSends | frontend/src/components/analyst/QueryBuilder.jsx:85 | an enabled button always sends, and a larger budget never disables it |
| QueryComposer.GetColumnsForQueryType | frontend/src/components/analyst/QueryComposer.jsx:12-23 | offered exactly the queryable columns allowed for the type (measures for average/sum, categorical for histogram), in schema order |
| QueryComposer.FilterTwice | frontend/src/components/analyst/QueryComposer.jsx:14-23 | each branch's two-stage filter equals the single filter by the offer rule |
| QueryComposer.AgreesWithBuilderExceptHistogram | frontend/src/components/analyst/QueryComposer.jsx:14-23 | the composer offers what the builder offers, except that a histogram keeps only categorical columns |
| QueryComposer.Composer.constructor | frontend/src/components/analyst/QueryComposer.jsx:7-10 | starts at "count" with no column, no filters and epsilon 0.5 |
| QueryComposer.Composer.SetQueryType | frontend/src/components/analyst/QueryComposer.jsx:93-96 | a new query type also clears the chosen column |
| QueryComposer.Composer.SelectColumn | frontend/src/components/analyst/QueryComposer.jsx:113 | only the chosen column changes |
| QueryComposer.Composer.SetEpsilon | frontend/src/components/analyst/QueryComposer.jsx:200 | only epsilon changes |
| QueryComposer.Composer.HandleExecute | frontend/src/components/analyst/QueryComposer.jsx:39-47 | always sends the type, column (even an empty one), filter contents and epsilon |
| QueryComposer.Composer.CanExecute | frontend/src/components/analyst/QueryComposer.jsx:49 | the button is enabled exactly with a chosen column and epsilon within the remaining budget (it only styles and disables the button; `HandleExecute` itself sends unguarded) |
| QueryWorkspace.MapOperation | frontend/src/pages/QueryWorkspace.jsx:72 | AVERAGE exactly for "average", SUM exactly for "sum", COUNT for everything else |
| QueryWorkspace.HistogramIsSentAsCount | frontend/src/pages/QueryWorkspace.jsx:72 | a histogram is sent and accepted as COUNT |
| QueryWorkspace.CollectedKeys | frontend/src/pages/QueryWorkspace.jsx:75-82 | the payload's keys are exactly the non-empty columns of the rows |
| QueryWorkspace.CollectedLastWins | frontend/src/pages/QueryWorkspace.jsx:76-81 | a column's payload value is the value of its last row |
| QueryWorkspace.Collected | frontend/src/pages/QueryWorkspace.jsx:75-82 | the left-to-right fold of the rows into a map; its properties are `CollectedKeys`, `CollectedLastWins` and `OperatorsAreDropped` |
| QueryWorkspace.Flattened | frontend/src/pages/QueryWorkspace.jsx:75-82 | `null` for no rows, otherwise the collected map |
| QueryWorkspace.OperatorsAreDropped | frontend/src/pages/QueryWorkspace.jsx:74-82 | rows that differ only in operators give the same payload |
| QueryWorkspace.FlattenFilters | frontend/src/pages/QueryWorkspace.jsx:75-82 | the in-place accumulation gives `null` for no rows and otherwise the left-to-right collected map |
| QueryWorkspace.ClampedRemaining | frontend/src/pages/QueryWorkspace.jsx:117 | never negative, at least remaining minus epsilon, and equal to one of the two |
| QueryWorkspace.ClampedRemainingDecreases | frontend/src/pages/QueryWorkspace.jsx:110 | the budget never grows; a fitting epsilon is subtracted exactly, otherwise the budget becomes 0 |
| QueryWorkspace.MapColumns | frontend/src/pages/QueryWorkspace.jsx:41-46 | one queryable column per listed column with its name; "Numeric" exactly for "numeric", else "Categorical" |
| QueryWorkspace.BuildDataset | frontend/src/pages/QueryWorkspace.jsx:37-59 | the first table, the mapped columns (or "data" with no columns when there is no table), and a 5.0 budget |
| QueryWorkspace.Answered | frontend/src/pages/QueryWorkspace.jsx:203-209 | the tables call answered, and the columns call, made only for a truthy first table, answered too (a predicate) |
| QueryWorkspace.ColumnsOf | frontend/src/pages/QueryWorkspace.jsx:206-208 | the columns reply, or no columns when the call was not made |
| QueryWorkspace.UploadedIdMatchesBackend | frontend/src/pages/QueryWorkspace.jsx:217 | for "db_<hash>.db" the page and the backend both derive the hash |
| QueryWorkspace.UploadedIdDivergesFromBackend | frontend/src/pages/QueryWorkspace.jsx:217 | for "db_db_1.db" the page derives "db_1" and the backend "1" |
| QueryWorkspace.UploadedIdOfDoublePrefix | frontend/src/pages/QueryWorkspace.jsx:217 | first-match `replace` removes only the first "db_" |
| QueryWorkspace.DropFirstPrefixOfDoublePrefix | frontend/src/pages/QueryWorkspace.jsx:217 | the first `replace` turns "db_db_1.db" into "db_1.db" |
| QueryWorkspace.DropSuffixOfSingleId | frontend/src/pages/QueryWorkspace.jsx:217 | the second `replace` turns "db_1.db" into "db_1" |
| QueryWorkspace.UploadedId | frontend/src/pages/QueryWorkspace.jsx:217 | the first "db_" and then the first ".db" removed; its properties are the three UploadedId lemmas |
| QueryWorkspace.BackendIdOfDoublePrefix | backend/app/endpoints/meta.py:17 | all-matches `replace` removes every "db_" |
| QueryWorkspace.AdoptedSpec | frontend/src/pages/QueryWorkspace.jsx:228 | the new dataset comes first; no other entry has its database; the other datasets are kept; distinct names stay distinct |
| QueryWorkspace.Adopted | frontend/src/pages/QueryWorkspace.jsx:228 | the new dataset before the old ones of other databases; its properties are `AdoptedSpec` |
| QueryWorkspace.FilterKeepsDistinct | frontend/src/pages/QueryWorkspace.jsx:228 | dropping one database's entries keeps the names distinct |
| QueryWorkspace.ChargedAsWritten | frontend/src/pages/QueryWorkspace.jsx:115-120 | as written, the list becomes just the first dataset with its clamped, charged budget |
| QueryWorkspace.ChargedAsWrittenLosesSelected | frontend/src/pages/QueryWorkspace.jsx:115-120 | with two datasets, the first one is charged and the second vanishes from the list |
| QueryWorkspace.ChargeSelected | frontend/src/pages/QueryWorkspace.jsx:115-120 | corrected update: same length; the selected database's entry is charged and every other entry is kept |
| QueryWorkspace.ChargeSelectedSpec | frontend/src/pages/QueryWorkspace.jsx:115-120 | corrected update: names and their distinctness are kept, no budget grows, and the selected dataset is charged exactly when epsilon fits |
| QueryWorkspace.ChooseTable | frontend/src/pages/QueryWorkspace.jsx:87 | never empty; the dataset's table if truthy, else the selected table if truthy, else the schema's table name if non-empty, else "patients" |
| QueryWorkspace.RequestValidation | frontend/src/pages/QueryWorkspace.jsx:84-92 | the body passes the endpoint's schema exactly when epsilon and the sent budget are positive; an exhausted (0) budget is a field error; an accepted body reads back as itself |
| QueryWorkspace.ResultLabel | frontend/src/pages/QueryWorkspace.jsx:99 | "Count" for COUNT, otherwise a label ending with the column |
| QueryWorkspace.Workspace.constructor | frontend/src/pages/QueryWorkspace.jsx:9-14 | nothing loaded or selected |
| QueryWorkspace.Workspace.Load | frontend/src/pages/QueryWorkspace.jsx:19-68 | a throwing listing or tables call empties the list; a throwing columns call empties it after the selected table was set; an empty listing also clears the selection; otherwise the first database becomes the only, selected dataset |
| QueryWorkspace.Workspace.HandleExecuteQuery | frontend/src/pages/QueryWorkspace.jsx:70-128 | sends nothing without a selection; the request carries the mapped operation, table, payload, database and budget; on an answer the list is charged as written, the result is set and one history entry appended; on failure nothing changes |
| QueryWorkspace.Workspace.Adopt | frontend/src/pages/QueryWorkspace.jsx:227-230 | the list becomes the de-duplicated prepend and the new dataset is selected, keeping names distinct |
| QueryWorkspace.Workspace.HandleUpload | frontend/src/pages/QueryWorkspace.jsx:191-260 | a named upload is adopted with the page's id; otherwise the last listed database is adopted with the listing's id; an empty listing or any throwing listing, tables or columns call changes nothing |
| Store.InitialRole | frontend/src/store/useStore.js:4-9 | a non-empty stored role is used, otherwise "admin" |
| Store.WithoutId | frontend/src/store/useStore.js:44-46 | keeps exactly the notifications of other ids |
| Store.WithoutIdOfConcat | frontend/src/store/useStore.js:45 | removal keeps order: it distributes over concatenation |
| Store.WithoutAbsentId | frontend/src/store/useStore.js:45 | removing an absent id changes nothing |
| Store.SameMillisecondNotifications | frontend/src/store/useStore.js:41-46 | two notifications stamped in the same millisecond are removed together |
| Store.AppStore.constructor | frontend/src/store/useStore.js:11-40 | the initial role, budget 1.2 of 3.0, and empty history, result and notifications |
| Store.AppStore.SetUserRole | frontend/src/store/useStore.js:14-20 | only the role changes |
| Store.AppStore.UpdateBudget | frontend/src/store/useStore.js:24-26 | only `spent` changes, with no check against the total |
| Store.AppStore.AddQuery | frontend/src/store/useStore.js:30-32 | appends to the history and nothing else changes |
| Store.AppStore.ClearQueryHistory | frontend/src/store/useStore.js:33 | empties the history and nothing else changes |
| Store.AppStore.SetCurrentResult | frontend/src/store/useStore.js:37 | only the current result changes |
| Store.AppStore.AddNotification | frontend/src/store/useStore.js:41-43 | appends the notification stamped with the clock value |
| Store.AppStore.RemoveNotification | frontend/src/store/useStore.js:44-46 | the notifications become those of other ids, in order |
| Helpers.BudgetPercentageSpec | frontend/src/utils/helpers.js:18-20 | nothing spent is 100%, everything spent is 0%, spending more never raises the percentage, and overspending is negative |
| Helpers.BudgetPercentage | frontend/src/utils/helpers.js:18-20 | the remaining share of the total in percent; its properties are `BudgetPercentageSpec` |
| Helpers.GetBudgetColor | frontend/src/utils/helpers.js:27-31 | green exactly above 60, yellow in (30, 60], red at or below 30 |
| Helpers.BudgetColorMonotone | frontend/src/utils/helpers.js:27-31 | a larger percentage never gets a worse colour; spending more never gets a better one |
| Helpers.TruncateText | frontend/src/utils/helpers.js:60-63 | over UTF-16 code units: short text is returned unchanged; longer text becomes its first maxLength code units (none for a negative length) plus "..." |
| Helpers.TruncateTextIdempotent | frontend/src/utils/helpers.js:60-63 | truncating twice is truncating once, and the result starts with the kept prefix |
| Helpers.TruncateSplitsSurrogatePair | frontend/src/utils/helpers.js:60-63 | two emoji cut at 3 code units keep the first emoji and a lone high surrogate |
| Helpers.IsValidEmailMatchesPattern | frontend/src/utils/helpers.js:70-73 | the scanner accepts exactly the strings `/^[^\s@]+@[^\s@]+\.[^\s@]+$/` matches |
| Helpers.IsValidEmail | frontend/src/utils/helpers.js:70-73 | the scanner: split at the first '@', then two runs without whitespace or '@' and an inner '.'; proved equal to the expression by `IsValidEmailMatchesPattern` |
| Helpers.ScannerImpliesPattern | frontend/src/utils/helpers.js:70-73 | an accepted address splits at its first '@' and an inner '.' into three non-empty runs with no whitespace and no '@' |
| Helpers.PatternImpliesScanner | frontend/src/utils/helpers.js:70-73 | every match of the expression is accepted |
| Helpers.EmailExamples | frontend/src/utils/helpers.js:71 | two '@' or a space are rejected; "a@b.c" is accepted |
| Helpers.SecondAtRejected | frontend/src/utils/helpers.js:71 | "a@b@c.d" is rejected |
| Helpers.SpaceRejected | frontend/src/utils/helpers.js:71 | "a b@c.d" is rejected |
| Helpers.ShortAddressAccepted | frontend/src/utils/helpers.js:71 | "a@b.c" is accepted |
| Helpers.DecimalString | frontend/src/utils/helpers.js:89 | a non-empty digit string, one digit longer per factor of ten |
| Helpers.GroupThousandsRoundTrip | frontend/src/utils/helpers.js:89 | removing the commas gives the digits back |
| Helpers.WithoutCommasAroundComma | frontend/src/utils/helpers.js:89 | removing commas around an inserted separator removes it and keeps both sides |
| Helpers.GroupThousandsWellGrouped | frontend/src/utils/helpers.js:89 | the first group has one to three digits and every later group exactly three |
| Helpers.FormatNumberSpec | frontend/src/utils/helpers.js:88-90 | for a natural number, the commas removed give its decimal string, the groups are well formed, and numbers below 1000 are unchanged |
| Helpers.FormatNumber | frontend/src/utils/helpers.js:88-90 | thousands separators on the decimal digits; its properties are `FormatNumberSpec` |
| Meta.ListDatabases | backend/app/endpoints/meta.py:11-22 | a failed listing is a 500; otherwise one entry per ".db" file in listing order, with the verbatim name and its id |
| Meta.ListingKeepsOrder | backend/app/endpoints/meta.py:14 | the ".db" filter distributes over concatenation of listings |
| Meta.HashedNameId | backend/app/endpoints/meta.py:16-19 | the id of "db_<hash>.db" is the hash |
| Meta.DatabaseId | backend/app/endpoints/meta.py:17 | every "db_" and then every ".db" removed; `HashedNameId` and `BackendIdOfDoublePrefix` state its results |
| Meta.IsDatabaseFile | backend/app/endpoints/meta.py:14 | the name ends with ".db" (a predicate) |
| Meta.ListTables | backend/app/endpoints/meta.py:24-38 | 404 exactly for a missing database, 500 exactly when reading fails, otherwise the tables |
| Meta.DtypeLabel | backend/app/endpoints/meta.py:54-58 | only "numeric" and "categorical"; "numeric" exactly for dtypes starting with "int" or "float" |
| Meta.IntervalDtypeIsNumeric | backend/app/endpoints/meta.py:54-58 | "interval[int64, right]" is labelled numeric; int64 and float64 are numeric; object and bool are categorical |
| Meta.ListColumns | backend/app/endpoints/meta.py:42-63 | 404 for a missing database, 500 when reading fails, otherwise one entry per column in order with its mapped dtype |
| DataPipeline.DropDuplicates | backend/app/core/data_p.py:16 | keeps the same set of rows with no repeats |
| DataPipeline.FirstIndex | backend/app/core/data_p.py:16 | the position of a row's first occurrence, or the length when it is absent |
| DataPipeline.FirstIndexOfAppend | backend/app/core/data_p.py:16 | appending a row does not move an earlier row's first occurrence |
| DataPipeline.DropDuplicatesInOrder | backend/app/core/data_p.py:16 | the kept rows are ordered by their first occurrence in the input, so with the two clauses above the result is exactly the first occurrences in input order |
| DataPipeline.DropDuplicatesOfDistinct | backend/app/core/data_p.py:16 | a table without repeated rows is unchanged, order included |
| DataPipeline.DropDuplicatesIdempotent | backend/app/core/data_p.py:16 | removing duplicates twice is removing them once |
| DataPipeline.Cleaned | backend/app/core/data_p.py:15-16 | exactly the input rows with some value present, without repeats |
| DataPipeline.CleanedInOrder | backend/app/core/data_p.py:15-16 | the cleaned rows are ordered by first occurrence among the rows with a value |
| DataPipeline.NormalizedColumns | backend/app/core/data_p.py:19 | one renamed column per column, in order |
| DataPipeline.NormalizeName | backend/app/core/data_p.py:19 | strip, lowercase, spaces to '_'; its properties are `NormalizeNameSpec` and `NormalizeNameIdempotent` |
| DataPipeline.ReplaceCharPointwise | backend/app/core/data_p.py:19 | replacing a one-character pattern rewrites each occurrence of that character and nothing else |
| DataPipeline.NormalizeNameSpec | backend/app/core/data_p.py:19 | the renamed column is the stripped name lowercased with spaces turned into '_': it has no space and no whitespace at either end |
| DataPipeline.NormalizeNamePointwise | backend/app/core/data_p.py:19 | each character of the renamed column is the lowercased stripped character, or '_' for a space |
| DataPipeline.NormalizedHasNoSpace | backend/app/core/data_p.py:19 | a renamed column holds no space |
| DataPipeline.NormalizedEnds | backend/app/core/data_p.py:19 | a renamed column has no whitespace at either end |
| DataPipeline.LowerCharKeepsSpace | backend/app/core/data_p.py:19 | lowercasing neither creates nor removes whitespace |
| DataPipeline.NormalizeNameIdempotent | backend/app/core/data_p.py:19 | renaming twice is renaming once |
| DataPipeline.NormalizedIsStripped | backend/app/core/data_p.py:19 | a renamed column has nothing left to strip |
| DataPipeline.NormalizedIsLower | backend/app/core/data_p.py:19 | a renamed column has no upper-case letter left |
| DataPipeline.FillCell | backend/app/core/data_p.py:22-26 | never missing; present values are kept; a missing cell becomes -1 in a numeric column and "UNKNOWN" elsewhere |
| DataPipeline.Filled | backend/app/core/data_p.py:22-26 | every cell is filled by its column's rule |
| DataPipeline.FillColumn | backend/app/core/data_p.py:22-26 | one column's cells are filled in every row and the other cells are unchanged |
| DataPipeline.FillColumnStep | backend/app/core/data_p.py:22-26 | filling the next column keeps the earlier columns filled and the later ones untouched |
| DataPipeline.Repeated | backend/app/core/data_p.py:19-23 | another column carries the same renamed name (a predicate) |
| DataPipeline.FillRules | backend/app/core/data_p.py:22-26 | a column is filled with -1 exactly when its dtype is numeric and its renamed name is not repeated (a repeated name selects a DataFrame, which is not a numeric dtype) |
| DataPipeline.FilledDtypes | backend/app/core/data_p.py:22-26 | a column stays numeric unless "UNKNOWN" was written into it, which happens only to a repeated name with a missing cell |
| DataPipeline.DistinctNamesKeepFlags | backend/app/core/data_p.py:22-26 | with distinct renamed names the fill rules and the resulting dtypes are the input dtype flags |
| DataPipeline.RepeatedNameFilledAsText | backend/app/core/data_p.py:22-26 | two numeric columns renamed to "age" are both filled as text; "age" and "weight" keep the numeric rule |
| DataPipeline.Preprocess | backend/app/core/data_p.py:13-27 | the result has the renamed columns, the cleaned rows filled column by column under the fill rules, the dtypes after the fill, and no missing cell |
| DataPipeline.ColumnLabel | backend/app/core/data_p.py:35-40 | numeric exactly for numeric dtypes; otherwise categorical exactly with at most 50 distinct values, and sensitive exactly above 50 |
| DataPipeline.DetectSchema | backend/app/core/data_p.py:32-43 | one entry per column, in column order, with that column's label |
| DataPipeline.SafeColumns | backend/app/core/data_p.py:48 | exactly the names some entry labels other than sensitive |
| DataPipeline.SafeColumnsConcat | backend/app/core/data_p.py:48 | the kept names follow schema order |
| DataPipeline.ColumnIndex | backend/app/core/data_p.py:49 | the first position of a column name |
| DataPipeline.FilterSensitive | backend/app/core/data_p.py:47-49 | for a table with distinct column names: KeyError exactly when a kept name is not a column; otherwise the table restricted to the kept columns, in schema order, cell for cell |
| DataPipeline.SafeColumnsAreColumns | backend/app/core/data_p.py:47-49 | with a schema built from the columns, every kept name is a column |
| DataPipeline.Prepared | backend/app/core/data_p.py:13-27 | the preprocessed table for distinct renamed columns: renamed columns, the input dtypes, well formed |
| DataPipeline.OnlySensitiveNotKept | backend/app/core/data_p.py:48 | a name whose every entry is sensitive is not kept |
| DataPipeline.SensitiveColumnRemoved | backend/app/core/data_p.py:47-49 | with distinct names, a sensitive column is never kept |
| DataPipeline.RunPipeline | backend/app/core/data_p.py:61-76 | the schema lists every renamed column with the label its dtype and distinct-value count in the preprocessed rows give; the returned table is exactly the preprocessed table (`Prepared`) with the sensitive columns removed (the removal cannot raise); it has no missing cell and no sensitive column |
| Text.ReplaceFirst | frontend/src/pages/QueryWorkspace.jsx:217 | JavaScript `replace` with a string pattern rewrites only the first occurrence |
| Text.ReplaceAll | backend/app/endpoints/meta.py:17 | Python `str.replace`, left to right, non-overlapping; its properties are the ReplaceAll lemmas |
| Text.IndexOf | frontend/src/utils/helpers.js:71 | the first occurrence, or -1 exactly when there is none |
| Text.Contains | frontend/src/components/analyst/QueryBuilder.jsx:23-26 | `includes`: true exactly when the pattern occurs at some position |
| Text.ReplaceAllLeadingMatch | backend/app/endpoints/meta.py:17 | Python `replace` rewrites a match at the front and then continues after it |
| Text.ReplaceAllFreePrefix | backend/app/endpoints/meta.py:17 | text free of the pattern's first character passes through the rewrite unchanged |
| Text.ReplaceAllWithoutChar | backend/app/endpoints/meta.py:17 | a string lacking one of the pattern's characters is not changed |
| Text.ToLower | frontend/src/components/analyst/QueryBuilder.jsx:21 | lowercases character by character (ASCII letters) |
| Text.LowerChar | frontend/src/components/analyst/QueryBuilder.jsx:21 | upper-case ASCII letters become lower-case letters; every other character is kept |
| Text.StripLeft | backend/app/core/data_p.py:19 | removes exactly the leading whitespace |
| Text.StripRight | backend/app/core/data_p.py:19 | removes exactly the trailing whitespace |
| Text.Strip | backend/app/core/data_p.py:19 | `str.strip()`: both ends stripped of Python whitespace |
| Common.Filter | frontend/src/components/analyst/QueryBuilder.jsx:49 | keeps exactly the elements satisfying the predicate |
| Common.FilterConcat | frontend/src/store/useStore.js:45 | a filter distributes over concatenation, so order is kept |

## Left out

- Randomness: `Math.random` and `np.random.laplace` become draw parameters, and the random query ids are not modelled.
- `Math.log`: an uninterpreted parameter `ln`.
- The clock, `toISOString` timestamps and `Date.now` ids: `Date.now` is the parameter `now`.
- I/O: axios calls, `localStorage`, the file system, SQLite, pandas reads and `schema.json`. Their results are parameters, with `None` for a call that throws.
- Floating point: numbers are reals, so NaN, Infinity, rounding and `toFixed` formatting are out of scope.
- DpEngine.CalculateNoise: requires a non-zero epsilon, where JavaScript would return Infinity or NaN.
- DpEngine.CalculateAccuracyBound: requires confidence ≠ 1, where JavaScript would divide by zero.
- Helpers.BudgetPercentageSpec: stated for a positive total only. `BudgetPercentage` requires a non-zero total, where JavaScript returns Infinity or NaN.
- DpEngine.GenerateVerificationHash: takes the UTF-16 code units of the certificate's JSON text as input. `JSON.stringify` and the certificate's other fields (timestamp, explanation text) are not modelled.
- Helpers.FormatNumberSpec: covers natural numbers only. For negatives, fractions and numbers of 10^21 and above, `toString` yields a sign, a point or an exponent, which is not modelled.
- Text.ToLower: folds ASCII letters only; Unicode case mapping is not modelled.
- Helpers.TruncateText: takes the UTF-16 code units of the text, as `length` and `substring` count them. Converting a string to its code units is not modelled.
- Helpers: `formatEpsilon`, `formatTimestamp`, `generateQueryId` and `downloadJSON` are formatting, clock, randomness or DOM helpers.
- PrivacyService.TrueResult: its contract states only that the stubs are non-negative. The three constants live in its definition and reach the endpoint through `ExecutePrivateQuery`.
- QuerySchema: pydantic's type coercion and extra-field handling are not modelled. Filter values are strings.
- QueryEndpoint.HandleQueryAsWritten: whether the parsed request exposes `database_name` is the input `hasDatabaseName`. Engine and session setup, `print` and the traceback are left out, and so are the error message texts.
- QueryWorkspace.Workspace.HandleUpload: the upload request itself and its failure are left out. The uploading flag and modal state are left out too.
- QueryWorkspace: these presentation fields are left out:
  - `description`, `recordCount` and the column icons;
  - the accuracy string;
  - `queryId`, `timestamp` and `queryText`;
  - the `toFixed` renderings.
- QueryWorkspace.FlattenFilters: a row's `value` is always a string, so the `undefined` test cannot fail here.
- QueryComposer: the SQL mode tab and the save button are left out.
- Store.AppStore.SetUserRole: the `localStorage` write is left out, as is the `typeof window` check.
- DataPipeline.DetectSchema: requires distinct column names. With a repeated name, `df[col]` is a DataFrame and the `elif` raises, which is not modelled.
- DataPipeline.FilterSensitive: requires distinct column names. With a repeated name, `df[safe_cols]` returns every column of that name, which is not modelled; `run_pipeline`, its only caller, passes distinct names.
- DataPipeline.RunPipeline: requires distinct renamed column names, because `detect_schema` and `filter_sensitive` need them. The CSV read, the SQLite write and the prints are left out.
- DataPipeline: each column's numeric-dtype flag is an input fixed when the CSV is read. pandas' dtype inference is not modelled beyond the fill: a numeric column into which "UNKNOWN" is written becomes non-numeric.
- The user interface rendering, mock data and pages that only display values are left out.

## Findings

| source | as written | input that shows it | evidently intended | confidence | as-written member | corrected member |
|---|---|---|---|---|---|---|
| backend/app/endpoints/query.py:57 | `execute_private_query` is called with a `db=` keyword its signature does not declare, so the call raises TypeError and the handler returns a 500. Line 57 is not even reached today: the request schema declares no `database_name` and pydantic drops undeclared fields, so the check at line 44 raises for every admitted request (`hasDatabaseName` is always false against this schema). The returned `HTTPException` also fails the `QueryResponse` response model, so the client sees a generic 500 without the reason | any request with epsilon in (0, 10], no budget above it, and a database name | call the service with only its declared keywords and return the response | high, not executed | QueryEndpoint.AsWrittenNeverSucceeds | QueryEndpoint.HandleQuerySpec |
| backend/app/endpoints/query.py:76-84 | the blanket `except` catches the handler's own 400s and *returns* an `HTTPException(500)` as the response body | epsilon 11.0 | the 400s propagate and an unexpected failure raises a 500 | high, not executed | QueryEndpoint.OutOfRangeEpsilonAsWritten | QueryEndpoint.HandleQuerySpec |
| frontend/src/pages/QueryWorkspace.jsx:115-120 | after a query the first dataset is charged and becomes the whole list, whichever dataset was selected | two datasets with budget 5.0, the second selected, epsilon 1.0 | charge the selected dataset and keep the others | medium, not executed | QueryWorkspace.ChargedAsWrittenLosesSelected | QueryWorkspace.ChargeSelectedSpec |

The page's `HandleExecuteQuery` keeps the code's behaviour (`ChargedAsWritten`), so the page model stays faithful. `ChargeSelected` is the corrected update, with its properties proved alongside.
