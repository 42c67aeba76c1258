# Code-analysis front end: result ingestion and client-side stores

This Dafny project models the client-side logic of a Vue front end for an AI
code-analysis service. The main part is the result-ingestion code of
`src/services/analysisService.js`. It is surrounded by four smaller
components: the error classifier, the local-storage cleanup, the expiring
token store and the AI-model store.

- **JSON values** (`JsValue`). A JS value is `Undefined | Null | Bool |
  Num(int) | Str | Arr | Obj`, and an object is an ordered list of entries.
  - Property reads take the first entry with that key.
  - `obj[k] = v` replaces the value in place or appends an entry.
  - Spread `{...a, ...b}` is a fold of those writes.
  - `Truthy` is JS truthiness.
- **Throw points** (`Payload`, `Normalizer.Ingestible`). The places where
  the JS code would throw on its input become preconditions, stated place
  by place along the stages. They are:
  - a `null`/`undefined` payload;
  - a truthy `fileResults` that is neither an array nor a string, where it
    is spread;
  - a `null` first element of a bare array;
  - a `null`/`undefined` issue or file record, where it is read as an
    object;
  - a truthy `codeQuality.issues` that is not an array;
  - a non-string file name whose language must be guessed from it.

  The one further condition is that a truthy `score` is a number or `true`.
- **`standardizeResults`** (`Normalizer`). The shape classifier is the
  function `Branch`, and each later stage is a function on a `Stage`.
  - The object the source builds and mutates is the class `Standardized`.
  - `StandardizeResults` drives that object, and its contract ties the
    result to `Standardize`.
- **Helpers of `standardizeResults`**:
  - `IssueExtraction`: the recursive issue finder.
  - `Grouping`: the grouper. `Object.entries` order is modelled, so
    integer-like file names come first, in ascending order.
  - `Scoring`: the scorer.
  - `Languages`: the two extension tables.
  - `Summary`: the summary back-filler.
- **`fetchWithRetry`** (`Retry`). The transport is a function from the call
  number to an outcome, and the waits are recorded instead of slept.
- **Other parts of `analysisService.js`**:
  - `AiCheck`: `checkForAiResults`, a priority search.
  - `RulesAnalysis`: the aggregation half of `analyzeWithRules`; the issues
    the rule table detects are an input.
  - `ObjectIds`: the 24-hex ObjectId test.
- **`errorHandler.js`** (`ErrorHandler`). The ordered substring classifier
  and the records and messages derived from it.
- **The browser's `localStorage`** (`KeyStore.Store`). A class with an
  ordered key list and a map. `Cleanup` runs the three descending-index
  deletion loops of `cleanupData.js` over it.
- **`storage.service.js`** (`Storage`). A stored item is either a parsed
  `{value, expiry}` record or raw text. The clock `now` is a parameter.
- **`aiModels.js`**:
  - `AiModels` holds the Pinia store's model list as the class `ModelsStore`.
  - `ModelStorage` holds the save/load pair that goes through the key store.

Imperative code in the source is modelled as methods with loops, each proved
against a specification function. The properties are proved as lemmas about
those functions. Nothing here is executed.

## Model

| member | source | states |
|---|---|---|
| Normalizer.Standardized.constructor | src/services/analysisService.js:797-808 | the object starts with `results` `{}`, no file records, and a summary of six zero counters |
| Normalizer.Standardized.Ingest | src/services/analysisService.js:811-910 | after the classifier, the object holds exactly `Branch(data)`: the first matching shape wins, in the order wrapped `results`, `{code, data/message}` envelope, direct `codeQuality/security/performance`, `fileResults` array, bare array, then `{...data, unknownFormat: true}` |
| Normalizer.Standardized.IngestEnvelope | src/services/analysisService.js:825-852 | in an envelope, `data.results`, else `data.analysis`, else `data` becomes `results`, and its files and summary are copied; without an object `data`, only the message (default `服务器返回了结果，但没有详细数据`) is kept |
| Normalizer.Standardized.IngestArray | src/services/analysisService.js:877-905 | a bare array is kept as file records when its first element has `fileName`/`issues`; as a `codeQuality.issues` list grouped by file when it has `message`/`severity`; otherwise as `rawArray` |
| Normalizer.Standardized.CopyFrom | src/services/analysisService.js:816-822 | `fileResults` becomes a copy of a truthy `fileResults`, and a truthy `summary` is spread over the default summary; `results` is untouched |
| Normalizer.Standardized.GroupCodeQualityIssues | src/services/analysisService.js:913-920 | with no file records and truthy `results.codeQuality.issues`, the file records become those issues grouped by file; otherwise nothing changes |
| Normalizer.Standardized.AddPlaceholder | src/services/analysisService.js:922-945 | with still no file records: issues extracted from `results` give one `合成结果` record scored by `calculateFileScore` with language `未知`; no issues give the `未找到文件结果` record with score 0 |
| Normalizer.Standardized.CompleteFiles | src/services/analysisService.js:948-955 | every file record is replaced by its completion (name, array issues, score, language), and nothing else changes |
| Normalizer.Standardized.UpdateSummaryInformation | src/services/analysisService.js:1088-1145 | the summary becomes the back-filled summary of the current file records; `results` and `fileResults` are untouched |
| Normalizer.Standardized.GroupIssuesByFile | src/services/analysisService.js:964-987 | `fileResults` becomes the grouped records of the issues; `results` and `summary` are untouched |
| Normalizer.CollectByFile | src/services/analysisService.js:965-976 | the dictionary built by the `forEach` has exactly the file names that occur as keys, and each key holds exactly that file's issues in input order |
| Normalizer.GroupedRecords | src/services/analysisService.js:979-986 | mapping `Object.entries` of that dictionary gives `GroupIssues(issues)` |
| Normalizer.CountIssues | src/services/analysisService.js:1100-1116 | the loop's four accumulators equal the total issue count and the critical, major and minor class totals over all files with an array `issues` |
| Normalizer.AverageScore | src/services/analysisService.js:1136-1144 | the score is the rounded mean of `score \|\| 0` over the files, or 0 without files |
| Normalizer.BackfillSummary | src/services/analysisService.js:1119-1133 | the six conditional field writes, in order, give `UpdatedSummary`: each truthy field is kept, and each other field takes the recomputed value |
| Normalizer.StandardizeResults | src/services/analysisService.js:793-961 | the object built and mutated step by step is `Standardize(data)` |
| Normalizer.BranchProps | src/services/analysisService.js:811-910 | on every input the classifier accepts, the stage it leaves has truthy `results` and a summary holding the six counters |
| Normalizer.CompleteProps | src/services/analysisService.js:948-955 | a completed record has a truthy `fileName`, an array `issues`, a defined `score` and a truthy `language`; completing a readable record leaves it readable |
| Normalizer.CompleteFixed | src/services/analysisService.js:948-955 | completing an already complete record returns it unchanged |
| Normalizer.StandardizeShape | src/services/analysisService.js:793-961 | on every input that does not throw, the output is `{results, fileResults, summary}` with truthy `results`, a non-empty list of complete, readable file records, and six summary fields each truthy or equal to the value recomputed from those records |
| Normalizer.StandardizeFixed | src/services/analysisService.js:811-823 | an output of that shape is itself an input that does not throw; it is wrapped (truthy `results`), so standardizing it again returns it unchanged |
| Normalizer.StandardizeIdempotent | src/services/analysisService.js:793-961 | standardizing a standardized result returns an identical result |
| Normalizer.StandardizeEmptyArray | src/services/analysisService.js:938-943 | the input `[]` yields `rawArray` results, the single `未找到文件结果` file with no issues and score 0, and a summary of one file, no issues and score 0 |
| Normalizer.SkippedArrayPayload | src/services/analysisService.js:990-1027 | `{results: {tags: [1, null]}}` does not throw: an array whose first element is not an object is skipped, so the output holds the single `未找到文件结果` record |
| Normalizer.NumberNamedRecord | src/services/analysisService.js:869-874 | a file record named by the number 7 with a language does not throw |
| Normalizer.NumberNamedIssue | src/services/analysisService.js:913-920 | an issue named by the number 5 does not throw and is grouped under the key `5` |
| IssueExtraction.SkipsPrimitiveArray | src/services/analysisService.js:996-1002 | `[1, null]` is searched without throwing and yields no issues |
| IssueExtraction.ExtractIssues | src/services/analysisService.js:990-1027 | a non-empty result starts with an object that has a truthy `message`, `severity` or `rule` |
| IssueExtraction.ExtractedOccur | src/services/analysisService.js:990-1027 | every extracted issue occurs somewhere inside the searched value |
| IssueExtraction.ExtractIdempotent | src/services/analysisService.js:996-1002 | the array of extracted issues can itself be searched without throwing, and extracting again from it returns the same issues |
| Grouping.FileKey | src/services/analysisService.js:969 | an issue's group key is its string `fileName`, the `String()` text of any other truthy name, or `未知文件` when the name is falsy; it is never empty unless the name is an array |
| Normalizer.GroupIssuesOk | src/services/analysisService.js:964-987 | the records grouped from non-null issues can be completed and summarised without throwing |
| Grouping.FirstIndex | src/services/analysisService.js:967-976 | the position of the first issue of a file: it has that file, and no earlier issue does |
| Grouping.FirstOccurrenceKeys | src/services/analysisService.js:967-976 | the keys in insertion order are distinct and are exactly the files that occur |
| Grouping.FirstOccurrenceOrdered | src/services/analysisService.js:967-976 | insertion order is first-occurrence order |
| Grouping.ObjectKeyOrderProps | src/services/analysisService.js:979 | `Object.entries` order is a permutation of the insertion order, with integer-like keys first and ascending; without integer-like keys, it is the insertion order |
| Grouping.GroupIssues | src/services/analysisService.js:964-987 | there is one record per distinct file |
| Grouping.MembersProps | src/services/analysisService.js:971-975 | a group holds only issues of its own file taken from the input, and an absent file has an empty group |
| Grouping.MembersAppend | src/services/analysisService.js:967-976 | grouping is compositional: the group of a concatenation is the concatenation of the groups, so input order is kept within a group |
| Grouping.GroupSizesTotal | src/services/analysisService.js:967-976 | the group sizes add up to the number of issues |
| Grouping.GroupIssuesPartition | src/services/analysisService.js:964-987 | every issue lands in exactly one group: the keys are distinct, every issue's key is among them, every key occurs, each group holds only its own file's issues, and the sizes add up; without integer-like names, the order is first occurrence |
| Grouping.GroupRecords | src/services/analysisService.js:979-986 | the i-th record has the i-th key as `fileName`, that file's issues, their `calculateFileScore` score, and `guessLanguageFromFileName` of the name |
| Grouping.GroupIssuesNonEmpty | src/services/analysisService.js:979-986 | a non-empty issue list gives at least one record |
| Scoring.FileScore | src/services/analysisService.js:1031-1050 | the score of an issue array is in [0,100] |
| Scoring.CalculateFileScore | src/services/analysisService.js:1030-1051 | the score is in [0,100], and 100 for anything that is not an array |
| Scoring.EmptyScoresFull | src/services/analysisService.js:1031 | an empty list scores 100 with no penalty |
| Scoring.FileScoreOrderIndependent | src/services/analysisService.js:1034-1050 | the score is `clamp(100 - penalty, 0, 100)`, where the penalty is 15 per critical/high/error, 5 per major/medium/warning and 1 per minor/low/info, so it does not depend on order |
| Scoring.FileScoreAppend | src/services/analysisService.js:1034-1050 | appending an issue never raises the score; a classified issue lowers a positive score; an issue of any other severity leaves the score unchanged |
| Scoring.RoundMeanNearest | src/services/analysisService.js:1139-1140 | the integer mean is `Math.round(sum / n)`, rounding half up |
| Scoring.RoundMeanBounds | src/services/analysisService.js:1139-1140 | the rounded mean of values within [lo, hi] is within [lo, hi] |
| Summary.FillAllLookup | src/services/analysisService.js:1119-1133 | after back-filling, a field keeps its truthy value, or otherwise takes the recomputed one; fields not back-filled are untouched |
| Summary.FillAllFixed | src/services/analysisService.js:1119-1133 | when every field is truthy or already holds its recomputed value, back-filling changes nothing |
| Summary.FillAllIdempotent | src/services/analysisService.js:1119-1133 | back-filling twice is the same as back-filling once |
| Summary.UpdatedSummaryProps | src/services/analysisService.js:1088-1145 | each of the six fields keeps a truthy backend value or is recomputed (file count, issue count, class counts, rounded mean score); other keys are untouched; the update is idempotent |
| Summary.MeanScoreBounds | src/services/analysisService.js:1136-1144 | with all scores in [0,100], the recomputed quality score is in [0,100] |
| Summary.ClassTotalsBounded | src/services/analysisService.js:1100-1116 | the critical, major and minor totals together never exceed the issue total |
| Languages.GuessLanguageFromFileName | src/services/analysisService.js:1054-1085 | an empty name gives `未知`; otherwise the lower-cased text after the last `.` is looked up in the table, with `未知` for a miss; the result is never empty |
| Languages.GetLanguageFromExtension | src/services/analysisService.js:1384-1413 | the lower-cased extension is looked up in its own table, with `Unknown` for a miss |
| Languages.LanguageOfExtension | src/services/analysisService.js:1057 | for `name.ext` where `ext` has no dot, the language is the table entry of the lower-cased `ext` |
| Languages.LanguageIgnoresCase | src/services/analysisService.js:1057 | lower-casing the file name first does not change the guessed language |
| Languages.TablesAgree | src/services/analysisService.js:1384-1413 | the two tables agree on every extension both list, except `scss` and `less` |
| Retry.FirstReturned | src/services/analysisService.js:53-72 | the first call in the bound whose outcome is returned: a response with a status other than 401, with every earlier call thrown or 401 |
| Retry.Waits | src/services/analysisService.js:78-83 | the k recorded waits are `delay * 2^j` |
| Retry.FetchWithRetry | src/services/analysisService.js:46-89 | the first non-401 response within `retries` calls is returned after exactly that many calls; otherwise all `retries` calls are made and the last error is thrown (`undefined` when `retries <= 0`); a wait follows every failed attempt but the last; never returns a 401 |
| Retry.FirstResponseReturned | src/services/analysisService.js:58-64 | a 404 (or any status other than 401) on the first call ends the loop at once |
| Retry.FirstReturnedFrom | src/services/analysisService.js:53-85 | the first returnable call is found whatever the bound beyond it |
| Retry.WaitsDouble | src/services/analysisService.js:82 | each wait is twice the one before |
| Retry.DefaultWaits | src/services/analysisService.js:46 | with the defaults `retries = 3` and `delay = 1000`, the waits are one and two seconds |
| Retry.UnauthorizedRetried | src/services/analysisService.js:66-75 | a 401 followed by a 200 returns the 200 from the second call, although the first answer was the 401 |
| Retry.FetchStoppingOnUnauthorized | src/services/analysisService.js:66-70 | corrected loop: the first answer ends the call, a 401 with the authentication error; only thrown transport errors are retried |
| AiCheck.CheckForAiResults | src/services/analysisService.js:736-790 | `location` is the first marker in the fixed search order (`AiLocation`), and `has` holds exactly when a location was found |
| AiCheck.ScanFiles | src/services/analysisService.js:766-787 | the nested loop finds the first marker over the files in index order |
| AiCheck.ScanIssues | src/services/analysisService.js:776-785 | the inner loop finds the first issue with `aiSuggestion`/`aiComment`, and names it `fileResults[i].issues[j].<key>` |
| AiCheck.FirstFileMarkIsFirst | src/services/analysisService.js:766-787 | none is found exactly when no file has a marker; a found marker belongs to a file with no marked file before it |
| AiCheck.FirstIssueMarkIsFirst | src/services/analysisService.js:777-784 | none is found exactly when no issue is marked; otherwise the location names the first marked issue |
| AiCheck.FileMarkFound | src/services/analysisService.js:767-773 | the first file with a marker and no marked file before it decides the location |
| AiCheck.IssueMarkFound | src/services/analysisService.js:777-783 | the first marked issue decides the location, with `aiSuggestion` preferred over `aiComment` |
| RulesAnalysis.CountOf | src/services/analysisService.js:1272-1275 | a count, filtered by severity or not, never exceeds the number of issues |
| RulesAnalysis.RuleFileScore | src/services/analysisService.js:1263 | the file score is `max(0, 100 - 5*issues)`, in [0,100] |
| RulesAnalysis.AnalyzeWithRules | src/services/analysisService.js:1172-1295 | the records are those of the analysed files, and the summary is their aggregate |
| RulesAnalysis.ReportsOfKeptFiles | src/services/analysisService.js:1192-1198 | each file whose language is neither empty nor `Unknown` gives a record, every record comes from such a file, and there are never more records than files |
| RulesAnalysis.ReportsHaveLanguage | src/services/analysisService.js:1198 | no record has an empty or `Unknown` language |
| RulesAnalysis.RulesSummaryBounds | src/services/analysisService.js:1280-1291 | severity totals never exceed the issue total, the score is in [0,100], and `totalFiles` counts every file handed in |
| RulesAnalysis.RuleFileScoreMonotone | src/services/analysisService.js:1263 | more issues never give a higher score |
| ObjectIds.BackendModelId | src/services/analysisService.js:393-403 | the id sent is the selected id exactly when that is 24 hex digits; any other id is replaced by `''` |
| ErrorHandler.TypeName | src/utils/errorHandler.js:7-14 | only the network and recoverable categories have the names `network_error` and `recoverable_error` |
| ErrorHandler.HandleError | src/utils/errorHandler.js:74-111 | the record's type is the category's name, its message is the error's message or `未知错误`, it keeps the error, and `isRecoverable` agrees with `isRecoverableError` |
| ErrorHandler.GetUserFriendlyMessage | src/utils/errorHandler.js:118-144 | validation errors return their own message; every other category a fixed text; an auth error returns the "expired" text exactly when its message contains `过期` |
| ErrorHandler.RecoverableCategories | src/utils/errorHandler.js:151-154 | an error is recoverable exactly when it is classified network or recoverable |
| ErrorHandler.Message404IsNetwork | src/utils/errorHandler.js:25-33 | a message containing `404` is a network error, before any status test |
| ErrorHandler.Status404Recoverable | src/utils/errorHandler.js:54-57 | a 404 status is classified recoverable exactly when no network, auth or validation sign precedes it; such an error is recoverable exactly when it has a network sign or no auth or validation word |
| ErrorHandler.BareErrorUnknown | src/utils/errorHandler.js:21-66 | an error with no message, no flag and no status is unknown, gets the default text, and is recorded with the message `未知错误` |
| ErrorHandler.ExpiredLogin | src/utils/errorHandler.js:36-42 | a message containing `认证已过期` with no network sign is an auth error and gets the "expired" text |
| Cleanup.Kept | src/utils/cleanupData.js:45-64 | the keys left are exactly those not doomed, and never more than before |
| Cleanup.RemoveDoomed | src/utils/cleanupData.js:45-64 | the descending-index loop leaves the surviving keys in order with their values, and returns the number of keys removed |
| Cleanup.CleanupAnalysisData | src/utils/cleanupData.js:38-68 | removes exactly the unprotected keys that start with `analysis_`, contain `analysis`, or are `analysisResults`, `current_analysis_task` or `db_rule_count`; every other key and value is kept; the count is the number removed |
| Cleanup.CleanupRuleData | src/utils/cleanupData.js:71-99 | the same, for the unprotected keys that contain `rule`, start with `rule_`, or are `rules` or `analysis_rules_config` |
| Cleanup.CleanupAllTestData | src/utils/cleanupData.js:102-154 | the three sweeps run in order, each over the keys the one before left; each count is the number of keys its sweep removed; the keys and values left are those the three sweeps keep; `total` is the sum of the three counts and the number of keys removed |
| Cleanup.KeptCount | src/utils/cleanupData.js:42-62 | the keys kept plus the keys counted as removed are all the keys |
| Cleanup.KeptAppend | src/utils/cleanupData.js:45-64 | the sweep keeps the relative order of the surviving keys |
| Cleanup.ProtectedByPattern | src/utils/cleanupData.js:16-35 | a key is protected exactly when it is `defaultAiModel`, ends in `_api_key`, starts with `model_`, or contains `aiModel`, `AIModel`, `deepseek` or `Deepseek`; the other listed keys contain `aiModel`, so the empty key is never protected |
| Cleanup.AllTestDataKept | src/utils/cleanupData.js:102-154 | after the full cleanup, a key survives exactly when it was there and is protected or matched by none of the three sweeps; the third sweep removes the unprotected `test_`, `demo_`, `temp_` and `mock_` keys |
| Storage.SetWithExpiry | src/services/storage.service.js:15-21 | the key holds the value with expiry `now + expiryMs`; no other key changes |
| Storage.GetWithExpiry | src/services/storage.service.js:28-68 | a missing or empty item reads `null`; raw text (a JWT under `token`, or text `JSON.parse` rejects) is returned as is; a record is returned until its expiry; after the expiry it reads `null`, and only then the key is removed |
| Storage.SetAuthToken | src/services/storage.service.js:87-105 | a JWT is stored raw with a `token_expiry` record; any other token is stored as an expiring record; `token` (and `token_expiry`) are appended to the key order when new |
| Storage.SetAuthTokenDefault | src/services/storage.service.js:87 | with the default lifetime of one hour, the store changes exactly as `setAuthToken` with that lifetime: the token (and for a JWT its `token_expiry` record) is written, appended to the key order when new, and nothing else changes |
| Storage.GetAuthToken | src/services/storage.service.js:111-146 | a missing token reads `null`; a JWT is returned until its `token_expiry` passes, then `null` with both keys removed from the store and the key order; any other token is read as by `getWithExpiry` |
| Storage.ClearAuthData | src/services/storage.service.js:181-185 | removes exactly `token`, `token_expiry` and `user` |
| Storage.ExpiryRoundTrip | src/services/storage.service.js:15-53 | what `setWithExpiry` stores at t reads back as the value at any time up to t + ms, and as `null` (expired) after it |
| Storage.MissingIsNull | src/services/storage.service.js:32-34 | a missing key reads `null` and is not expired |
| Storage.JwtDots | src/services/storage.service.js:75-80 | `isJwtToken` holds exactly for strings that start with `eyJ` and contain exactly two dots (three parts) |
| Storage.JwtRoundTrip | src/services/storage.service.js:87-146 | a JWT stored by `setAuthToken` at t is read back until t + ms, and afterwards reads `null` with both keys removed |
| Storage.OtherTokenRoundTrip | src/services/storage.service.js:101-146 | a non-JWT token reads back as `getWithExpiry` of its record, and is removed once it has expired |
| Storage.JwtWithoutExpiry | src/services/storage.service.js:121-141 | a raw JWT with no `token_expiry` is returned and nothing is removed |
| AiModels.GetProviderFromId | src/stores/aiModels.js:508-513 | substrings are checked in order: `gpt` gives openai, else `claude` anthropic, else `deepseek` deepseek, else `unknown` |
| AiModels.ProviderNeverEmpty | src/stores/aiModels.js:932 | the provider guess is never empty, so the `'custom'` fallback is never reached |
| AiModels.MarkDefault | src/stores/aiModels.js:571-573 | the loop keeps length and order, and sets `isDefault` exactly on the models with the given id |
| AiModels.DefaultUnique | src/stores/aiModels.js:568-574 | with distinct ids, exactly the chosen model is marked default |
| AiModels.DefaultEndpoint | src/stores/aiModels.js:933-941 | only deepseek, openai and anthropic get a default endpoint |
| AiModels.RepairModel | src/stores/aiModels.js:929-945 | the repaired model has a status (default `inactive`) and a provider (guessed from the id); existing fields are kept; a missing endpoint becomes the provider's default endpoint; a missing model id of a deepseek model becomes `deepseek-coder` when the name contains `Coder`, else `deepseek-chat`, and stays missing for other providers |
| AiModels.RepairIdempotent | src/stores/aiModels.js:929-945 | repairing twice is the same as repairing once |
| AiModels.RepairAll | src/stores/aiModels.js:929-945 | the `forEach` repairs every model in place |
| AiModels.RepairKeepsActive | src/stores/aiModels.js:929-948 | repairing keeps whether some model is active, so the activation step runs exactly when it would have before repair |
| AiModels.FindCoder | src/stores/aiModels.js:951-954 | the first deepseek Coder model, if any |
| AiModels.ActivationIndex | src/stores/aiModels.js:949-965 | in a non-empty list, the model to activate is within the list |
| AiModels.Identifiers | src/stores/aiModels.js:1291-1296 | the identifiers tried are the non-empty ones among `id`, `modelId`, `name` and `provider_name`, in that order |
| AiModels.FirstHit | src/stores/aiModels.js:1299-1306 | the first identifier with a truthy backup entry, with no earlier one having one |
| AiModels.RestoredModelChanges | src/stores/aiModels.js:1287-1309 | a model with a key is untouched; a blank one takes the backup value of its first identifier that has one; only `apiKey` ever changes |
| AiModels.FindStoredKey | src/stores/aiModels.js:1299-1306 | the `for … break` loop finds the first identifier with a truthy backup entry |
| AiModels.RestoreOne | src/stores/aiModels.js:1287-1309 | one model is restored as specified, and reports whether it was restored or already had a key |
| AiModels.RestoreAll | src/stores/aiModels.js:1283-1316 | every model is restored, and the two counters equal the restored and already-keyed totals |
| AiModels.RestoredAreChanged | src/stores/aiModels.js:1283-1316 | with non-blank backup values, `restored` equals the number of models changed |
| AiModels.RestoredWithinBlank | src/stores/aiModels.js:1283-1316 | the restored and already-keyed counts together never exceed the number of models |
| AiModels.PutIdentifiers | src/stores/aiModels.js:1528-1532 | writing one model's key under each of its identifiers |
| AiModels.BuildBackup | src/stores/aiModels.js:1514-1536 | the loop builds `KeyBackup(models)` |
| AiModels.KeyBackupDomain | src/stores/aiModels.js:1514-1536 | an identifier is in the backup exactly when some model with a non-blank key has it |
| AiModels.KeyBackupLastWins | src/stores/aiModels.js:1514-1536 | a shared identifier holds the key of the last such model |
| AiModels.KeyBackupNonBlank | src/stores/aiModels.js:1518 | no backup entry is blank |
| AiModels.FullWidthSpaceBlank | src/stores/aiModels.js:1514-1518 | a key of one full-width space is blank as `trim` sees it: the model is not counted as keyed and gets no backup entry |
| AiModels.BackupThenRestore | src/stores/aiModels.js:1267-1321 | a blank model whose id is in the backup is restored with the value stored under that id |
| AiModels.Recovered | src/stores/aiModels.js:1037-1061 | a server copy changes only by taking `keysMap[id \|\| modelId \|\| name]` when its key is blank and that entry is truthy |
| AiModels.ServerModels | src/stores/aiModels.js:1012-1064 | the models sent to the server are at most the models held, and none has a blank key |
| AiModels.ServerModelsMembers | src/stores/aiModels.js:1012-1064 | a model is sent exactly when it comes from a compatible model (ObjectId, predefined id, or deepseek by id or provider) and its possibly recovered key is not blank |
| AiModels.NoBackupFilter | src/stores/aiModels.js:1012-1064 | without a backup, the filter keeps exactly the compatible models with a non-blank key |
| AiModels.ModelsStore.constructor | src/stores/aiModels.js:202-240 | a new store holds the three preset models (`Presets`) and no selection |
| AiModels.PresetsSettled | src/stores/aiModels.js:202-240 | the presets need no repair, hold no key, and have distinct ids |
| AiModels.ModelsStore.SetDefaultModel | src/stores/aiModels.js:568-574 | sets `selectedModel`, and marks exactly the models with that id as default, keeping length and order |
| AiModels.ModelsStore.RepairModels | src/stores/aiModels.js:922-967 | every model gets a status and a provider; a non-empty list ends with an active model; if none was active, the first deepseek Coder model (else the first model) is activated and selected |
| AiModels.ModelsStore.SaveApiKey | src/stores/aiModels.js:516-537 | fails on an empty id and changes nothing; otherwise only the model with that id gets the key (or the model is appended with it), and `<id>_api_key` is written, appended to the key order when new |
| AiModels.ModelsStore.RestoreApiKeys | src/stores/aiModels.js:1267-1321 | no backup gives `{restored: 0}`; an unreadable backup gives the error result; otherwise every model is restored from it and both counters are returned |
| AiModels.ModelsStore.BackupApiKeys | src/stores/aiModels.js:1509-1544 | `ai_model_api_keys` is set to `KeyBackup(models)`, appended to the key order when new, and nothing else changes |
| ModelStorage.ApiKeyName | src/stores/aiModels.js:109 | the key name is the id followed by `_api_key`, so it starts with the id and ends in `y` |
| ModelStorage.ApiKeyNameInjective | src/stores/aiModels.js:109 | different ids have different key names |
| ModelStorage.FixedKeysAreNotKeyNames | src/stores/aiModels.js:37-40 | no key name collides with the fixed keys |
| ModelStorage.Simplified | src/stores/aiModels.js:88-97 | each model is reduced to the eight saved fields |
| ModelStorage.SaveModelsToLocalStorage | src/stores/aiModels.js:78-137 | an empty list writes nothing and returns false; otherwise the list, its backup, each key, the settings and the save time are written, and the key order gains each new key in that order of writing |
| ModelStorage.WriteApiKeys | src/stores/aiModels.js:107-111 | the loop writes `<id>_api_key` for each model with a key, appending each new key name in model order |
| ModelStorage.WriteKeyOrderExtends | src/stores/aiModels.js:107-111 | writing the keys only appends: every key stored before keeps its index |
| ModelStorage.SaveKeysExtends | src/stores/aiModels.js:78-137 | a save keeps the index of every key stored before it |
| ModelStorage.WriteKeysUntouched | src/stores/aiModels.js:107-111 | a key that names no keyed model is not touched |
| ModelStorage.WriteKeysLast | src/stores/aiModels.js:107-111 | a key name holds the key of the last model written under it |
| ModelStorage.ReadList | src/stores/aiModels.js:147-165 | a list is found only when it is a non-empty array |
| ModelStorage.ApplyStoredKeys | src/stores/aiModels.js:169-176 | each loaded model takes its truthy `<id>_api_key` item |
| ModelStorage.LoadModelsFromLocalStorage | src/stores/aiModels.js:140-199 | returns the main list (else the backup) with stored keys laid over it, and the settings' default model (else `defaultAiModel`); an unparsable list gives `[]` and `''` |
| ModelStorage.SaveThenLoad | src/stores/aiModels.js:78-199 | with distinct ids, loading after a save returns the simplified records and the saved selection when it was non-empty |
| ModelStorage.StoredKeyAfterSave | src/stores/aiModels.js:107-111 | after a save with distinct ids, each record's stored key is its own |

## Left out

- Network I/O is not modelled: `fetch` and axios in the analysis service, `api.service.js`, `auth.service.js`, and the server calls of the model store (`loadModels`, `testConnection`, `saveModel`, `saveSettings`). `fetchWithRetry` is modelled only against an abstract transport.
- Timers and async code are not modelled: the backoff sleep (the waits are recorded instead), `registerBeforeUnloadEvent`, `Promise` plumbing and `FileReader`.
- The rule table and JS `RegExp` matching in `analyzeWithRules` and `getDefaultRules` are left out. The issues each file yields are an input to `RulesAnalysis`.
- `Date.now` is a parameter (`now`, `savedAt`). `Math.random` ids, ISO timestamps and `console` logging are dropped. The `timestamp` of `handleError` is not modelled.
- `JSON.stringify` and `JSON.parse` are abstracted into datatypes.
  - In `Storage`, a stored item is an expiring record or raw text. A parsed value with no `expiry` field is not modelled.
  - In `ModelStorage`, a stored item is a model list, a settings record, a key map or text.
- Numbers are integers. `Math.round` of a mean of non-negative scores is the round-half-up integer mean. Fractional scores are not modelled.
- Object key order is modelled only where it decides the output, in `groupIssuesByFile`. Elsewhere, including the key walk of `extractIssuesFromResults` and `{...data, unknownFormat: true}`, keys keep insertion order, so integer-like keys are not moved to the front.
- The `path` argument of `extractIssuesFromResults` is left out: nothing reads it.
- IssueExtraction.ExtractIssues: the contract states the head property only. It does not promise that the issues found are non-null objects: an array whose first element is an issue is returned whole, whatever its later elements are. The recursion rules are stated by its body and by `ExtractedOccur` and `ExtractIdempotent`.
- Normalizer.StandardizeResults and Normalizer.Standardized.Ingest require `Normalizer.Ingestible`. Every case it excludes is one where the JS code throws, except one: a truthy `score` that is not a number or `true` (a string such as `"90"`, an array, an object). JS would add such a score to the sum by string concatenation and then parse it back as a number. That needs JS number parsing and floating point, which are not modelled.
- Grouping.FileKey: for an array file name, `String()` joins the elements with commas; an array whose elements all print empty gives the key `""`, so the contract promises a non-empty key only for other names.
- Grouping.GroupIssues, Normalizer.Standardized.GroupIssuesByFile, Languages.GuessLanguageFromFileName and Languages.GetLanguageFromExtension: file names and extensions that name `Object.prototype` properties (`constructor`, `toString`, `__proto__`) are not modelled. In JS, `grouped[name]` and `languageMap[ext]` would find the inherited property there instead of a missing entry.
- JsValue.ToLower: only ASCII letters are lower-cased. JS `toLowerCase` maps other letters too (the Kelvin sign U+212A becomes `k`), so such an extension is looked up differently.
- JsValue.Get: an object that repeats a key (which no JS object has) is read at its first entry. `Normalizer.Ingestible` does not require distinct keys, so such an object is accepted: its reads see the first entry, and `IssueExtraction.ExtractIssues` walks every entry, the repeated ones included.
- AiCheck.CheckForAiResults requires `Scannable`. It excludes a null payload, null file records or issues, and a truthy `fileResults` or `issues` that is not an array. A string there would be indexed character by character by the JS loops; that case is not modelled.
- `safeGetAuthToken`, `setUserData` and `getUserData` are one-line wrappers and are not modelled separately. `getUserData` is `GetWithExpiry` on key `user`.
- The `catch` fallbacks of `saveModelsToLocalStorage` are not modelled: the minimal `aiModelsApiKeys` backup written after a quota error. The `catch` of `loadModelsFromLocalStorage` is modelled only for an unparsable list.
- ModelStorage.LoadModelsFromLocalStorage: a stored value under `<id>_api_key` or `defaultAiModel` that is not text is read as absent.
- AiModels.RepairModel and AiModels.ModelsStore.RepairModels: an absent field is read as `""`, so the TypeErrors of the source on absent fields are not modelled. A model with no `id` and no `provider` makes `getProviderFromId(undefined)` throw (src/stores/aiModels.js:932, 508); a deepseek model with no `modelId` and no `name` throws on `model.name.includes` (943); with no active model, a deepseek model with no `name` and another `modelId` throws inside the `find` (951-954). `repairModels` runs outside any `try` in `loadFromLocalStorage` (910), so that load throws too. The model instead guesses provider `unknown`, picks `deepseek-chat`, and goes on to activate a model. `testResult` is not modelled.
- KeyStore.Store / KeyStore.WithKey: the key order is an assumption. The store appends a new key and keeps the relative order of the others when one is removed. The Web Storage standard leaves the order of `localStorage.key(i)` to the browser and keeps it stable only while the number of keys does not change. The key-order clauses of the writers (Storage.SetAuthToken, Storage.GetAuthToken, AiModels.ModelsStore.SaveApiKey, AiModels.ModelsStore.BackupApiKeys, ModelStorage.WriteApiKeys, ModelStorage.SaveModelsToLocalStorage), the lemmas ModelStorage.WriteKeyOrderExtends and ModelStorage.SaveKeysExtends, and the proof that Cleanup.RemoveDoomed's descending loop visits every key rest on it.
- ErrorHandler.HandleError and ErrorHandler.GetUserFriendlyMessage require `Readable`: a truthy `message` is a string. A number, boolean or plain-object message makes `message.includes` throw, so excluding it is exact. An array message does not throw: `Array.prototype.includes` tests whether an element equals the word, so `{message: ["404"]}` is a network error. Array messages are not modelled.
- AiModels.ModelsStore.RestoreApiKeys: keys of the backup map that name `Object.prototype` properties are not modelled. Any other stored kind under `ai_model_api_keys` counts as unreadable.
- AiModels.ModelsStore.SaveApiKey: the `saveToLocalStorage` call and the connection test that follow the key write are not modelled. The pushed model is a copy, so later aliasing of the caller's object is not captured.
- The model store's state is held in one class. Pinia reactivity is not modelled.
- Other files are not part of this model: `auth.store.js`, `user.js`, `router/index.js`, `main.js`, `server/index.js` and `core/symbol-resolver/cli.js`.

## Findings

| source | as written | input that shows it | evidently intended | confidence | as-written member | corrected member |
|---|---|---|---|---|---|---|
| src/services/analysisService.js:66-75 | the `Error` thrown for a 401 inside the `try` is caught by the same loop's `catch`, so a 401 is retried like a transport error | retries 3; the first call answers 401, the second answers 200: the call returns the 200 after one wait | the comment on the branch says a 401 is an authentication failure that is not retried: the call should end with the authentication error | high (not executed) | Retry.UnauthorizedRetried | Retry.FetchStoppingOnUnauthorized |
