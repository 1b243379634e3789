# Ollama Content Studio — a verified model of its core

Ollama Content Studio is a React web application. It generates text with a
local Ollama inference daemon and records each generation in a Supabase
table. This project models its core in Dafny and proves properties of that
model:

- **The daemon client** (`src/utils/ollamaService.js`):
  - the newline-delimited JSON reader for generation streams and for model-pull progress;
  - the multi-model fallback;
  - the mapping of every failure to a `{success: false, error}` value;
  - the health check, the model listing, pull, delete and info calls.
- **The generation service** (`src/utils/contentService.js`):
  - the record lifecycle `pending → generating → completed | failed` around the fallback call, including the fail-fast path;
  - the streaming callback that completes the record;
  - paging of the history;
  - the hand-computed statistics used when the statistics function throws.
- **The Supabase error mapping** (`src/utils/supabaseClient.js`).
- **Page logic**:
  - the model-management page: filter, stable sort, size categories and the selection list;
  - the content-generation page: generate guard, queue, cancel, retry, regenerate, save, and the simulated streaming interval;
  - the generation-queue panel;
  - the model picker's name classification and loading;
  - the dashboard's statistics cards and recent-content list;
  - the storage banner;
  - the breadcrumb trail.

## How things are represented

- **Network calls.** A `fetch` is a `Fetched` value: a rejection with its message, or a reply with its status.
- **Response bodies.**
  - A body read as JSON is a `JsonRead`: a value, or the message of the error the read throws.
  - A streamed body is a `ChunkStream`: the decoded chunks, plus the error of the read that fails, if any.
- **JSON parsing of one line** is a function parameter returning an optional object.
- **Callbacks** (`onProgress`) become the returned sequence of calls they receive.
- **The daemon, the Supabase table and the statistics function** are parameters or a class holding the rows; faults are parameters too.
- **Randomness, clocks and timers** are explicit parameters or methods: the connection draw, `Date.now()`, the timeout and each interval tick.
- **Integer arithmetic.** Numbers are integers. `Math.round(p / q)` is computed exactly as `(2p + q) div 2q`, and sizes and thresholds are compared as products instead of quotients.
- **Stateful pages.** Pages whose state changes step by step (`useState` setters) are classes. Their methods state the whole new state in terms of the old one.

## Model

| member | source | states |
|---|---|---|
| `SupabaseClient.HandleSupabaseError` | src/utils/supabaseClient.js:13-22 | Connectivity failures ("Failed to fetch", "AuthRetryableFetchError") map to the fixed "project may be paused" text; other errors keep their message; an error without one gets "An error occurred during <operation>" |
| `SupabaseClient.PausedTextOnlyForConnectivity` | src/utils/supabaseClient.js:16-21 | The paused-project text appears exactly for connectivity failures (or when it already is the message); the generic fallback appears only without a message |
| `OllamaService.ConfigFromEnv` | src/utils/ollamaService.js:2-6 | The base URL and default model fall back to `http://localhost:11434` and `llama2` when unset or empty; streaming is on exactly when the variable is the string `'true'` |
| `OllamaService.HttpErrorNamesStatus` | src/utils/ollamaService.js:83-85 | `HTTP error! status: <code>` texts are equal exactly when the status codes are |
| `OllamaService.CheckHealth` | src/utils/ollamaService.js:9-24 | Connected (and successful) exactly when the reply is 2xx and its body parses, with the body as `models`; a rejected fetch or an unparsable 2xx body gives the fixed cannot-connect error; a non-2xx reply is disconnected without error |
| `OllamaService.GetAvailableModels` | src/utils/ollamaService.js:27-51 | Success exactly for a 2xx reply whose body parses; the listing is projected to name/size/modified_at/digest in order, or `[]` without a `models` field; a failure has `models = []` and a non-empty error, `Failed to fetch models` for a non-2xx reply |
| `OllamaService.LinesAppend` | src/utils/ollamaService.js:119-120 | Lines are split per chunk: the lines of two chunk lists together are the lines of each, so no text is carried over between chunks |
| `OllamaService.HandleStreamingResponse` | src/utils/ollamaService.js:108-158 | The nested read loop (chunks, then lines) returns exactly the result and the callbacks of the specification `StreamOutcome` |
| `OllamaService.StreamEndsAtDone` | src/utils/ollamaService.js:131-139 | Once a `done` object has been read, no later line of that chunk or later chunk changes anything |
| `OllamaService.StreamCallbacksAccumulate` | src/utils/ollamaService.js:122-151 | Every callback carries a non-empty text and, as accumulated text, the in-order concatenation of all texts reported so far; a successful result's content is the concatenation of every reported text |
| `OllamaService.ScanConsistent` | src/utils/ollamaService.js:122-129 | The reader's accumulator always equals the concatenation of the reported texts, line after line |
| `OllamaService.SkippedLineIsInvisible` | src/utils/ollamaService.js:123-142 | Removing a blank or unparsable line from the input changes neither the result nor the callbacks |
| `OllamaService.ScanMatchesObjects` | src/utils/ollamaService.js:122-139 | Against an independent description over the parsed objects: the accumulator is the texts up to the first `done` object, and reading has stopped exactly when there is one, keeping the first |
| `OllamaService.SplitObjectIsLost` | src/utils/ollamaService.js:119-125 | An object split across two chunks is lost (empty content, no callback), while the same bytes in one chunk give its text |
| `OllamaService.TerminalObjectMakesNoCallback` | src/utils/ollamaService.js:126-139 | For `Hel`, `lo` and a text-less `done` object, there are two callbacks (`Hel`, `Hello`), none with `done` set, and the result is `Hello` |
| `OllamaService.PullEndsAtSuccess` | src/utils/ollamaService.js:245-250 | Once a `success` object has been read, later lines and chunks change nothing |
| `OllamaService.HandlePullProgress` | src/utils/ollamaService.js:226-268 | The pull read loop returns exactly the result and the forwarded objects of the specification `PullOutcome` |
| `OllamaService.PullForwardsObjects` | src/utils/ollamaService.js:239-250 | The callback receives exactly the parsed objects up to and including the first `success` one, and reading finished exactly when such an object came |
| `OllamaService.PullModelOutcome` | src/utils/ollamaService.js:194-223 | Failures carry a text, a non-2xx reply fails with its status, success needs a 2xx reply, nothing is forwarded without a callback, and without a callback the body's status is returned |
| `OllamaService.PullModel` | src/utils/ollamaService.js:194-223 | The method returns what `PullModelOutcome` specifies |
| `OllamaService.DeleteModel` | src/utils/ollamaService.js:271-295 | Success exactly for a 2xx reply, with a message `Model <name> …`; failures carry a text, the status for a non-2xx reply |
| `OllamaService.GetModelInfo` | src/utils/ollamaService.js:298-323 | Success exactly for a 2xx reply with a parsable body, returning that body; failures carry a text, the status for a non-2xx reply |
| `OllamaService.RequestFor` | src/utils/ollamaService.js:54-81 | The request goes to `<base>/api/generate` with the prompt, the given model or the default one, and streaming as requested or else as configured |
| `OllamaService.GenerateOutcomeCases` | src/utils/ollamaService.js:83-104 | A non-2xx reply fails with its status; success needs a 2xx reply; callbacks happen only when streaming with a callback, and then the stream reader decides; otherwise the JSON body's fields are returned |
| `OllamaService.GenerateContent` | src/utils/ollamaService.js:54-105 | The method returns what `GenerateOutcome` specifies |
| `OllamaService.Without` | src/utils/ollamaService.js:164 | The filtered list is no longer than the original and holds exactly its entries other than the removed model |
| `OllamaService.WithoutKeepsOrder` | src/utils/ollamaService.js:164 | Surviving entries keep their relative order |
| `OllamaService.Candidates` | src/utils/ollamaService.js:164 | The primary model comes first, does not reappear, and the candidates are exactly the primary and the fallbacks |
| `OllamaService.WithoutCounts` | src/utils/ollamaService.js:164 | The filter drops every copy of the removed model and keeps every other entry exactly as often as it occurs |
| `OllamaService.WithoutAppend` | src/utils/ollamaService.js:164 | The filter distributes over concatenation, so kept entries stay in their order |
| `OllamaService.CandidatesKeepFallbacks` | src/utils/ollamaService.js:164 | After the primary, the candidates are the fallback list with the primary removed: every other fallback as often as listed (duplicates kept), in order |
| `OllamaService.CandidatesDistinct` | src/utils/ollamaService.js:164 | With a repeat-free fallback list, each model is tried at most once |
| `OllamaService.OutcomesAreAttempts` | src/utils/ollamaService.js:166-171 | Attempt `j` is `generateContent` with candidate `j` in place of the model |
| `OllamaService.PickFirstSuccess` | src/utils/ollamaService.js:166-190 | The result fails exactly when every attempt failed, and then carries the fixed error and every candidate; otherwise it is the first successful attempt, with its model and `fallbackUsed` exactly when it is not the first candidate |
| `OllamaService.FallbackPicksFirstSuccess` | src/utils/ollamaService.js:161-190 | The same, for `generateWithFallback` with the client's defaults and fallback list |
| `OllamaService.PickStep` | src/utils/ollamaService.js:166-184 | One loop step: a success returns at once; a failure moves on, keeping that attempt's callbacks before the later ones |
| `OllamaService.GenerateWithFallback` | src/utils/ollamaService.js:161-191 | The loop over the candidates returns what `FallbackOutcome` specifies |
| `ContentService.NewRowIsPending` | src/utils/contentService.js:10-18 | A new row is `pending`, has the prompt length (0 without a prompt) and the metadata or `{}`, and no result columns |
| `ContentService.ApplyFrame` | src/utils/contentService.js:37-41 | An update never touches the identifying columns, the prompt or the metadata; each result column takes the patch's value if it has one |
| `ContentService.ApplyIdempotent` | src/utils/contentService.js:37-41 | Applying the same update twice equals applying it once |
| `ContentService.GenerationStore.CreateContentGeneration` | src/utils/contentService.js:6-30 | A failing insert changes nothing and returns the mapped error; otherwise the new row goes under a fresh id and is returned |
| `ContentService.GenerationStore.UpdateContentGeneration` | src/utils/contentService.js:33-53 | The row with the id is patched and returned; a failing call or a missing row changes nothing and returns a mapped error |
| `ContentService.ApplyUpdateFrame` | src/utils/contentService.js:33-53 | An update keeps the set of rows, patches only the selected row, and on failure touches none |
| `ContentService.ApplyUpdatesKeys` | src/utils/contentService.js:33-53 | A sequence of updates never adds or removes rows |
| `ContentService.ReplayCallback` | src/utils/contentService.js:125-137 | The wrapped callback over each report in turn: forward it, and issue the `completed` update for a `done` report when there is a record |
| `ContentService.ReplayOne` | src/utils/contentService.js:125-137 | One call of the wrapped callback |
| `ContentService.StartRecord` | src/utils/contentService.js:102-120 | Insert the record and then mark it `generating`; a failed insert stops there |
| `ContentService.BeginRun` | src/utils/contentService.js:97-123 | With saving, insert and mark `generating` (a failed insert ends the run); then issue the fallback call |
| `ContentService.EndRun` | src/utils/contentService.js:140-177 | The updates and result after the fallback call has returned |
| `ContentService.FinishRun` | src/utils/contentService.js:140-177 | The final update, if any, and the result |
| `ContentService.GenerateContent` | src/utils/contentService.js:88-194 | The calls in order, with the wrapped callback replayed per report, end in the state and result of the specification `Lifecycle` |
| `ContentService.CallbackForwardsAll` | src/utils/contentService.js:125-126 | The caller's callback receives every report unchanged and in order |
| `ContentService.CallbackWithoutRecord` | src/utils/contentService.js:129 | Without a record, the wrapped callback only forwards |
| `ContentService.CallbackStatus` | src/utils/contentService.js:129-135 | With working updates, the record ends `completed` exactly when some report was `done`, and otherwise keeps its status |
| `ContentService.CreateFailureFailsFast` | src/utils/contentService.js:102-112 | With saving, a failed insert is returned unchanged, and no update and no inference call happen |
| `ContentService.RecordStartsBeforeInference` | src/utils/contentService.js:114-123 | The record is created, then set to `generating`, and only then is the fallback call made |
| `ContentService.EveryReportForwarded` | src/utils/contentService.js:125-126 | Unless the insert fails, the caller's callback receives exactly the fallback call's reports, unchanged and in order |
| `ContentService.RecordStartsPending` | src/utils/contentService.js:103-108 | The record is created `pending`, with the start time as its metadata |
| `ContentService.LifecycleSaved` | src/utils/contentService.js:100-177 | With saving and a successful insert, the run is the saved head, then the callback's calls, then the finish |
| `ContentService.LifecycleUnsaved` | src/utils/contentService.js:98-177 | Without saving, the run is the fallback call, the forwards, then the finish |
| `ContentService.FinishExtends` | src/utils/contentService.js:140-177 | The finish only appends backend calls and forwards no report |
| `ContentService.FailureMarksRecordFailed` | src/utils/contentService.js:140-151 | When every model fails, the record is set `failed` with the fallback's error and the elapsed time, and the fallback's result is returned unchanged |
| `ContentService.UnstreamedSuccessCompletesRecord` | src/utils/contentService.js:153-169 | With streaming off, a success records `completed`, the content, its length and the elapsed time, and the updated row is returned |
| `ContentService.NoRecordWithoutSaving` | src/utils/contentService.js:98-177 | Without saving, no backend call is made and no record is returned |
| `ContentService.StreamedRows` | src/utils/contentService.js:125-177 | The table after a streamed run that has a record |
| `ContentService.StreamedRecordCompletesOnlyOnDoneReport` | src/utils/contentService.js:129-135 | With streaming on, the record becomes `completed` exactly when some forwarded report was `done`; otherwise it stays `generating` after a successful call |
| `ContentService.SelectRows` | src/utils/contentService.js:60-73 | Exactly the user's rows passing the type and status filters, no longer than the table |
| `ContentService.SelectRowsCounts` | src/utils/contentService.js:60-73 | Each selected row is returned as often as the table holds it, and no other row |
| `ContentService.SelectRowsAppend` | src/utils/contentService.js:60-73 | Selection distributes over concatenation, so the rows keep the table's order |
| `ContentService.GetUserGenerations` | src/utils/contentService.js:56-85 | A failing call returns the mapped error; otherwise at most `limit` (default 50) selected rows |
| `ContentService.PageIsRange` | src/utils/contentService.js:58-65 | The page is the run of selected rows starting at `offset` (default 0), short only at the end of the rows |
| `ContentService.CountStatus` | src/utils/contentService.js:285-286 | A status count never exceeds the row count |
| `ContentService.StatusCountsBounded` | src/utils/contentService.js:284-286 | Completed plus failed never exceeds the total |
| `ContentService.ComputeStats` | src/utils/contentService.js:283-296 | The result is exactly `StatsOf(rows)`: the counts and the time sum (missing as 0) are whole-list filters and a sum, as in the source, and the `forEach` loop builds the breakdown, its invariant tying it to `Breakdown` of the rows visited so far |
| `ContentService.BreakdownCounts` | src/utils/contentService.js:293-296 | The breakdown has one entry per content type present, no key twice, positive counts equal to each type's row count, and counts summing to the total |
| `ContentService.TimeframeDays` | src/utils/contentService.js:259-270 | `7d` gives 7 and `30d` (the default) gives 30; anything else gives 90 |
| `ContentService.GetGenerationStats` | src/utils/contentService.js:255-303 | The statistics function's data (or its mapped error) is returned; only when it throws are the rows queried and reduced by hand, or the query's error mapped |
| `ModelManagement.CategoryOf` | src/pages/model-management/index.jsx:199-205 | Small, medium, large and xlarge exactly on the byte intervals below 1, 5 and 15 GiB and from 15 GiB on |
| `ModelManagement.CategoryMonotone` | src/pages/model-management/index.jsx:199-205 | A bigger model never falls in a smaller category |
| `ModelManagement.KeptCounts` | src/pages/model-management/index.jsx:167-174 | The filter keeps each matching model exactly as often as it occurs, and no other model |
| `ModelManagement.KeptAppend` | src/pages/model-management/index.jsx:167 | The filter preserves order (it distributes over concatenation) |
| `ModelManagement.EmptyQueryKeepsAll` | src/pages/model-management/index.jsx:168-171 | An empty query with type and size `all` matches every model |
| `ModelManagement.LexCompare` | src/pages/model-management/index.jsx:180-192 | The string comparison returns -1, 0 or 1 |
| `ModelManagement.LexCompareFlip` | src/pages/model-management/index.jsx:180-192 | Swapping the arguments flips the sign, and only equal strings compare 0 |
| `ModelManagement.CompareFlip` | src/pages/model-management/index.jsx:177-194 | Every `sortBy` comparator is antisymmetric |
| `ModelManagement.InsertPermutes` | src/pages/model-management/index.jsx:177 | Inserting adds exactly the one model |
| `ModelManagement.InsertKeepsSorted` | src/pages/model-management/index.jsx:177 | Inserting into a sorted list keeps it sorted |
| `ModelManagement.SortPermutes` | src/pages/model-management/index.jsx:177-194 | The sort returns a permutation of its input |
| `ModelManagement.SortIsSorted` | src/pages/model-management/index.jsx:177-194 | The sort returns its input in the order of `sortBy` |
| `ModelManagement.FilterModelsSpec` | src/pages/model-management/index.jsx:166-197 | `filterModels` returns each matching model as often as it occurs, no other model, sorted by `sortBy` |
| `ModelManagement.WithoutIdMembers` | src/pages/model-management/index.jsx:215 | Deselecting removes every entry with the id and keeps every other |
| `ModelManagement.WithoutIdAppend` | src/pages/model-management/index.jsx:215 | Deselecting keeps the remaining entries in order |
| `ModelManagement.WithoutAbsentId` | src/pages/model-management/index.jsx:215 | Deselecting an id nobody has changes nothing |
| `ModelManagement.DeselectUndoesSelect` | src/pages/model-management/index.jsx:211-217 | Selecting a new model and deselecting it restores the selection |
| `ModelManagement.AllSelectedByLengthOnly` | src/pages/model-management/index.jsx:290-291 | `isAllSelected` compares lengths only: a selection can count as all selected while a shown model is not in it |
| `ModelManagement.ModelManagementPage.constructor` | src/pages/model-management/index.jsx:14-19 | Installed tab, cleared filters, empty selection |
| `ModelManagement.ModelManagementPage.SelectModel` | src/pages/model-management/index.jsx:211-217 | Select appends at the end; deselect drops every entry with that id; nothing else changes |
| `ModelManagement.ModelManagementPage.SelectAll` | src/pages/model-management/index.jsx:219-222 | The selection becomes the current tab's filtered list, and the page is then all selected exactly when that list is non-empty |
| `ModelManagement.ModelManagementPage.DeselectAll` | src/pages/model-management/index.jsx:224-226 | The selection empties |
| `ModelManagement.ModelManagementPage.SwitchTab` | src/pages/model-management/index.jsx:346-361 | The tab changes and the selection empties |
| `ModelManagement.ModelManagementPage.BrowseAvailable` | src/pages/model-management/index.jsx:420-422 | The browse button switches to the available tab and keeps the selection |
| `ModelManagement.ModelManagementPage.ClearFilters` | src/pages/model-management/index.jsx:282-287 | Query `''`, type and size `all`, sort `name`; tab and selection stay |
| `ContentGeneration.CancelItems` | src/pages/content-generation/index.jsx:187-193 | Same length; items with the id become `cancelled` with everything else kept; other items are unchanged |
| `ContentGeneration.RetryItems` | src/pages/content-generation/index.jsx:203-209 | Same length; items with the id become `queued` at progress 0; other items are unchanged |
| `ContentGeneration.CancelIdempotent` | src/pages/content-generation/index.jsx:187-193 | Cancelling twice is cancelling once |
| `ContentGeneration.RetryAfterCancel` | src/pages/content-generation/index.jsx:187-209 | A retry after a cancel equals the retry alone |
| `ContentGeneration.OtherItemsUntouched` | src/pages/content-generation/index.jsx:187-209 | Items with another id are never changed by cancel or retry |
| `ContentGeneration.Progress` | src/pages/content-generation/index.jsx:98 | Progress before the final step is in 0..100, is 0 at step 0, and is 100 exactly when at most half a percent of the words is left (only possible with 200 or more words) |
| `ContentGeneration.ProgressMonotone` | src/pages/content-generation/index.jsx:98 | Progress never decreases from step to step |
| `ContentGeneration.StreamStepAddsWord` | src/pages/content-generation/index.jsx:96 | Each step after the first adds one space and the next word to the shown text |
| `ContentGeneration.LastStepShowsContent` | src/pages/content-generation/index.jsx:89-96 | The last step shows the whole text |
| `ContentGeneration.ContentToSave` | src/pages/content-generation/index.jsx:155-161 | Nothing to save exactly when both texts are empty; the streamed text wins over the finished one |
| `ContentGeneration.ContentGenerationPage.constructor` | src/pages/content-generation/index.jsx:16-25 | Blog, `llama2`, empty prompt and output, progress 0, still connecting |
| `ContentGeneration.ContentGenerationPage.Edit` | src/pages/content-generation/index.jsx:16-18 | The setters change the type, model and prompt and nothing else |
| `ContentGeneration.ContentGenerationPage.ConnectionChecked` | src/pages/content-generation/index.jsx:66-85 | The connection status becomes the drawn status |
| `ContentGeneration.ContentGenerationPage.Generate` | src/pages/content-generation/index.jsx:112-147 | Nothing changes for a blank prompt or a status other than `connected`; otherwise generating starts, output and progress clear, one `generating` item (progress 0, estimate words/10, the canned text for the type or else the blog text) goes in front of the queue, and streaming is scheduled |
| `ContentGeneration.ContentGenerationPage.Regenerate` | src/pages/content-generation/index.jsx:149-153 | Nothing changes without finished or streamed text; otherwise it acts as `Generate` |
| `ContentGeneration.ContentGenerationPage.StartStreaming` | src/pages/content-generation/index.jsx:88-146 | The scheduled text is split into words, the shown text and progress reset, and the interval starts |
| `ContentGeneration.ContentGenerationPage.Tick` | src/pages/content-generation/index.jsx:94-107 | Step `i` shows the first `i+1` words at progress `round(i·100/n)`; after the last word the interval stops at 100 and generation ends, and the finished text becomes the `streamingText` the closure captured at generate time, not the streamed text |
| `ContentGeneration.ContentGenerationPage.Cancel` | src/pages/content-generation/index.jsx:186-200 | Matching items become `cancelled`; a running generation stops with empty text and progress 0; the interval keeps running |
| `ContentGeneration.ContentGenerationPage.Retry` | src/pages/content-generation/index.jsx:202-210 | Matching items become `queued` at progress 0 |
| `GenerationQueue.StatusStyle` | src/pages/content-generation/components/GenerationQueue.jsx:11-39 | Unknown statuses (such as `cancelled`) get exactly `Circle`/`text-muted-foreground`; known ones get their own icon; icons agree exactly when colours do |
| `GenerationQueue.FormatTimeEstimateReadsBack` | src/pages/content-generation/components/GenerationQueue.jsx:41-46 | Reading the text back gives the seconds, so `60·m + r = s` with `r < 60` |
| `GenerationQueue.FormatTimeEstimateInjective` | src/pages/content-generation/components/GenerationQueue.jsx:41-46 | Different estimates print differently |
| `GenerationQueue.ActiveCount` | src/pages/content-generation/components/GenerationQueue.jsx:55 | The count of `queued` or `generating` items is at most the queue length |
| `GenerationQueue.CancelNeverAddsActive` | src/pages/content-generation/components/GenerationQueue.jsx:55 | Cancelling never increases the active count, and changes it only when an active item has the id |
| `GenerationQueue.RetryMakesActive` | src/pages/content-generation/components/GenerationQueue.jsx:55 | Retrying never decreases the active count and makes every item with the id active |
| `GenerationQueue.RendersNothingOnlyWhenEmpty` | src/pages/content-generation/components/GenerationQueue.jsx:7-9 | The panel renders nothing exactly for a missing or empty queue; cancel and retry never change that |
| `GenerationQueue.ErrorBoxOnlyWhenFailed` | src/pages/content-generation/components/GenerationQueue.jsx:127-168 | The error box goes with a failed item, whose only button is then Retry; a retried or cancelled item never shows it; other items keep theirs |
| `GenerationQueue.ActionsByStatus` | src/pages/content-generation/components/GenerationQueue.jsx:127-163 | Cancel exactly for `generating`, Retry exactly for `failed`, View exactly for `completed`; at most one button |
| `GenerationQueue.EtaText` | src/pages/content-generation/components/GenerationQueue.jsx:102-104 | The ETA line is shown exactly for a present non-zero estimate |
| `ModelSelector.ThirteenContainsThree` | src/pages/content-generation/components/ModelSelector.jsx:57-59 | A name containing `13b` also contains `3b` |
| `ModelSelector.FirstMatchWins` | src/pages/content-generation/components/ModelSelector.jsx:53-61 | A `code` name is Code whatever else it holds; a `13b` name without code/chat/neural is Large, never Compact |
| `ModelSelector.CodeLlamaIsCode` | src/pages/content-generation/components/ModelSelector.jsx:55 | `codellama:13b` is Code |
| `ModelSelector.LlamaTestIsSubsumed` | src/pages/content-generation/components/ModelSelector.jsx:57 | The `llama2:13b` test is implied by the `13b` test |
| `ModelSelector.FindModel` | src/pages/content-generation/components/ModelSelector.jsx:47 | `None` exactly when no model has the name; otherwise the index of the first one that does |
| `ModelSelector.GetModelInfo` | src/pages/content-generation/components/ModelSelector.jsx:46-69 | Null exactly for a name not in the list; otherwise a listed model with that name and the classification of the name |
| `ModelSelector.Picker.constructor` | src/pages/content-generation/components/ModelSelector.jsx:13-15 | No models, loading, no error |
| `ModelSelector.Picker.LoadModels` | src/pages/content-generation/components/ModelSelector.jsx:21-44 | A successful non-empty listing replaces the models and auto-selects the first name only when none is selected; otherwise the error is set and the list kept; loading always ends |
| `StatsCards.SuccessRateBounds` | src/pages/dashboard/components/StatsCards.jsx:58-62 | With completed ≤ total, the rate is in 0..100, is 100 exactly when at most half a percent did not complete, and never drops as completions grow |
| `StatsCards.ComputedSuccessRate` | src/pages/dashboard/components/StatsCards.jsx:58-62 | For the service's own statistics the rate is a percentage |
| `StatsCards.MaxIndex` | src/pages/dashboard/components/StatsCards.jsx:69 | The reduce keeps an entry of maximal count, and no later entry has that count (ties go to the later entry) |
| `StatsCards.CapitalizeWords` | src/pages/dashboard/components/StatsCards.jsx:70 | Upper-casing word starts keeps the length |
| `StatsCards.TypeLabelKeepsLetters` | src/pages/dashboard/components/StatsCards.jsx:70 | The label differs from the key only in letter case and its first underscore |
| `StatsCards.OnlyFirstUnderscore` | src/pages/dashboard/components/StatsCards.jsx:70 | `a_b_c` is labelled `A B_c` |
| `StatsCards.MostUsedIsLastMaximum` | src/pages/dashboard/components/StatsCards.jsx:64-71 | A non-empty breakdown names an entry of maximal count, with no later entry of equal count |
| `StatsCards.TimeUnitOf` | src/pages/dashboard/components/StatsCards.jsx:52-56 | ms exactly below 1000, s exactly from 1000 to below 60000, m exactly from 60000 |
| `StatsCards.MillisTextIsNearest` | src/pages/dashboard/components/StatsCards.jsx:53 | The millisecond text is the nearest whole number of milliseconds (halves up) followed by `ms`, and `0ms` with nothing to average |
| `StatsCards.TimeUnitMonotone` | src/pages/dashboard/components/StatsCards.jsx:52-56 | A longer average never gets a smaller unit |
| `StatsCards.PerformanceOf` | src/pages/dashboard/components/StatsCards.jsx:211-213 | Exactly one message: below 5000, 5000 to below 15000, or from 15000 |
| `StatsCards.SummaryNeedsRows` | src/pages/dashboard/components/StatsCards.jsx:196-221 | For the service's statistics the summary shows once loaded exactly when there is a row, never while loading, and then averages over a non-zero count |
| `Rounding.RoundDivIsNearest` | src/pages/dashboard/components/StatsCards.jsx:61 | The rounded quotient is the nearest integer, halves going up |
| `Rounding.PercentBounds` | src/pages/content-generation/index.jsx:98 | A share of at most the whole rounds into 0..100; 100 exactly when at most half a percent is missing, 0 exactly below half a percent |
| `Rounding.PercentMonotone` | src/pages/content-generation/index.jsx:98 | A larger share never rounds to a smaller percentage |
| `RecentContentHistory.TimeAgoCases` | src/pages/dashboard/components/RecentContentHistory.jsx:71-80 | `Just now` below an hour (or in the future); 1 to 23 whole hours below a day; whole days from a day on |
| `RecentContentHistory.AgoDistinguishes` | src/pages/dashboard/components/RecentContentHistory.jsx:77-78 | Different counts of one unit give different texts |
| `RecentContentHistory.DigitsEndAtSpace` | src/pages/dashboard/components/RecentContentHistory.jsx:77-78 | The count's digits run up to the first space |
| `RecentContentHistory.ToggleSpec` | src/pages/dashboard/components/RecentContentHistory.jsx:82-84 | Only the toggled item can be expanded, exactly when it was not before; toggling twice restores the state unless another item was open |
| `RecentContentHistory.History.constructor` | src/pages/dashboard/components/RecentContentHistory.jsx:82-84 | No item is expanded |
| `RecentContentHistory.History.ToggleExpanded` | src/pages/dashboard/components/RecentContentHistory.jsx:82-84 | The expanded item becomes `Toggle` of the old one |
| `RecentContentHistory.TypeSlugSpec` | src/pages/dashboard/components/RecentContentHistory.jsx:65 | The slug is the lower-cased type with only its first space turned into `-` |
| `StorageWarning.LevelThresholds` | src/pages/model-management/components/StorageWarning.jsx:15-20 | Critical exactly from 90 % used, warning from 80 % to below 90 %, info below 80 % |
| `StorageWarning.LevelMonotone` | src/pages/model-management/components/StorageWarning.jsx:15-20 | For a fixed disk, more use never lowers the level |
| `StorageWarning.ConfigDistinct` | src/pages/model-management/components/StorageWarning.jsx:25-58 | Each level has its own title and its own action text |
| `StorageWarning.BarMatchesBanner` | src/pages/model-management/components/StorageWarning.jsx:25-105 | The bar colour is the banner background without its opacity; the settings button shows exactly with the critical title |
| `Breadcrumb.NonEmpty` | src/components/ui/Breadcrumb.jsx:20 | `filter(Boolean)` returns no empty piece, and every non-empty piece of the input is among the results |
| `Breadcrumb.NonEmptyCounts` | src/components/ui/Breadcrumb.jsx:20 | Each non-empty piece is kept as often as it occurs; the empty string not at all |
| `Breadcrumb.NonEmptyAppend` | src/components/ui/Breadcrumb.jsx:20 | The filter distributes over concatenation, so the pieces keep their order |
| `Breadcrumb.Segments` | src/components/ui/Breadcrumb.jsx:20 | Segments are non-empty and contain no `/` |
| `Breadcrumb.NormalisationIdempotent` | src/components/ui/Breadcrumb.jsx:20-24 | The normalised path has the same segments as the original, so normalising twice is normalising once |
| `Breadcrumb.DashboardPath` | src/components/ui/Breadcrumb.jsx:23-27 | `/dashboard` normalises to itself |
| `Breadcrumb.BreadcrumbsShape` | src/components/ui/Breadcrumb.jsx:19-33 | The trail starts at Dashboard and has 1 or 2 crumbs; the second exists exactly when the normalised path is not `/dashboard`, and carries that path and the mapped title or else the last segment |
| `Breadcrumb.RootHasUnlabelledCrumb` | src/components/ui/Breadcrumb.jsx:24-28 | At `/` the trail has a second crumb pointing at `/` with no label |
| `Breadcrumb.RenderedTrail` | src/components/ui/Breadcrumb.jsx:41-67 | A rendered trail has a clickable Dashboard crumb and a non-clickable current page, and the path is not the dashboard |
| `Text.Split` | src/utils/ollamaService.js:120 | `split` never returns an empty list, and no piece contains the separator |
| `Text.JoinSplit` | src/pages/content-generation/index.jsx:89-96 | Splitting and then joining at the same separator gives the string back |
| `Text.SplitJoin` | src/components/ui/Breadcrumb.jsx:20-24 | Joining separator-free pieces and then splitting gives the pieces back |
| `Text.ParseNatToString` | src/pages/content-generation/components/GenerationQueue.jsx:42-45 | Printing a number and reading the digits back gives the number |
| `Text.ReplaceFirstAt` | src/pages/dashboard/components/RecentContentHistory.jsx:65 | `replace` with a one-character pattern changes only the first occurrence |
| `Text.ContainsEmpty` | src/pages/model-management/index.jsx:168 | Every string contains the empty query |

## Left out

- HTTP transport, JSON parsing and the decoding of bytes to text are not modelled: they are parameters.
- The Supabase client, its queries and authentication are not modelled: the store is a map of rows and faults are parameters.
- `updated_at` is not modelled, and all clock reads after the inference call are one value.
- `ContentService.GenerateContent`: one update fault governs every `updateContentGeneration` call of a run, so a run where the `generating` update fails but a later update succeeds (or the reverse) is not expressed.
- `ContentService.GenerateContent`: the `Date.now()` of the streaming callback (src/utils/contentService.js:133) runs during inference, but the model gives it the same finish time as the reads after the call.
- `ContentService.GenerationStore.UpdateContentGeneration`: an update of a missing row gets the generic update message, whereas the client's `.single()` returns an error text of its own; the lifecycle only updates the row it created, so it never reaches this case.
- The catch path of `generateContent` (src/utils/contentService.js:179-193) is not modelled: every wrapped call returns its errors as values, so that path cannot be reached.
- The catch branch of `loadModels` ("Failed to load models") is not modelled: `getAvailableModels` never throws.
- A throwing `onProgress` callback is not modelled: the reader's inner `catch` would swallow it.
- Pull objects whose parse gives `null` are not modelled.
- The sampling options (`temperature`, `max_tokens`) are not part of the request model.
- Floating point is not modelled:
  - `toFixed(1)` for the seconds and minutes texts of `formatTime`, and the size in GB, are left out;
  - the percentages and thresholds are exact rational comparisons, so values that floats would round across a boundary are not covered;
  - `averageTime` is kept as a sum and a count.
- `formatSize` of the storage banner is left out (floating point and logarithms).
- `ModelManagement.SortPermutes`: stability of the sort is not stated, though the insertion sort is stable; the library sort works in place on a fresh array, and it is modelled on values.
- `ModelManagement.LexCompare`: `localeCompare` is modelled as code-unit order, with no locale collation.
- `Text.ToLower`: `toLowerCase` is modelled for ASCII letters only.
- `StatsCards.MaxIndex`: breakdown entries are taken in insertion order; `Object.entries` would list integer-like keys first.
- `ContentService.GetUserGenerations`: the table is given already ordered by `created_at`, newest first; the ordering itself is not modelled.
- The canned texts of the generation page are a parameter (a map holding at least the blog text), not the literal texts.
- Intervals: one streaming interval is modelled. Overlapping intervals from repeated generation are not, because a second generate while streaming replaces the modelled interval.
- The navigation state passed by the dashboard's regenerate button is modelled as its slug only; the target page does not read it.
- The model page's filter setters, `handleDownload` (a random progress simulation), clipboard copy, troubleshooting and the remaining pages (landing, authentication, header, sidebar) are not part of this model.
- `handleBulkDelete` is modelled only by its effect on the selection (`DeselectAll`); its log line is left out.
