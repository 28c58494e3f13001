# Nutriscan core, modelled in Dafny

Nutriscan (the `ingredient-insights` web app) scans a food label, or takes a
typed ingredient list, and sends it to an AI analysis function. It shows a
health score, a verdict and a per-ingredient breakdown, and lets the user
chat about the result. Its health profile (allergies, dietary restrictions,
health goals) is kept in the browser; its scan history is kept in a database
table. This project models the logic of that app and proves properties of
the model:

- **The streamed chat answer** (`Sse`, `AnalysisView`). The browser reads
  the chat relay's server-sent events, cuts complete lines, skips comments,
  blank lines and other fields, stops a read at `[DONE]`, appends each
  `data:` payload's delta, and pushes back a line it cannot parse. The
  conversation appends the user turn, then exactly one assistant turn.
- **The two edge functions** (`ChatRelay`, `AnalyzeHandler`, with `Http`
  holding what they share). They answer a CORS pre-flight, check the API key,
  build the AI gateway request (context text, message list, text or image
  content) and map the gateway status to a response. The analysis function
  also cuts the JSON out of a markdown code fence.
- **The client stores.** `ScanHistory` is the history list: prepend with a
  cap of 50, remove, clear, and rows read back into items. `UserProfileStore`
  is the profile: merge, storage, and load with a fallback.
- **The pages and components.**
  - `IndexPage`: view state machine and the analyze flow.
  - `Auth`: validation, chip toggles and toast texts.
  - `ProfileSheet`: tag inputs and suggestions.
  - `IngredientList`: severity sort, counts and badges.
  - `HealthScoreCard`: score bands.
  - `ChatInterface` and `IngredientInput`: submit guards.
- **Shared code.** `Types` holds the application's data types. `Strings` and
  `Lists` hold the JavaScript string and array operations the code relies on
  (`trim` with its whitespace set, `indexOf`, `slice`, `join`, `includes`,
  `filter`).

The external services become parameters of the model:

- **Network.** How a `fetch` ends is a value.
- **Database and auth.** How a Supabase query ends is a value.
- **Browser storage.** `localStorage` is a `map` field.
- **JSON.** `JSON.parse` and `JSON.stringify` are functions passed in as
  parameters.
- **Email check.** The zod email check is a predicate passed in as a
  parameter.
- **System prompts.** Each fixed system prompt is a string parameter.

State that the source updates in place is a Dafny `class`, with one method
per handler. Each async handler is one step over its state.

## Model

| member | source | states |
|---|---|---|
| Types.ParseLevel | ingredient-insights-main/ingredient-insights-main/src/types/nutriscan.ts:1 | a level string is accepted exactly when it is one of the four JSON spellings, and then maps back to that spelling |
| Types.ParseVerdict | ingredient-insights-main/ingredient-insights-main/src/types/nutriscan.ts:14 | a verdict string is accepted exactly when it is one of the four spellings, and then maps back to it |
| Types.LevelNameRoundTrip | ingredient-insights-main/ingredient-insights-main/src/types/nutriscan.ts:1 | every level survives being written and read back |
| Types.VerdictNameRoundTrip | ingredient-insights-main/ingredient-insights-main/src/types/nutriscan.ts:14 | every verdict survives being written and read back |
| Types.UnionsHaveFourMembers | ingredient-insights-main/ingredient-insights-main/src/types/nutriscan.ts:1-14 | `HealthLevel` and the verdict union have exactly four values each, all distinct |
| Types.MessageOr | ingredient-insights-main/ingredient-insights-main/src/pages/Index.tsx:80 | a caught `Error` gives its message; anything else thrown gives the fallback |
| Strings.IndexOf | ingredient-insights-main/ingredient-insights-main/src/components/nutriscan/AnalysisView.tsx:79 | `indexOf` gives -1 exactly when the character is absent, else its first position |
| Strings.NatToStringReadsBack | ingredient-insights-main/ingredient-insights-main/src/components/nutriscan/HealthScoreCard.tsx:51 | a natural number's decimal text is a non-empty digit string without a leading zero that reads back as the number |
| Strings.IntToStringDenotes | ingredient-insights-main/ingredient-insights-main/supabase/functions/chat-ingredients/index.ts:41 | an integer interpolated into a template is its sign followed by canonical digits reading back as its magnitude |
| Strings.Take | ingredient-insights-main/ingredient-insights-main/src/pages/Index.tsx:41 | `slice(0, n)` keeps the first `min(n, length)` characters (or array items, as for the shown suggestions), as a prefix |
| Strings.FindFrom | ingredient-insights-main/ingredient-insights-main/supabase/functions/analyze-ingredients/index.ts:150 | the search gives the first occurrence at or after the start, or -1 when there is none |
| Strings.JoinEmpty | ingredient-insights-main/ingredient-insights-main/supabase/functions/chat-ingredients/index.ts:46-48 | with a non-empty separator, `join` is empty only for `[]` and `['']` |
| Strings.JoinContains | ingredient-insights-main/ingredient-insights-main/supabase/functions/chat-ingredients/index.ts:43 | every element occurs in the joined text |
| Strings.ConcatContains | ingredient-insights-main/ingredient-insights-main/supabase/functions/chat-ingredients/index.ts:39-52 | every piece of a template occurs in the rendered text |
| Strings.TrimIgnoresTrailingSpace | ingredient-insights-main/ingredient-insights-main/src/components/nutriscan/ChatInterface.tsx:30 | adding trailing whitespace never changes what `trim()` gives |
| Lists.RemoveAll | ingredient-insights-main/ingredient-insights-main/src/components/nutriscan/ProfileSheet.tsx:117 | the filter keeps exactly the items other than the removed one, and leaves a list without it as it is |
| Lists.RemoveAllCounts | ingredient-insights-main/ingredient-insights-main/src/components/nutriscan/ProfileSheet.tsx:117 | the removed item's count drops to zero; every other item's count is kept |
| Lists.RemoveAllAppend | ingredient-insights-main/ingredient-insights-main/src/components/nutriscan/ProfileSheet.tsx:117 | removal commutes with concatenation, so the kept items stay in order |
| Lists.RemoveAllKeepsNoDup | ingredient-insights-main/ingredient-insights-main/src/pages/Auth.tsx:133 | removing from a duplicate-free list keeps it duplicate-free |
| Lists.Toggle | ingredient-insights-main/ingredient-insights-main/src/pages/Auth.tsx:131-135 | a present item is removed everywhere; an absent item is appended at the end |
| Lists.ToggleTwice | ingredient-insights-main/ingredient-insights-main/src/pages/Auth.tsx:131-141 | toggling an absent item twice restores the list |
| Lists.ToggleKeepsNoDup | ingredient-insights-main/ingredient-insights-main/src/pages/Auth.tsx:131-141 | toggling keeps a duplicate-free list duplicate-free |
| Lists.AppendKeepsNoDup | ingredient-insights-main/ingredient-insights-main/src/components/nutriscan/ProfileSheet.tsx:38-39 | appending an item not yet present keeps the list duplicate-free |
| Lists.TypedItem | ingredient-insights-main/ingredient-insights-main/src/components/nutriscan/ProfileSheet.tsx:37-42 | something is added exactly when the trimmed text is non-empty and not yet listed, and then it is the trimmed text |
| Lists.TypedItemIsNew | ingredient-insights-main/ingredient-insights-main/src/pages/Auth.tsx:143-148 | the typed item added never duplicates a listed one |
| Lists.Without | ingredient-insights-main/ingredient-insights-main/src/components/nutriscan/ProfileSheet.tsx:44 | the remaining suggestions are exactly those not already listed |
| Lists.WithoutAppend | ingredient-insights-main/ingredient-insights-main/src/components/nutriscan/ProfileSheet.tsx:44 | the filter keeps the suggestions in their original order |
| Http.GatewayFailure | ingredient-insights-main/ingredient-insights-main/supabase/functions/chat-ingredients/index.ts:78-95 | a failed gateway status gives a JSON error: 429 with the fixed rate-limit text, 402 with the fixed usage-limit text, any other status a 500 naming it |
| Http.GatewayFailureIsError | ingredient-insights-main/ingredient-insights-main/supabase/functions/analyze-ingredients/index.ts:117-134 | a failed gateway call never answers with a success status; its status is 429, 402 or 500, and is the gateway's own exactly for those three |
| Http.JoinOrFallback | ingredient-insights-main/ingredient-insights-main/supabase/functions/analyze-ingredients/index.ts:71-73 | the joined list is replaced by the fallback exactly for a missing list, an empty list or `['']` |
| ChatRelay.IngredientEntries | ingredient-insights-main/ingredient-insights-main/supabase/functions/chat-ingredients/index.ts:43 | one `name (level)` entry per analysed ingredient, in order |
| ChatRelay.ContextMentions | ingredient-insights-main/ingredient-insights-main/supabase/functions/chat-ingredients/index.ts:39-52 | the context text names the score, the verdict, the summary, every ingredient entry, each profile list (or `None`) and the original ingredients |
| ChatRelay.ContextMentionsEntry | ingredient-insights-main/ingredient-insights-main/supabase/functions/chat-ingredients/index.ts:43 | each ingredient entry occurs in the context text |
| ChatRelay.Projected | ingredient-insights-main/ingredient-insights-main/supabase/functions/chat-ingredients/index.ts:56-59 | the history becomes `{role, content}` objects, one per turn, in order |
| ChatRelay.UpstreamMessages | ingredient-insights-main/ingredient-insights-main/supabase/functions/chat-ingredients/index.ts:54-61 | the message list has length history + 2: the system turn (prompt, blank line, context), the history in order, then the new user message |
| ChatRelay.PreflightDoesNothing | ingredient-insights-main/ingredient-insights-main/supabase/functions/chat-ingredients/index.ts:26-28 | an OPTIONS request gets the empty CORS answer and no gateway call is made |
| ChatRelay.MissingKeyFails | ingredient-insights-main/ingredient-insights-main/supabase/functions/chat-ingredients/index.ts:31-36 | without a key no call is made; the answer is a 500 naming the missing variable, or the body's read error, which comes first |
| ChatRelay.CallOnlyWithKey | ingredient-insights-main/ingredient-insights-main/supabase/functions/chat-ingredients/index.ts:65-76 | a gateway call is made exactly for a non-OPTIONS request with a readable body and a key; it carries the bearer key, the model, `stream: true` and the message list |
| ChatRelay.UpstreamDecides | ingredient-insights-main/ingredient-insights-main/supabase/functions/chat-ingredients/index.ts:78-107 | the stream is relayed with status 200 and the event-stream type exactly on a success status; 429 and 402 give their fixed texts; other statuses and rejected fetches give 500 |
| ChatRelay.ErrorsAreJson | ingredient-insights-main/ingredient-insights-main/supabase/functions/chat-ingredients/index.ts:102-107 | every answer other than a relayed stream and a pre-flight is a JSON error with an error status |
| AnalyzeHandler.BuildUserContent | ingredient-insights-main/ingredient-insights-main/supabase/functions/analyze-ingredients/index.ts:61-93 | with an image: two parts, the image prompt and the image URL; without one: the text prompt as a string |
| AnalyzeHandler.NoFence | ingredient-insights-main/ingredient-insights-main/supabase/functions/analyze-ingredients/index.ts:150-151 | a reply with no code fence is used whole, trimmed |
| AnalyzeHandler.FencedJson | ingredient-insights-main/ingredient-insights-main/supabase/functions/analyze-ingredients/index.ts:150-151 | from a reply with a `json` fence and a closing fence, the trimmed text between them is taken |
| AnalyzeHandler.FencedPlain | ingredient-insights-main/ingredient-insights-main/supabase/functions/analyze-ingredients/index.ts:150-151 | the same for an untagged fence |
| AnalyzeHandler.UnclosedFence | ingredient-insights-main/ingredient-insights-main/supabase/functions/analyze-ingredients/index.ts:150-151 | a fence that is never closed leaves the whole reply, trimmed |
| AnalyzeHandler.ExtractBetween | ingredient-insights-main/ingredient-insights-main/supabase/functions/analyze-ingredients/index.ts:150-151 | once the opening fence, the optional tag and the closing fence are located, the extracted text is the trimmed span between them |
| AnalyzeHandler.BuildRequest | ingredient-insights-main/ingredient-insights-main/supabase/functions/analyze-ingredients/index.ts:95-115 | exactly two messages, system then user; the user content depends on whether there is an image; the request carries the bearer key, the model and temperature 0.3 |
| AnalyzeHandler.AnswerStatuses | ingredient-insights-main/ingredient-insights-main/supabase/functions/analyze-ingredients/index.ts:117-160 | status 200 exactly for a gateway success with non-empty content whose extracted JSON parses, and then the body is that JSON; the status is always 200, 402, 429 or 500 |
| AnalyzeHandler.Respond | ingredient-insights-main/ingredient-insights-main/supabase/functions/analyze-ingredients/index.ts:117-167 | the answer for each way the gateway call ends: no content, a parse failure, a gateway failure or a thrown error |
| AnalyzeHandler.Handle | ingredient-insights-main/ingredient-insights-main/supabase/functions/analyze-ingredients/index.ts:48-169 | pre-flight, unreadable body and missing key all answer without a gateway call; otherwise the request is the one described above and the answer is as `Respond` gives it |
| Sse.TakeLine | ingredient-insights-main/ingredient-insights-main/src/components/nutriscan/AnalysisView.tsx:80-100 | one line is cut from the front and handled by its class: an inert or delta line appends its delta and shows a non-empty one; `[DONE]` stops the loop; an unparsable line is pushed back without its `\r` and stops the loop |
| Sse.DrainLines | ingredient-insights-main/ingredient-insights-main/src/components/nutriscan/AnalysisView.tsx:79-101 | the inner loop ends in the buffer, answer and shown values of the line-by-line definition of one read |
| Sse.ReadStream | ingredient-insights-main/ingredient-insights-main/src/components/nutriscan/AnalysisView.tsx:70-102 | the two nested loops over all chunks end in the state of the cumulative definition over every read |
| Sse.LinesAppend | ingredient-insights-main/ingredient-insights-main/src/components/nutriscan/AnalysisView.tsx:76-81 | splitting text anywhere: its complete lines are those before the cut, then those of the remainder plus the rest |
| Sse.DrainWellFormed | ingredient-insights-main/ingredient-insights-main/src/components/nutriscan/AnalysisView.tsx:79-101 | on a buffer of inert and delta lines, one read consumes every complete line, appends their deltas and keeps only the text after the last line break |
| Sse.ReadWholeStream | ingredient-insights-main/ingredient-insights-main/src/components/nutriscan/AnalysisView.tsx:72-101 | without `[DONE]` or parse failures, the answer is the in-order concatenation of the deltas of all complete lines; the shown values are its successive extensions; only the final fragment is left |
| Sse.ChunkingIrrelevant | ingredient-insights-main/ingredient-insights-main/src/components/nutriscan/AnalysisView.tsx:72-101 | for such a stream, any two ways of cutting the same text into chunks give the same result as reading it in one piece |
| Sse.DrainGrows | ingredient-insights-main/ingredient-insights-main/src/components/nutriscan/AnalysisView.tsx:92-95 | within one read, each shown value extends the previous one by a non-empty delta |
| Sse.AnswerOnlyGrows | ingredient-insights-main/ingredient-insights-main/src/components/nutriscan/AnalysisView.tsx:92-95 | over the whole stream the answer is append-only: earlier shown values are kept and each new one strictly extends the one before |
| Sse.InertLines | ingredient-insights-main/ingredient-insights-main/src/components/nutriscan/AnalysisView.tsx:84-85 | comment, blank and non-`data:` lines are consumed and change neither the answer nor what is shown |
| Sse.StripsOneCarriageReturn | ingredient-insights-main/ingredient-insights-main/src/components/nutriscan/AnalysisView.tsx:83 | only one trailing `\r` is removed |
| Sse.ClassifyStripCr | ingredient-insights-main/ingredient-insights-main/src/components/nutriscan/AnalysisView.tsx:83-87 | removing the `\r` again never changes how a line is handled |
| Sse.DoneEndsRead | ingredient-insights-main/ingredient-insights-main/src/components/nutriscan/AnalysisView.tsx:88 | `[DONE]` consumes its own line and ends the current read; the lines after it stay in the buffer |
| Sse.UnparsedLinePushedBack | ingredient-insights-main/ingredient-insights-main/src/components/nutriscan/AnalysisView.tsx:97-99 | after a parse failure the buffer is the line without its `\r`, a line break and the rest; the answer is unchanged |
| Sse.UnparsedLineBlocksStream | ingredient-insights-main/ingredient-insights-main/src/components/nutriscan/AnalysisView.tsx:97-99 | once an unparsable line heads the buffer, no later read adds to the answer or shows anything |
| Sse.TrailingFragmentIgnored | ingredient-insights-main/ingredient-insights-main/src/components/nutriscan/AnalysisView.tsx:79 | a chunk without a line break is only buffered |
| Sse.TrailingChunkIgnored | ingredient-insights-main/ingredient-insights-main/src/components/nutriscan/AnalysisView.tsx:73-79 | a final fragment without a line break never reaches the answer |
| AnalysisView.StatusError | ingredient-insights-main/ingredient-insights-main/src/components/nutriscan/AnalysisView.tsx:55-63 | 429 gives the wait-a-moment text, 402 the usage-limit text, and any other non-OK status 'Failed to get response' |
| AnalysisView.ChatSession.constructor | ingredient-insights-main/ingredient-insights-main/src/components/nutriscan/AnalysisView.tsx:20-22 | empty conversation, not loading, nothing streaming |
| AnalysisView.ChatSession.SendMessage | ingredient-insights-main/ingredient-insights-main/src/components/nutriscan/AnalysisView.tsx:24-125 | the history posted is the log before the new turn; the log gains the user turn and then exactly one assistant turn, the assembled answer or the error text; loading ends |
| AnalysisView.StreamingLeftOnlyOnReadFailure | ingredient-insights-main/ingredient-insights-main/src/components/nutriscan/AnalysisView.tsx:95-113 | the streaming text is cleared after every send except one whose read failed part-way; that one keeps the answer assembled so far |
| AnalysisView.AnswerIsAllDeltas | ingredient-insights-main/ingredient-insights-main/src/components/nutriscan/AnalysisView.tsx:65-112 | a completed stream without `[DONE]` or parse failures gives, as the assistant turn, the concatenated deltas, however the body was chunked |
| AnalysisView.FailureTexts | ingredient-insights-main/ingredient-insights-main/src/components/nutriscan/AnalysisView.tsx:55-122 | the assistant turn on each failure: the three status texts, the apology for a non-`Error` throw, and an empty turn for a response without a body |
| HealthScoreCard.BandsAgree | ingredient-insights-main/ingredient-insights-main/src/components/nutriscan/HealthScoreCard.tsx:20-32 | the score text and the progress bar are always in the same band, which is the tone of the verdict `getVerdictFromScore` gives |
| HealthScoreCard.VerdictMatchesScore | ingredient-insights-main/ingredient-insights-main/src/components/nutriscan/HealthScoreCard.tsx:50-59 | the verdict badge and the score have the same colour exactly when the verdict is the one the score's band gives |
| HealthScoreCard.VerdictTonesDistinct | ingredient-insights-main/ingredient-insights-main/src/components/nutriscan/HealthScoreCard.tsx:9-14 | the configuration gives the four verdicts four different colours |
| HealthScoreCard.ProgressWidth | ingredient-insights-main/ingredient-insights-main/src/components/nutriscan/HealthScoreCard.tsx:68 | the width is a decimal text that denotes the score (minus sign for a negative score, canonical digits reading back as its magnitude) followed by `%` |
| IngredientList.RankIsPositionInOrder | ingredient-insights-main/ingredient-insights-main/src/components/nutriscan/IngredientList.tsx:90-91 | a level's rank is its position in the order danger, warning, caution, safe |
| IngredientList.LabelsDistinct | ingredient-insights-main/ingredient-insights-main/src/components/nutriscan/IngredientList.tsx:11-16 | the label map gives every level a label of its own |
| IngredientList.OfLevel | ingredient-insights-main/ingredient-insights-main/src/components/nutriscan/IngredientList.tsx:95 | the filter keeps every item of the level and only items of the level, all taken from the input, never more than there were |
| IngredientList.SortIsSorted | ingredient-insights-main/ingredient-insights-main/src/components/nutriscan/IngredientList.tsx:89-92 | the sorted list has non-decreasing rank |
| IngredientList.SortIsPermutation | ingredient-insights-main/ingredient-insights-main/src/components/nutriscan/IngredientList.tsx:89 | the sorted list holds exactly the input's items, each as many times |
| IngredientList.SortIsStable | ingredient-insights-main/ingredient-insights-main/src/components/nutriscan/IngredientList.tsx:89-92 | items of the same level keep their original relative order |
| IngredientList.CountIsPositions | ingredient-insights-main/ingredient-insights-main/src/components/nutriscan/IngredientList.tsx:94-95 | `countByLevel(l)` is the number of positions holding an item of level `l` |
| IngredientList.CountsSum | ingredient-insights-main/ingredient-insights-main/src/components/nutriscan/IngredientList.tsx:94-95 | the four counts add up to the number of ingredients |
| IngredientList.Badges | ingredient-insights-main/ingredient-insights-main/src/components/nutriscan/IngredientList.tsx:104-123 | a level's badge is shown exactly when its count is positive, and every badge shows its level's count |
| IngredientList.SomeBadgeShown | ingredient-insights-main/ingredient-insights-main/src/components/nutriscan/IngredientList.tsx:104-123 | a non-empty list always shows at least one badge |
| ProfileSheet.ShownSuggestions | ingredient-insights-main/ingredient-insights-main/src/components/nutriscan/ProfileSheet.tsx:82-84 | exactly `min(6, remaining)` suggestions are shown, none already listed; they are the first of the remaining ones, in order |
| ProfileSheet.SuggestionIsNew | ingredient-insights-main/ingredient-insights-main/src/components/nutriscan/ProfileSheet.tsx:84-88 | a clicked suggestion is never already listed, so adding it keeps the list duplicate-free |
| ProfileSheet.AddUpdate | ingredient-insights-main/ingredient-insights-main/src/components/nutriscan/ProfileSheet.tsx:116 | the update sets only the targeted list, to that list plus the item at the end |
| ProfileSheet.RemoveUpdate | ingredient-insights-main/ingredient-insights-main/src/components/nutriscan/ProfileSheet.tsx:117 | the update sets only the targeted list |
| ProfileSheet.RemoveUpdateContents | ingredient-insights-main/ingredient-insights-main/src/components/nutriscan/ProfileSheet.tsx:117 | the new list drops every occurrence of the item and keeps every other one, as often as it occurred, in order |
| ProfileSheet.TagInput.constructor | ingredient-insights-main/ingredient-insights-main/src/components/nutriscan/ProfileSheet.tsx:35 | the field starts empty |
| ProfileSheet.TagInput.SetInput | ingredient-insights-main/ingredient-insights-main/src/components/nutriscan/ProfileSheet.tsx:71 | the field holds what was typed |
| ProfileSheet.TagInput.HandleAdd | ingredient-insights-main/ingredient-insights-main/src/components/nutriscan/ProfileSheet.tsx:37-42 | the trimmed text is added exactly when it is non-empty and new, and the field is cleared only then |
| UserProfileStore.Merge | ingredient-insights-main/ingredient-insights-main/src/hooks/useUserProfile.ts:29 | each list present in the update replaces the profile's; the others stay |
| UserProfileStore.MergeLaws | ingredient-insights-main/ingredient-insights-main/src/hooks/useUserProfile.ts:28-32 | a full update replaces the profile, an empty one keeps it, and applying an update twice equals applying it once |
| UserProfileStore.SheetEditChangesOneList | ingredient-insights-main/ingredient-insights-main/src/hooks/useUserProfile.ts:29 | a profile-sheet add or remove, once merged, changes its own list and no other |
| UserProfileStore.StorageRoundTrip | ingredient-insights-main/ingredient-insights-main/src/hooks/useUserProfile.ts:16-37 | a saved profile comes back on the next load when its encoding reads back; after a clear the next load keeps the default |
| UserProfileStore.ProfileStore.constructor | ingredient-insights-main/ingredient-insights-main/src/hooks/useUserProfile.ts:13-14 | three empty lists, not loaded |
| UserProfileStore.ProfileStore.Load | ingredient-insights-main/ingredient-insights-main/src/hooks/useUserProfile.ts:16-26 | a non-empty stored entry that parses replaces the profile, else the profile stays; loaded either way; storage untouched |
| UserProfileStore.ProfileStore.UpdateProfile | ingredient-insights-main/ingredient-insights-main/src/hooks/useUserProfile.ts:28-32 | the profile becomes the merge, and storage holds its encoding under the key |
| UserProfileStore.ProfileStore.ClearProfile | ingredient-insights-main/ingredient-insights-main/src/hooks/useUserProfile.ts:34-37 | back to the default profile, with the key removed from storage |
| ScanHistory.VerdictFromScore | ingredient-insights-main/ingredient-insights-main/src/hooks/useScanHistory.ts:130-135 | Great for 80 and above, Good for 60-79, Caution for 40-59, Avoid below 40, each exactly |
| ScanHistory.VerdictMonotone | ingredient-insights-main/ingredient-insights-main/src/hooks/useScanHistory.ts:130-135 | a higher score never gets a worse verdict |
| ScanHistory.PrependCappedShape | ingredient-insights-main/ingredient-insights-main/src/hooks/useScanHistory.ts:90 | the new item comes first, the previous items follow in order, and at most 50 are kept |
| ScanHistory.RemoveById | ingredient-insights-main/ingredient-insights-main/src/hooks/useScanHistory.ts:108 | exactly the items with another id are kept |
| ScanHistory.RemoveByIdAppend | ingredient-insights-main/ingredient-insights-main/src/hooks/useScanHistory.ts:108 | the filter commutes with concatenation, so the kept items stay in order |
| ScanHistory.RemoveByIdAbsent | ingredient-insights-main/ingredient-insights-main/src/hooks/useScanHistory.ts:108 | a list without that id is left as it is |
| ScanHistory.SafeIngredients | ingredient-insights-main/ingredient-insights-main/src/hooks/useScanHistory.ts:45-50 | one ingredient per stored name, at level safe, with empty texts |
| ScanHistory.RowsToItems | ingredient-insights-main/ingredient-insights-main/src/hooks/useScanHistory.ts:38-54 | one item per fetched row, in order |
| ScanHistory.Names | ingredient-insights-main/ingredient-insights-main/src/hooks/useScanHistory.ts:71 | the names of the analysed ingredients, in order |
| ScanHistory.LowerAscii | ingredient-insights-main/ingredient-insights-main/src/hooks/useScanHistory.ts:73 | `toLowerCase` on ASCII letters: same length, each letter lowered |
| ScanHistory.RiskLevelValues | ingredient-insights-main/ingredient-insights-main/src/hooks/useScanHistory.ts:73 | the stored risk level is great, good, caution or avoid |
| ScanHistory.RiskLevelDistinct | ingredient-insights-main/ingredient-insights-main/src/hooks/useScanHistory.ts:73 | the stored risk level tells the four verdicts apart |
| ScanHistory.SavedScanReadsBack | ingredient-insights-main/ingredient-insights-main/src/hooks/useScanHistory.ts:38-74 | a saved scan read back has the same label, score and ingredient names, all at level safe; its verdict is the saved one exactly when that matched the score's band |
| ScanHistory.Store.constructor | ingredient-insights-main/ingredient-insights-main/src/hooks/useScanHistory.ts:7-9 | empty history, not loaded |
| ScanHistory.Store.Load | ingredient-insights-main/ingredient-insights-main/src/hooks/useScanHistory.ts:12-61 | no user: empty history; fetched rows replace the history; an error or no data keeps it; loaded on every path |
| ScanHistory.Store.AddScan | ingredient-insights-main/ingredient-insights-main/src/hooks/useScanHistory.ts:63-92 | with a user, the insertion of label, names, score and risk level is requested, and a returned row is prepended with the cap; without a user, or on error, nothing changes |
| ScanHistory.Store.RemoveScan | ingredient-insights-main/ingredient-insights-main/src/hooks/useScanHistory.ts:94-109 | with a user and a successful delete, the items with that id disappear; otherwise nothing changes |
| ScanHistory.Store.ClearHistory | ingredient-insights-main/ingredient-insights-main/src/hooks/useScanHistory.ts:111-125 | with a user and a successful delete, the history is empty; otherwise nothing changes |
| Auth.Validate | ingredient-insights-main/ingredient-insights-main/src/pages/Auth.tsx:53-71 | the email is checked first; the password passes exactly when it has at least 6 characters; both pass exactly when there is no message |
| Auth.LoginToast | ingredient-insights-main/ingredient-insights-main/src/pages/Auth.tsx:80-88 | success says welcome back; an error mentioning invalid credentials says 'Invalid email or password'; any other error shows its own message |
| Auth.SignupToast | ingredient-insights-main/ingredient-insights-main/src/pages/Auth.tsx:111-127 | success says the account was created; an error mentioning 'already registered' says to log in instead; any other error shows its own message |
| Auth.KnownCausesRecognised | ingredient-insights-main/ingredient-insights-main/src/pages/Auth.tsx:81-113 | the known cause is recognised wherever it stands in the service's message |
| Auth.AuthForm.constructor | ingredient-insights-main/ingredient-insights-main/src/pages/Auth.tsx:29-34 | empty fields, no chips, not loading |
| Auth.AuthForm.SetEmail | ingredient-insights-main/ingredient-insights-main/src/pages/Auth.tsx:181 | sets the email only |
| Auth.AuthForm.SetPassword | ingredient-insights-main/ingredient-insights-main/src/pages/Auth.tsx:192 | sets the password only |
| Auth.AuthForm.SetCustomInput | ingredient-insights-main/ingredient-insights-main/src/pages/Auth.tsx:262 | sets the custom field only |
| Auth.AuthForm.ToggleHealthIssue | ingredient-insights-main/ingredient-insights-main/src/pages/Auth.tsx:131-135 | the health issues are toggled; nothing else changes |
| Auth.AuthForm.ToggleAllergy | ingredient-insights-main/ingredient-insights-main/src/pages/Auth.tsx:137-141 | the allergies are toggled; nothing else changes |
| Auth.AuthForm.AddCustomHealthIssue | ingredient-insights-main/ingredient-insights-main/src/pages/Auth.tsx:143-148 | the trimmed text is appended and the field cleared exactly when the text is non-blank and new; otherwise nothing changes |
| Auth.AuthForm.StartLogin | ingredient-insights-main/ingredient-insights-main/src/pages/Auth.tsx:73-78 | invalid input shows the first failing message and sends nothing; valid input raises loading and sends the credentials |
| Auth.AuthForm.FinishLogin | ingredient-insights-main/ingredient-insights-main/src/pages/Auth.tsx:80-89 | the toast for the answer, and loading ends |
| Auth.AuthForm.StartSignup | ingredient-insights-main/ingredient-insights-main/src/pages/Auth.tsx:92-109 | like sign-in validation; on success, sends the credentials with the chosen chips |
| Auth.AuthForm.FinishSignup | ingredient-insights-main/ingredient-insights-main/src/pages/Auth.tsx:111-128 | the toast for the answer; the profile update with the chips is made exactly on success with a signed-in user; loading ends |
| Auth.HandleLogin | ingredient-insights-main/ingredient-insights-main/src/pages/Auth.tsx:73-90 | valid input is sent with loading raised while waiting, and loading ends with the answer's toast; invalid input sends nothing |
| IndexPage.InputLabel | ingredient-insights-main/ingredient-insights-main/src/pages/Index.tsx:41 | 'Image scan' for an image, else the first 100 characters of the input |
| IndexPage.AnalyzeOutcome | ingredient-insights-main/ingredient-insights-main/src/pages/Index.tsx:61-80 | the analysis is shown exactly for an OK reply without an error field; otherwise the toast shows the error field, 'Analysis failed', or the thrown message |
| IndexPage.Page.constructor | ingredient-insights-main/ingredient-insights-main/src/pages/Index.tsx:23-27 | home view, no result, nothing analysing, profile closed |
| IndexPage.Page.ScanClick | ingredient-insights-main/ingredient-insights-main/src/pages/Index.tsx:112 | home goes to input |
| IndexPage.Page.CloseInput | ingredient-insights-main/ingredient-insights-main/src/pages/Index.tsx:167 | input goes back to home |
| IndexPage.Page.Back | ingredient-insights-main/ingredient-insights-main/src/pages/Index.tsx:179 | analysis goes back to home, the result kept |
| IndexPage.Page.NewScan | ingredient-insights-main/ingredient-insights-main/src/pages/Index.tsx:180-183 | analysis goes to input with the result dropped, so no analysis is drawn |
| IndexPage.Page.SelectFromHistory | ingredient-insights-main/ingredient-insights-main/src/pages/Index.tsx:86-90 | shows the chosen scan in the analysis view |
| IndexPage.Page.SetProfileOpen | ingredient-insights-main/ingredient-insights-main/src/pages/Index.tsx:108 | opens or closes the profile sheet only |
| IndexPage.Page.HandleAnalyze | ingredient-insights-main/ingredient-insights-main/src/pages/Index.tsx:39-84 | posts the input, the image only for an image scan, and the profile; on success shows the result and saves one scan; on failure the view and result stay and a toast is shown; not analysing afterwards |
| ChatInterface.Submitted | ingredient-insights-main/ingredient-insights-main/src/components/nutriscan/ChatInterface.tsx:28-34 | a message is sent exactly when the trimmed input is non-empty and nothing is loading, and it is the trimmed input |
| ChatInterface.SendDisabledIffNothingSent | ingredient-insights-main/ingredient-insights-main/src/components/nutriscan/ChatInterface.tsx:122 | the send button is disabled exactly when submitting would send nothing |
| ChatInterface.OneProgressIndicator | ingredient-insights-main/ingredient-insights-main/src/components/nutriscan/ChatInterface.tsx:91-99 | while loading exactly one of the streaming bubble and the spinner is drawn; when idle never the spinner |
| ChatInterface.SuggestionsOnlyWhenQuiet | ingredient-insights-main/ingredient-insights-main/src/components/nutriscan/ChatInterface.tsx:50-122 | suggestions are never drawn beside the streaming bubble; a locked field implies a locked send button |
| ChatInterface.ChatBox.constructor | ingredient-insights-main/ingredient-insights-main/src/components/nutriscan/ChatInterface.tsx:16 | the field starts empty |
| ChatInterface.ChatBox.SetInput | ingredient-insights-main/ingredient-insights-main/src/components/nutriscan/ChatInterface.tsx:114 | the field holds what was typed |
| ChatInterface.ChatBox.HandleSubmit | ingredient-insights-main/ingredient-insights-main/src/components/nutriscan/ChatInterface.tsx:28-34 | sends what `Submitted` says, clearing the field only when it sends |
| ChatInterface.ChatBox.ClickSuggestion | ingredient-insights-main/ingredient-insights-main/src/components/nutriscan/ChatInterface.tsx:57-60 | a suggestion is sent verbatim |
| IngredientInput.SubmitCall | ingredient-insights-main/ingredient-insights-main/src/components/nutriscan/IngredientInput.tsx:31-37 | text tab with non-blank text: the untrimmed text; image tab with an image: an empty text and the image; in every other state, nothing |
| IngredientInput.DisabledIffNoCall | ingredient-insights-main/ingredient-insights-main/src/components/nutriscan/IngredientInput.tsx:46-48 | when not loading, on either tab, the button is disabled exactly when a submit would do nothing |
| IngredientInput.SubmittedTextUntrimmed | ingredient-insights-main/ingredient-insights-main/src/components/nutriscan/IngredientInput.tsx:32-35 | a text submit passes the text as typed, whose trim is non-empty; an image submit passes an empty text and a non-empty image |
| IngredientInput.ScanCard.constructor | ingredient-insights-main/ingredient-insights-main/src/components/nutriscan/IngredientInput.tsx:15-17 | empty text, no image, text tab |
| IngredientInput.ScanCard.SetText | ingredient-insights-main/ingredient-insights-main/src/components/nutriscan/IngredientInput.tsx:77 | sets the text only |
| IngredientInput.ScanCard.SetTab | ingredient-insights-main/ingredient-insights-main/src/components/nutriscan/IngredientInput.tsx:59 | sets the tab only |
| IngredientInput.ScanCard.ImageLoaded | ingredient-insights-main/ingredient-insights-main/src/components/nutriscan/IngredientInput.tsx:24-26 | the image read becomes the selected image |
| IngredientInput.ScanCard.ClearImage | ingredient-insights-main/ingredient-insights-main/src/components/nutriscan/IngredientInput.tsx:39-44 | no image selected; nothing else changes |
| IngredientInput.ScanCard.HandleSubmit | ingredient-insights-main/ingredient-insights-main/src/components/nutriscan/IngredientInput.tsx:31-37 | makes the call `SubmitCall` describes |

## Left out

- The network, the AI gateway, `serve`, Supabase auth and the Supabase database are not modelled as services. Each call is a parameter that says how it ends: a status, a body, an error or rows.
- `TextDecoder` is not modelled: the body's chunks arrive already decoded.
- Strings are sequences of Unicode characters, not UTF-16 code units. Lengths differ for characters outside the Basic Multilingual Plane, which matters for `slice(0, 100)` and the password's minimum length.
- `JSON.parse` and `JSON.stringify` are functions passed in as parameters. In the stream, a payload is a delta or a parse failure, and an empty delta stands for any falsy `delta.content`.
- The zod email schema is not modelled: `Auth.Validate` gets an `isEmail` predicate.
- Regular expressions in general are not modelled. The code-fence pattern is written out as a string function.
- The system prompts and the server's console logging are left out. The prompts are plain text, so each handler takes its prompt as a parameter.
- React is not modelled: rendering, JSX layout, CSS class strings (apart from the score-band colours), scrolling, refs and the clearing of the file input's DOM value in `clearImage`.
- `Date.now()` message ids, timestamps and the `toLocaleDateString` text of a fetched row are not modelled. Chat turns carry no id or timestamp, and the date text is a parameter.
- Asynchronous interleaving and stale `useState` closures are not modelled. Each handler is one sequential step, and `Auth`'s handlers are split at their `await`.
- Navigation is left out: the redirects to `/` and `/auth` on the session (Auth.tsx lines 37-51, Index.tsx lines 33-37 and 92-104) are routing.
- The database's own filtering is left out. The expiry filter, ordering and 50-row limit of the history query belong to the query, so the rows passed in are those it returns.
- Fields of the wrong JSON type in a request body are not modelled: the request is typed. A body the handler cannot read at all is the `Malformed` case.
- `UserProfileStore.ProfileStore.Load`: a stored value that parses as JSON but is not a profile is accepted unchecked by the source. The model's `parse` yields a profile or nothing, so such a value is not represented.
- `UserProfileStore.Merge`: a key present in the update with the value `undefined` is modelled as absent. The spread would copy the `undefined`.
- `IndexPage.Page.HandleAnalyze` does not model the JSON shape of a reply. A reply is sorted into the three cases the handler distinguishes: thrown, not OK, or delivered with an error field.
- `IngredientInput.ScanCard.SetTab` accepts any tab name, as the source does. Tabs other than text and image make `handleSubmit` do nothing.
- The score is modelled as an integer. The source types it as a `number` and the analysis prompt asks for a number from 0 to 100, so a fractional score (72.5) is not represented: not in the chat context, not in `getVerdictFromScore` or `getScoreColor`, and not in the progress width.
- Reading the gateway's error body with `await response.text()` is not modelled as something that can fail. In both functions a rejection there would reach the `catch` and turn a 429 or 402 into a 500.
- `ScanHistory.Store` takes its user once, at construction. The source's effect and callbacks re-run when `user` changes (useScanHistory.ts lines 61, 92, 109 and 125); a sign-in or sign-out is modelled as a new store followed by `Load`.
- `HealthScoreCard.ProgressWidth` does not clamp the score, as the source does not: a score outside 0-100 gives a width outside 0%-100%.
- The assistant's rate-limit text differs from the chat relay's 429 text. The UI throws its own text and never reads the relay's body, and the model follows the code.
- Presentation-only files are not part of this model: the header, the hero section, the alerts list and the history list.
