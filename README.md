# Ventora AI core, modelled in Dafny

Ventora AI is a browser chat assistant with a small serverless back end. This
project models the parts of it that compute rather than draw:

- **The chat proxy's key-failover router** (`api/chat.js`), in `chat_router.dfy`.
  - It validates the request and derives the mode from `model`.
  - It picks one pool of credential slots.
  - It walks the slots in order. Keys that are unset or still cooling down are skipped.
  - The first upstream success is returned. A 429 puts that key in a 60-second cooldown.
  - When every slot fails, the reply is 429 "busy" and carries the last error.
  - The process-wide cooldown map is a field of the class `ChatProxy`.
- **The file attachment list** (`fileupload/fileupload.js`), in `file_upload.dfy`.
  - The list is capped at five files.
  - Each entry goes from processing to success or error.
  - PDF text is cleaned and truncated.
  - Entries can be removed, cleared, attached to the chat and saved.
  - The state is the class `FileContext`.
- **CSV export** of tables and diet plans (`visualizer/export.js`), in `csv_export.dfy`.
- **The visualizer engine** (`visualizer/vdiv.js`), in `viz_engine.dfy`.
  - It detects which visualization a reply calls for.
  - It parses Markdown pipe tables, lists, diet plans, times and diet items.
  - It builds the flowchart structure.
  - It keeps a per-conversation store.
- **The visualizer** (`visualizer/visualizer.js`), in `visualizer.dfy`.
  - It checks for a marker, then tries four JSON extraction patterns in order.
  - It falls back to a titled placeholder and keeps a registry of visualizations.
  - It generates table headers and turns a table into text.
- **The main menu popup** (`mainmenupopup/mainmenupopup.js`), in `main_menu.dfy`.
  - It holds the goals task list, the menu view state and the export statistics.
  - It exports a conversation as plain text and as Markdown.
  - It resets everything to defaults on "clear all data".
- **Medicine OCR** (`ocr/ocr.js`), in `ocr.dfy`.
  - It splits the recognised lines into a "medicine" group and an "other" group, and formats them.
  - It updates the OCR context fields.

`js_string.dfy` defines the JavaScript string operations the code relies on, with their
laws. These are `trim` and its white-space set, `split`/`join` on one character, `includes`,
`indexOf`, `replace`, the `\s+` collapse and decimal rendering. `wrappers.dfy` holds
`Option` and `Result`.

Inputs stand in for the environment:

- The upstream API call is an oracle function from the outbound request to its outcome.
- `JSON.parse` is an oracle from text to optional visualization data.
- The file reader and image recogniser outcomes are parameters.
- `Date.now()`, generated ids, locale-formatted dates, `toFixed` sizes, the window width and the
  presence of the modal element are parameters.
- `localStorage` is a field holding what was last written.

## Model

| member | source | states |
|---|---|---|
| ChatRouter.ShapingOf | api/chat.js:14 | the messages array is forwarded as is; temperature 0.7 and max_tokens 1024 are used only when the field is undefined, an explicit null or value is kept |
| ChatRouter.CallsFor | api/chat.js:87-95 | one outbound call per attempted slot, in order, each with that slot's key and system prompt |
| ChatRouter.ModeOf | api/chat.js:63 | a non-string model gives no mode (the `.replace` call throws); otherwise the mode is never empty, and a missing model means "general" |
| ChatRouter.ModeOfPrefixed | api/chat.js:63 | "groq:" + m yields mode m for non-empty m |
| ChatRouter.ModeOfRemovesFirstOnly | api/chat.js:63 | only the first "groq:" is removed: "groq:groq:" yields "groq:" |
| ChatRouter.ModeOfUnprefixed | api/chat.js:63 | a name without "groq:" is the mode itself; "groq:" alone and "" fall back to "general" |
| ChatRouter.PoolFor | api/chat.js:20-61 | a catalogued mode selects its own pool, any other mode the general pool; every pool has two slots and the second is the shared backup key |
| ChatRouter.PoolLookupAsWritten | api/chat.js:64 | the lookup as written finds a non-iterable value exactly for names inherited from Object.prototype, and otherwise agrees with PoolFor |
| ChatRouter.ConstructorModeNotIterable | api/chat.js:63-64 | model "groq:constructor" reaches the lookup with mode "constructor", which the code as written does not route to the general pool |
| ChatRouter.WalkAttemptsInOrder | api/chat.js:69-76 | the attempted slots are a subsequence of the pool, in pool order |
| ChatRouter.WalkAttemptsUsable | api/chat.js:70-76 | a slot is attempted only when its key is set and its cooldown entry is absent, zero or not after now |
| ChatRouter.WalkSuccessIsFirstOk | api/chat.js:99-102 | a success is the last attempt's outcome and every earlier attempt failed; no success means every attempt failed |
| ChatRouter.WalkCooldownOnlyOn429 | api/chat.js:104-109 | the new cooldown map is the old one plus now + 60000 for exactly the keys that answered 429; no other entry changes |
| ChatRouter.WalkLastError | api/chat.js:104-114 | without a success, the last error is the text of the last attempt's failure, or the initial value when nothing was attempted |
| ChatRouter.WalkAllOkKeepsCooldown | api/chat.js:99-106 | when the upstream never fails the cooldown map is unchanged |
| ChatRouter.Walk | api/chat.js:69-115 | the slot walk: unusable slots are passed over, the first success ends it, a 429 puts the key in cooldown and every failure becomes the last error; what it promises is stated by the Walk lemmas above |
| ChatRouter.MethodGate | api/chat.js:10-12 | OPTIONS gets 200 with no body, any other non-POST gets 405 "Method not allowed"; neither makes a call or touches the cooldowns |
| ChatRouter.InvalidMessagesRejected | api/chat.js:16-18 | non-array messages get 400 "Invalid messages" with no call and unchanged cooldowns |
| ChatRouter.CallsComeFromSelectedPool | api/chat.js:69-97 | every call goes to a usable slot of the selected pool, at most two calls, each with the fixed model, the system prompt first and then the client's messages, temperature and max_tokens |
| ChatRouter.ResponseOfLoop | api/chat.js:99-121 | a 200 reply carries the payload of the last call, all earlier calls having failed; otherwise the reply is 429 and every call failed, with no details when nothing was called |
| ChatRouter.ExhaustedDetails | api/chat.js:104-121 | an exhausted walk replies 429 with the busy message and the last attempt's failure text as details |
| ChatRouter.CooldownWrites | api/chat.js:105-106 | the cooldown map is written only by the loop, only for keys that answered 429, with now + 60000 |
| ChatRouter.CooledKeySkipped | api/chat.js:73-76 | a key that answered 429 is not called by any later request within 60 seconds |
| ChatRouter.BackupCooldownShared | api/chat.js:73-76 | a 429 on the backup key in one mode keeps the backup slot of every mode from being called for 60 seconds |
| ChatRouter.ExpiredCooldownAllowsCall | api/chat.js:74 | a set key whose cooldown has expired (expiry not after now) is called first |
| ChatRouter.AllOkIsRepeatable | api/chat.js:69-102 | with an always-succeeding upstream the handler leaves the cooldowns unchanged, so repeating the request gives the same result |
| ChatRouter.Handle | api/chat.js:5-122 | the handler: method gate, message check, mode and pool (the corrected lookup), then the walk turned into a 200 or 429 reply; what it promises is stated by the lemmas from MethodGate to AllOkIsRepeatable |
| ChatRouter.ChatProxy.constructor | api/chat.js:2 | the cooldown map starts empty |
| ChatRouter.ChatProxy.HandleRequest | api/chat.js:5-122 | the reply, the calls made and the new cooldown map are those of the handler specification applied to the old map |
| ChatRouter.ChatProxy.TrySlots | api/chat.js:66-115 | the slot loop updates the cooldown field in place and returns what the walk specification gives for the old map |
| CsvExport.Escape | visualizer/export.js:57 | escaping never shortens a cell (every double quote is doubled); that it is undone by reading back is `CsvExport.EscapeReadsBack` |
| CsvExport.QuotedCells | visualizer/export.js:57 | every cell is wrapped in quotes around its escaped text, in order |
| CsvExport.EscapeReadsBack | visualizer/export.js:57 | reading an escaped field body up to the closing quote recovers the original cell and leaves the rest untouched |
| CsvExport.RowReadsBack | visualizer/export.js:56-58 | a row line reads back, field by field, as exactly the original cells (quote doubling is injective) |
| CsvExport.ReadQuotedBodyShrinks | visualizer/export.js:57 | the field reader always consumes input, so reading a record terminates |
| CsvExport.TableToCsv | visualizer/export.js:52-61 | the accumulator loop produces the header line followed by one line per row |
| CsvExport.TableCsv | visualizer/export.js:52-61 | the table export: headers joined by commas, then one quoted line per row; stated by TableCsvStartsWithHeaders, TableCsvLineCount and RowReadsBack |
| CsvExport.TableCsvStartsWithHeaders | visualizer/export.js:55 | the output starts with the headers joined by commas, unescaped, and a line break |
| CsvExport.TableCsvLineCount | visualizer/export.js:55-58 | with no line break inside a header or a cell, the output has exactly 1 + rows line breaks |
| CsvExport.RowLinesCount | visualizer/export.js:56-58 | with no line break inside a cell, each row adds exactly one line break |
| CsvExport.RowLineBreaks | visualizer/export.js:57 | a row line ends in its only line break |
| CsvExport.EscapeLineBreaks | visualizer/export.js:57 | escaping adds no line break |
| CsvExport.JoinLineBreaks | visualizer/export.js:57 | joining pieces without line breaks adds none |
| CsvExport.OrElse | visualizer/export.js:70-77 | a falsy value (missing, "" or 0) gives the fallback, any other value its string form |
| CsvExport.DietPlanToCsv | visualizer/export.js:64-82 | the accumulator loop produces the fixed header followed by one line per meal |
| CsvExport.DietCsv | visualizer/export.js:64-82 | the diet export: the eight-column header, then one quoted line per meal; stated by DietCsvAppend and MealLineReadsBack |
| CsvExport.DietCsvAppend | visualizer/export.js:67-79 | the output starts with the eight-column header, and one more meal adds exactly its line at the end |
| CsvExport.MealLineReadsBack | visualizer/export.js:69-78 | a meal line reads back as its eight fields; falsy calories read "0", a falsy time "", missing nutrients four empty fields |
| FileUpload.AddedEntries | fileupload/fileupload.js:121-123 | one added entry per file of the batch, in order, each with its own id |
| FileUpload.NewEntryIsProcessing | fileupload/fileupload.js:131-141 | a new entry is processing, with no error and empty text, and is a camera image exactly when its name contains "medicine_photo_" |
| FileUpload.Snapshot | fileupload/fileupload.js:446-461 | the saved context holds one projected entry per file, in order, and the top-level text and name |
| FileUpload.SnapshotLosesOnlyHandles | fileupload/fileupload.js:446-455 | given the file handles back, every saved entry is recovered exactly |
| FileUpload.MaskUnprintable | fileupload/fileupload.js:246 | every character outside printable ASCII, line feed and carriage return becomes a space; the length is kept |
| FileUpload.CollapsedMaskIsPrintable | fileupload/fileupload.js:246-247 | after masking and collapsing white space the text is printable ASCII only |
| FileUpload.SliceKeepsShape | fileupload/fileupload.js:251 | a substring of printable text without double spaces keeps both properties |
| FileUpload.CleanPdfTextShape | fileupload/fileupload.js:245-248 | the cleaned PDF text is printable, has no two spaces in a row and neither starts nor ends with white space |
| FileUpload.PdfExtractBounds | fileupload/fileupload.js:241-260 | a read error or a cleaned text of ten characters or fewer is rejected with its message; otherwise the result is a printable prefix of the cleaned text, 11 to 10000 characters long, and all of it when it fits |
| FileUpload.PdfExtract | fileupload/fileupload.js:237-264 | reading, cleaning and truncating a PDF; stated by PdfExtractBounds |
| FileUpload.TrimDropsAtMostOne | fileupload/fileupload.js:176 | trimming text that starts with a non-space and has no double space drops at most one character |
| FileUpload.PdfLengthCheckUnreachable | fileupload/fileupload.js:176 | an accepted PDF text still has at least ten characters after trimming, so the "empty or unreadable" check never fires |
| FileUpload.ExtractOutcomes | fileupload/fileupload.js:155-189 | files over 10 MiB and files of unsupported type fail with their messages; an image succeeds only with non-blank text, a PDF only with 11 to 10000 printable characters |
| FileUpload.Extract | fileupload/fileupload.js:155-189 | the outcome of extraction for an entry; stated by ExtractOutcomes |
| FileUpload.SettleIsFinal | fileupload/fileupload.js:191-202 | processing ends in success (trimmed text, no error) exactly when extraction succeeded, otherwise in error (message, empty text); nothing else of the entry changes |
| FileUpload.Settle | fileupload/fileupload.js:191-202 | the entry after extraction has settled; stated by SettleIsFinal |
| FileUpload.SettledTextBounds | fileupload/fileupload.js:162-194 | a settled image has non-empty text and a settled PDF at most 10000 characters |
| FileUpload.IndexOfId | fileupload/fileupload.js:151-152 | the index found is the first entry with that id, or -1 when there is none |
| FileUpload.ProcessedChangesOneEntry | fileupload/fileupload.js:192-202 | only the first entry with the id is settled; length, ids and all other entries stay, and an absent id changes nothing |
| FileUpload.Processed | fileupload/fileupload.js:150-202 | the list after one file has been processed; stated by ProcessedChangesOneEntry |
| FileUpload.EarlyFailure | fileupload/fileupload.js:155-188 | the failures processing reaches before its first await: a file over 10 MiB, then a type that is neither image, PDF nor text-like |
| FileUpload.AddedEntry | fileupload/fileupload.js:128-147 | the entry as it stands when adding a file returns: failed at once on an early failure, otherwise still processing |
| FileUpload.AddedEntrySettled | fileupload/fileupload.js:128-207 | an early failure settles the new entry at once, with status error, to exactly what later settling would give for any read outcome; otherwise the entry stays processing; an early failure happens exactly when the size or the type is rejected |
| FileUpload.Added | fileupload/fileupload.js:143-207 | adding a file lengthens the list by one: the new entry is pushed and, on an early failure, the first entry with its id is failed in place |
| FileUpload.AddedFresh | fileupload/fileupload.js:143-157 | with a fresh id, adding a file appends exactly the added entry and keeps every earlier entry |
| FileUpload.AddedAll | fileupload/fileupload.js:121-123 | adding a batch file by file lengthens the list by the batch size |
| FileUpload.AddedAllFresh | fileupload/fileupload.js:121-123 | with fresh, pairwise distinct ids, adding a batch appends exactly its added entries, in order, and keeps the earlier list |
| FileUpload.Ids | fileupload/fileupload.js:151 | the ids of the entries, in order |
| FileUpload.WithoutId | fileupload/fileupload.js:367 | the entries left after removal are all from the list and none has that id |
| FileUpload.WithoutIdKeepsOthers | fileupload/fileupload.js:367 | every entry with another id stays, and exactly the entries with that id are dropped |
| FileUpload.Attachable | fileupload/fileupload.js:392 | only successful entries with non-empty text are attached, taken from the list |
| FileUpload.AttachableComplete | fileupload/fileupload.js:392-397 | every successful entry with text is attached, and nothing is attachable exactly when no entry qualifies |
| FileUpload.Blocks | fileupload/fileupload.js:400-402 | one "[File: name]" block per attached entry, in order |
| FileUpload.AttachedTextHoldsEveryBlock | fileupload/fileupload.js:400-406 | each entry's block appears in the attached text at its offset in the line-break join, and the name begins with the number of attached files |
| FileUpload.FileContext.constructor | fileupload/fileupload.js:423-427 | the context starts with no files, empty text and name, and nothing stored |
| FileUpload.FileContext.Save | fileupload/fileupload.js:444-468 | storage receives the snapshot of the current state and nothing else changes |
| FileUpload.FileContext.Clear | fileupload/fileupload.js:422-433 | files, text and name are emptied and the stored copy removed |
| FileUpload.FileContext.AddFile | fileupload/fileupload.js:128-207 | the list becomes the added-file list: the new entry is pushed and saved, and a file too large or of an unsupported type is failed in place with its message and saved again before the call returns; text and name are unchanged |
| FileUpload.FileContext.HandleFiles | fileupload/fileupload.js:109-126 | a batch is accepted exactly when the total stays within five files; then the list is the batch added file by file, in order, otherwise nothing changes, so the cap is kept |
| FileUpload.FileContext.ProcessFile | fileupload/fileupload.js:150-210 | the list becomes the processed list for the id, and is saved when the id was present |
| FileUpload.FileContext.RemoveFile | fileupload/fileupload.js:366-377 | the entries with the id are filtered out; an emptied list clears the whole context |
| FileUpload.FileContext.ClearAllFiles | fileupload/fileupload.js:379-389 | with files present and the user confirming, the list is emptied and saved, keeping text and name; otherwise nothing changes |
| FileUpload.FileContext.AttachFiles | fileupload/fileupload.js:391-413 | attaching succeeds exactly when some entry is attachable; then text and name describe the attachable entries and are saved, otherwise nothing changes |
| VizEngine.Lines | visualizer/vdiv.js:79 | splitting at line terminators gives at least one line, none holding a terminator |
| VizEngine.ListItemCount | visualizer/vdiv.js:82-84 | the list-item count never exceeds the number of lines |
| VizEngine.DetectPriority | visualizer/vdiv.js:51-97 | table detection wins over diet, diet over flowchart; no detection implies no pipe in the text |
| VizEngine.Detect | visualizer/vdiv.js:51-70 | the kind of visualization a reply calls for; stated by DetectPriority |
| VizEngine.ShouldCreateTable | visualizer/vdiv.js:73-87 | a table trigger word, a pipe, more than three lines and a colon, or at least three list items; used by DetectPriority |
| VizEngine.StripMarker | visualizer/vdiv.js:137 | exactly one leading marker character and the white space after it are removed, otherwise the line is kept |
| VizEngine.NumberedItemKeepsDot | visualizer/vdiv.js:137 | "1. Eggs" cleans to ". Eggs": only one marker character goes |
| VizEngine.TrimAll | visualizer/vdiv.js:118 | every cell trimmed, in order |
| VizEngine.PipeCellsClean | visualizer/vdiv.js:117-119 | a split line yields only non-empty trimmed cells without a pipe |
| VizEngine.PipeRows | visualizer/vdiv.js:121-125 | one row per line, in order, each the line's cells and every cell clean |
| VizEngine.BodyRows | visualizer/vdiv.js:121-125 | the rows skip the header and separator lines: two fewer rows than pipe lines, every cell clean |
| VizEngine.ParseMarkdownTable | visualizer/vdiv.js:113-128 | no table exactly when fewer than two lines contain a pipe; otherwise pipe lines - 2 rows and clean headers and cells |
| VizEngine.ParseListToTable | visualizer/vdiv.js:131-153 | no table exactly when no line yields a row; otherwise the headers Item, Description and the rows line by line |
| VizEngine.ListRowShape | visualizer/vdiv.js:139-149 | a line yields a row exactly when its cleaned text is non-empty, and a row has at least two cells |
| VizEngine.ListRowsCount | visualizer/vdiv.js:135-150 | one row per line with non-empty cleaned text, each of at least two cells |
| VizEngine.ParseTable | visualizer/vdiv.js:100-110 | text with a pipe goes to the Markdown parser, any other text to the list parser over its non-blank lines |
| VizEngine.TimeMatchAt | visualizer/vdiv.js:201 | a time match at a position spans at least four characters |
| VizEngine.FirstTimeIsLeftmost | visualizer/vdiv.js:200 | no time matches before the position found, and none at all when nothing is found |
| VizEngine.ExtractTimeShape | visualizer/vdiv.js:200-203 | the empty string exactly when no position matches; otherwise one or two hour digits, a colon and two minute digits, from the leftmost match |
| VizEngine.ExtractTime | visualizer/vdiv.js:200-203 | the first time in the text; stated by ExtractTimeShape and FirstTimeIsLeftmost |
| VizEngine.AmountDigits | visualizer/vdiv.js:210-212 | a captured amount is a non-empty run of digits |
| VizEngine.FirstAmountIsLeftmost | visualizer/vdiv.js:209-211 | no amount matches before the position found, and none at all when nothing is found |
| VizEngine.RemoveParensAndCommas | visualizer/vdiv.js:223 | no parenthesis or comma remains and every character comes from the input |
| VizEngine.ItemName | visualizer/vdiv.js:219-224 | the item name has no parenthesis or comma and no surrounding white space |
| VizEngine.Grams | visualizer/vdiv.js:215-216 | protein and carbs carry their digits followed by "g", exactly when matched |
| VizEngine.ParseDietItem | visualizer/vdiv.js:206-227 | the name is the cleaned text and the calories, when found, are digits |
| VizEngine.NoDigitsName | visualizer/vdiv.js:219-224 | without digits the name is the text with parentheses and commas removed, trimmed |
| VizEngine.NoDigitsNoAmounts | visualizer/vdiv.js:207-224 | an item without digits has no calories, protein or carbs |
| VizEngine.FirstKeywordIsFirst | visualizer/vdiv.js:172-183 | the meal keyword found occurs in the line and no earlier keyword does; none is found only when the line has none |
| VizEngine.ParseDietLine | visualizer/vdiv.js:168-192 | one line advances the meals and the current meal as the diet step specification says |
| VizEngine.ParseDiet | visualizer/vdiv.js:156-197 | the loop returns the meals of the fold over all lines, or none when there are none |
| VizEngine.DietMealsFollowHeaders | visualizer/vdiv.js:172-194 | the meals are named after the header lines, one each, in text order; no current meal exactly when there was no header |
| VizEngine.HeaderStepNames | visualizer/vdiv.js:173-181 | a header line closes the current meal and opens one named after its first keyword |
| VizEngine.ItemStepNames | visualizer/vdiv.js:186-191 | a non-header line never opens or closes a meal |
| VizEngine.DietStep | visualizer/vdiv.js:168-190 | the diet parser's step for one line; stated by HeaderStepNames, ItemStepNames and ParseDietLine |
| VizEngine.NoHeaderNoDiet | visualizer/vdiv.js:194-196 | text without a meal header yields no diet |
| VizEngine.FlowNodes | visualizer/vdiv.js:407-412 | one node per step; only the first is the start and only the last is the end |
| VizEngine.RenderFlowchart | visualizer/vdiv.js:400-427 | the html is the container around the rendered nodes and arrows of the steps |
| VizEngine.RenderPieces | visualizer/vdiv.js:407-422 | the loop renders each node followed by an arrow except after the last |
| VizEngine.FlowchartShape | visualizer/vdiv.js:407-422 | n steps give n nodes and n - 1 arrows, starting with the start node and ending with the end node |
| VizEngine.ArrowedShape | visualizer/vdiv.js:419-421 | after k of n nodes there are k nodes and k arrows, or n - 1 when all are done |
| VizEngine.VizStore.constructor | visualizer/vdiv.js:16 | the store starts empty |
| VizEngine.VizStore.SaveToStorage | visualizer/vdiv.js:38-48 | one entry is appended to the conversation's list, created when absent; other conversations are untouched and the whole store is persisted |
| Visualizer.BackoffSound | visualizer/visualizer.js:44-56 | a capture found by backtracking sits after a line break and ends at the first closing literal after it |
| Visualizer.CaptureAtSound | visualizer/visualizer.js:44-65 | patterns 1 and 2 capture exactly the text between the opening literal, white space and a line break, and the first closing literal |
| Visualizer.CaptureFromLeftmost | visualizer/visualizer.js:44-56 | the match used is the leftmost, and no match means no position matches |
| Visualizer.CollectAfterMarker | visualizer/visualizer.js:68-92 | the line loop collects exactly the lines the collector specification selects, each followed by a line break |
| Visualizer.CollectedLinesShape | visualizer/visualizer.js:76-90 | only non-marker, non-stop lines of the input are collected |
| Visualizer.OtherLineShape | visualizer/visualizer.js:76-90 | a collected line is non-blank, starts with no marker and no fence |
| Visualizer.NoMarkerLineNothingCollected | visualizer/visualizer.js:76-79 | collection starts only after a marker line |
| Visualizer.SecondMarkerDoesNotStop | visualizer/visualizer.js:76-86 | a [TABLE] or [DIET_PLAN] line met while collecting is taken by the marker test first and does not stop collection |
| Visualizer.CleanCollected | visualizer/visualizer.js:94-104 | the cleaned pattern 3 text holds no backtick |
| Visualizer.BraceSpanBounds | visualizer/visualizer.js:138-145 | a span exists exactly when a "{" precedes a "}"; it runs from the first "{" to the last "}" inclusive |
| Visualizer.QuoteKeys | visualizer/visualizer.js:160 | quoting keys adds only double quotes |
| Visualizer.DropTrailingCommas | visualizer/visualizer.js:161-162 | dropping trailing commas adds no character |
| Visualizer.MapChar | visualizer/visualizer.js:155 | single quotes become double quotes and nothing else changes |
| Visualizer.CleanSpanHasNoTickOrQuote | visualizer/visualizer.js:148-162 | the cleaned span has no backtick and no single quote |
| Visualizer.CleanSpan | visualizer/visualizer.js:147-162 | the emergency cleaning of the brace span; stated by CleanSpanHasNoTickOrQuote, QuoteKeys, DropTrailingCommas and MapChar |
| Visualizer.Candidates | visualizer/visualizer.js:44-122 | the texts the four patterns offer the parser, in pattern order; stated with the parser by FirstParsedIsFirst |
| Visualizer.ExtractJson | visualizer/visualizer.js:44-125 | the data of the first candidate the parser accepts; stated by FirstParsedIsFirst |
| Visualizer.FirstParsedIsFirst | visualizer/visualizer.js:44-122 | the data comes from the first candidate the parser accepts, in pattern order; none means every candidate was rejected |
| Visualizer.FallbackPrecedence | visualizer/visualizer.js:173-179 | the fallback title ranks process steps, chart, diet plan, table; it is the default exactly when no marker is present |
| Visualizer.FallbackTitle | visualizer/visualizer.js:174-179 | the fallback title; stated by FallbackPrecedence |
| Visualizer.IconFor | visualizer/visualizer.js:497-505 | an unknown type gets fa-chart-bar |
| Visualizer.GenerateHeaders | visualizer/visualizer.js:239-250 | the header loop yields the headers of the table header specification |
| Visualizer.TableHeadersShape | visualizer/visualizer.js:245-250 | given headers are kept; with none and some rows, one distinct "Column i" per cell of the first row |
| Visualizer.RenderedData | visualizer/visualizer.js:239-249 | the data as the table renderer leaves it: a table's empty header array is filled in place with the generated headers |
| Visualizer.RenderedDataOnlyHeaders | visualizer/visualizer.js:239-249 | rendering changes at most the headers, only for a table with an empty header array and a first row with cells, and then to one distinct "Column i" per cell |
| Visualizer.DashCells | visualizer/visualizer.js:550 | one run of dashes per header, as long as the header |
| Visualizer.TableToText | visualizer/visualizer.js:539-558 | the loop builds the title, the tab-joined headers, the dash line and one line per row |
| Visualizer.DashLineReadsBack | visualizer/visualizer.js:550 | the dash line splits back into one all-dash cell per header, of its length |
| Visualizer.RowsTextLines | visualizer/visualizer.js:553-555 | with no line break in a cell, the rows take exactly one line each |
| Visualizer.VentoraVisualizer.constructor | visualizer/visualizer.js:4 | the registry starts empty |
| Visualizer.VentoraVisualizer.CreateVisualization | visualizer/visualizer.js:205-237 | a supported type (default "table") is shown and appended to the registry as one record holding the data as rendered, so a table's empty header array holds the generated headers; an unsupported one leaves it untouched |
| Visualizer.VentoraVisualizer.ProcessAIResponse | visualizer/visualizer.js:29-132 | text without a marker is returned as is; without extracted data the fallback title is shown; otherwise the data is visualized as in CreateVisualization |
| MainMenu.Toggled | mainmenupopup/mainmenupopup.js:603-606 | an in-range toggle flips that task's completion only; an out-of-range index changes nothing |
| MainMenu.ToggleTwice | mainmenupopup/mainmenupopup.js:603-606 | toggling the same index twice restores the list |
| MainMenu.Deleted | mainmenupopup/mainmenupopup.js:611-615 | an in-range delete removes exactly that task and keeps the others in order; an out-of-range index changes nothing |
| MainMenu.DeletedMultiset | mainmenupopup/mainmenupopup.js:613 | the deleted task and the remaining ones are exactly the old tasks |
| MainMenu.CountRole | mainmenupopup/mainmenupopup.js:453-454 | a role count never exceeds the message count, and equals it exactly when every message has that role |
| MainMenu.RoleCountsBound | mainmenupopup/mainmenupopup.js:452-454 | user and assistant counts together never exceed the message count |
| MainMenu.ConcatAppend | mainmenupopup/mainmenupopup.js:684-697 | concatenating blocks distributes over cutting the block list in two |
| MainMenu.ConcatBlockAt | mainmenupopup/mainmenupopup.js:684-697 | each block appears in the concatenation at the sum of the earlier lengths |
| MainMenu.StripTags | mainmenupopup/mainmenupopup.js:692 | stripping tags never lengthens the text or adds a character |
| MainMenu.StripTagsLeavesNoTag | mainmenupopup/mainmenupopup.js:692 | no "<" followed later by ">" remains |
| MainMenu.NoTagUnchanged | mainmenupopup/mainmenupopup.js:692 | text without a tag is left as it is |
| MainMenu.StripTagsIdempotent | mainmenupopup/mainmenupopup.js:692 | stripping twice is stripping once |
| MainMenu.TextBlocks | mainmenupopup/mainmenupopup.js:684-697 | one entry per message, in order |
| MainMenu.TextEntryShape | mainmenupopup/mainmenupopup.js:685-696 | an entry starts with its optional time, names "You" exactly for user messages and ends with a blank line |
| MainMenu.FormattingOnlyStripsAssistantTags | mainmenupopup/mainmenupopup.js:690-696 | formatting changes an entry only for assistant content holding tags |
| MainMenu.ExportAsText | mainmenupopup/mainmenupopup.js:673-705 | the loop builds the text export specification |
| MainMenu.TextExportFraming | mainmenupopup/mainmenupopup.js:676-702 | the text starts with the banner and ends with the footer, each exactly when metadata is included |
| MainMenu.ExportText | mainmenupopup/mainmenupopup.js:673-705 | the text export: optional banner, one entry per message, optional footer; stated by TextExportFraming, TextBlocks and TextEntryShape |
| MainMenu.MdBlocks | mainmenupopup/mainmenupopup.js:791-798 | one Markdown entry per message, in order |
| MainMenu.ExportAsMarkdown | mainmenupopup/mainmenupopup.js:780-803 | the loop builds the Markdown export specification |
| MainMenu.MarkdownFraming | mainmenupopup/mainmenupopup.js:783-800 | the Markdown always ends with "*Exported from Ventora AI*" and starts with a heading exactly when metadata is included |
| MainMenu.MarkdownBlockAt | mainmenupopup/mainmenupopup.js:791-797 | each message's entry appears in order and ends with the "---" separator |
| MainMenu.ExportMarkdown | mainmenupopup/mainmenupopup.js:780-803 | the Markdown export: optional heading, one entry per message, the closing line; stated by MarkdownFraming and MarkdownBlockAt |
| MainMenu.Popup.constructor | mainmenupopup/mainmenupopup.js:4-5 | the popup starts inactive on the menu view with no section |
| MainMenu.Popup.Open | mainmenupopup/mainmenupopup.js:55-79 | with the modal present the popup becomes active on the menu view with no section; nothing else changes |
| MainMenu.Popup.Close | mainmenupopup/mainmenupopup.js:82-94 | with the modal present the popup becomes inactive and is reset to the menu view with no section |
| MainMenu.Popup.OpenSection | mainmenupopup/mainmenupopup.js:127-148 | the section is recorded even when unknown; the content view is shown only for a known section on a narrow screen |
| MainMenu.Popup.GoBackToMenu | mainmenupopup/mainmenupopup.js:151-162 | on a narrow screen the view returns to the menu with no section, otherwise nothing changes |
| MainMenu.Popup.AddTask | mainmenupopup/mainmenupopup.js:588-599 | blank or missing input changes nothing; otherwise the untrimmed input is appended as an open task and the input emptied |
| MainMenu.Popup.ToggleTask | mainmenupopup/mainmenupopup.js:601-608 | the tasks become the toggled list and nothing else changes |
| MainMenu.Popup.DeleteTask | mainmenupopup/mainmenupopup.js:610-618 | the tasks become the list without that index and nothing else changes |
| MainMenu.Popup.ClearAllData | mainmenupopup/mainmenupopup.js:812-849 | conversations, tasks and notes are emptied and personalization and settings reset to their defaults |
| Ocr.NonBlankLines | ocr/ocr.js:106 | the kept lines are non-blank and hold no line break |
| Ocr.OtherLines | ocr/ocr.js:126-128 | the other group holds only lines of the input that no medicine pattern matches |
| Ocr.GroupsPartitionLines | ocr/ocr.js:122-128 | every line lands in exactly one of the two groups, as often as in the input |
| Ocr.GroupsKeepOrder | ocr/ocr.js:122-128 | grouping commutes with cutting the lines in two, so each group keeps the input order |
| Ocr.FormatFraming | ocr/ocr.js:117-141 | the text always starts with the extraction banner and ends with the advice to verify with a doctor |
| Ocr.SectionsReadBack | ocr/ocr.js:130-138 | a section is written exactly when its group is non-empty, and its lines split back into the group |
| Ocr.FormatMedicineText | ocr/ocr.js:105-144 | the formatted extraction; stated by FormatFraming, SectionsReadBack, GroupsPartitionLines and GroupsKeepOrder |
| Ocr.PdfNotice | ocr/ocr.js:169-178 | the fixed notice naming the file and its size in KB, which a PDF gets instead of extracted text |
| Ocr.OcrContext.constructor | ocr/ocr.js:4-9 | the context starts idle with all text fields empty |
| Ocr.OcrContext.ProcessFileWithOCR | ocr/ocr.js:186-222 | images go to the image extractor and set type "image", PDFs get the notice and type "pdf", other types fail as unsupported with the type kept; a settled result clears the processing flag and only success overwrites the text |
| Ocr.OcrContext.Clear | ocr/ocr.js:225-232 | all four fields return to their empty defaults |
| JsString.TrimIsSlice | fileupload/fileupload.js:193 | trimming removes exactly the leading and trailing white space |
| JsString.TrimIdempotent | fileupload/fileupload.js:193 | trimming twice is trimming once |
| JsString.SplitPiecesFree | ocr/ocr.js:106 | no piece of a split holds the separator |
| JsString.SplitJoin | ocr/ocr.js:132 | joining pieces without the separator and splitting again gives the pieces back |
| JsString.CollapseKeepsContent | fileupload/fileupload.js:247 | collapsing white space runs leaves no two spaces in a row and keeps every non-space character |

## Left out

- Rendering and the DOM are not modelled. This covers the HTML templates, toasts, popups, listeners and `escapeHtml`, and the rendering of charts, diet cards and process steps.
- The flowchart node markup is a `FlowPiece` value; its class names are kept, and the caption is inserted unescaped, as the source does.
- Library-driven exports are left out because they go through third-party libraries: Excel, PDF, image and JSON, `exportAsHTML`, and the export dispatcher.
- `JSON.parse` and `JSON.stringify` are oracles or left out; the model covers only the slicing and cleaning that feed them.
- The network call to the upstream API is an oracle. Each slot is tried at most once per request, so a function of the outbound request covers every sequence of outcomes.
- The Tesseract worker, `TextDetector`, the canvas fallback and `FileReader` are left out; their outcomes are inputs. This includes `extractTextFromCanvas`, `fallbackTextExtraction` and `sendOCRTextToAI`.
- The medicine regular expressions are the predicate parameter `isMedicine`, because regular expressions (four of the five case-insensitive) are not modelled.
- Clocks, random ids and locale formatting are parameters: `Date.now()`, `Math.random()`, `toLocaleString` and `toFixed`.
- Concurrency is not modelled; every request and every asynchronous completion runs to the end before the next. Two consequences follow.
- FileUpload.FileContext.ProcessFile: settles the entry found by id when extraction completes. The source captures the index before awaiting, so a file removed meanwhile could make it update another entry; that race is not modelled.
- ChatRouter.ChatProxy.HandleRequest: each request runs atomically. Concurrent invocations sharing the cooldown map are not modelled.
- ChatRouter.ChatProxy.HandleRequest: follows the corrected pool lookup `ChatRouter.PoolFor`, as does `ChatRouter.Handle`. A mode naming an Object.prototype member ("constructor", "toString", …) is answered from the general pool, where the code as written throws at the loop (see Findings, `ChatRouter.PoolLookupAsWritten`).
- MainMenu.Popup.OpenSection: only the five section ids are known sections. A name inherited from Object.prototype, which the source's `sections[sectionId]` test also accepts, is treated as unknown.
- Temperature and max_tokens are opaque `real` values, because floating point is not modelled. Settings use `real` for the temperature.
- JsString.ToLower: lower-cases ASCII letters only, because Unicode case mapping is not modelled. Trigger and keyword matching is exact for ASCII text.
- MainMenu.Popup.Close: states the state after the 300 ms timer has fired, because timers are not modelled. The reset is not modelled as delayed.
- MainMenu.Popup.ClearAllData: the conversation history is modelled as the stored list that the call removes. Re-rendering and `createNewConversation` belong to the chat screen and are not part of this model.
- Ocr.OcrContext.ProcessFileWithOCR: a rejected image load is `None`, ending the call with the processing flag still set, as the source leaves it.
- `localStorage` is a field of each class holding what was last written. Reading it back and its quota errors are not modelled.
- `renderSection`, the goals notes editor, `createNewConversation` and the personalization and settings forms are form plumbing around the modelled state, so they are left out.
- CsvExport.Escape: states only that the output is no shorter than the input; what it means is stated by `CsvExport.EscapeReadsBack`.
- Cells of a table are strings. The `String(cell)` conversion of other JSON values is not modelled for tables, but it is for diet plans (`CsvExport.Value`).

## Findings

| source | as written | input that shows it | evidently intended | confidence | as-written member | corrected member |
|---|---|---|---|---|---|---|
| api/chat.js:64 | `GROQ_POOLS[mode] \|\| GROQ_POOLS.general` also finds names inherited from Object.prototype, and the `for…of` at line 69 then throws on the non-iterable value | model "groq:constructor": mode "constructor" finds the Object constructor, the loop throws and the request fails with an unhandled error instead of using the general pool (`ChatRouter.ConstructorModeNotIterable`) | any mode without its own pool uses the general pool | not executed | ChatRouter.PoolLookupAsWritten | ChatRouter.PoolFor |
