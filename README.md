# File-MCP-Analyzer: a verified model of the analysis services

File-MCP-Analyzer lets a user upload files to blob storage and ask an Azure OpenAI
deployment questions about them. This project models the two service modules that hold the
repository's sequential logic:

- `services/fileAnalysis.js` (`FileAnalysisService`). It classifies a storage key by suffix:
  a coarse kind and a full MIME type. It then fetches and extracts one file, or a batch of
  files, and hands the text to the backend client. A batch never stops at a bad file. It
  substitutes a placeholder record instead.
- `services/azureMcpClient.js` (`AzureMCPClient`). It supervises the Azure MCP server child
  process: connection state, a bounded reconnect counter, and retry timers. It also builds
  the chat requests: the system-prompt table, the single-file, image, summary and
  extract-data templates, and the combined multi-file prompt with per-file truncation.

Modules:

- `Common` (`common.dfy`): `Option`/`Result`, bytes, and the JavaScript string operations
  the code relies on: `split(sep).pop()`, ASCII `toLowerCase`, and `${n}`.
- `FileKinds` (`file_kinds.dfy`): the two suffix tables and the service's own prompt table.
  Also the lookups exactly as written, including Object-prototype keys.
- `McpPrompts` (`mcp_prompts.dfy`): the client's request builders. The `for` loop of
  `getSystemPrompt` and the `forEach` that builds the combined prompt are methods. Each is
  proved against a function.
- `McpClient` (`mcp_client.dfy`): the supervisor.
  - Its state is a `State` value, with one pure step function per event: `initialize` up to
    its 3-second wait, the end of that wait, the process `error` and `exit` events, a retry
    timer firing, `ensureConnected`, and `disconnect`.
  - Lemmas about runs of events state the bounds and behaviours.
  - The class `AzureMcpClient` holds the same state in fields. Each state-changing method is
    proved to leave exactly the state its events produce: `Snapshot() == Step(old(Snapshot()), e)`,
    or a `Run` of the spawn and the end of its wait.
  - The chat methods take the completion call as a parameter.
- `Analysis` (`analysis.dfy`): the class `FileAnalysisService`.
  - Every foreign call is a field of an `Io` value: storage fetch, `pdf-parse`, `mammoth`,
    the CSV-to-JSON conversion, and Buffer decoding.
  - `analyzeFile` and `summarizeFile` are modelled as `switch` dispatches. The batch loop is
    proved to build `FileContents`, a map over the keys.
  - A failed file's record has content `[Error processing file: <message>]`. Its name
    appears only in the block header `File i: <name> (error)`.
- Failures are modelled as `Err(message)`. Most carry a fixed message. The multi-file
  errors of both modules carry the inner error's message behind the prefix
  `Failed to analyze multiple files: `. A failed storage fetch in a batch carries the storage
  layer's own message into the file's placeholder record.

## Model

| member | source | states |
|---|---|---|
| Common.AfterLast | services/fileAnalysis.js:238 | `split(sep).pop()` is a suffix of the key that contains no separator |
| Common.AfterLastFollowsSep | services/fileAnalysis.js:238 | when the key has a separator, the segment returned starts right after one |
| Common.AfterLastUnique | services/fileAnalysis.js:238 | the segment is the unique separator-free suffix that a separator precedes |
| Common.LowerAfterLast | services/fileAnalysis.js:238 | lower-casing and taking the last `.` segment commute |
| Common.Lower | services/fileAnalysis.js:238 | ASCII lower-casing keeps the length and lower-cases each ASCII letter |
| Common.NatToString | services/azureMcpClient.js:157 | `${n}` is a non-empty string of digits without a leading zero |
| Common.NatToStringValue | services/azureMcpClient.js:157 | the digits of `${n}` denote n |
| Common.StartsWith | services/azureMcpClient.js:312 | `mimeType.startsWith(type)`: the prefix fits and the string begins with it; McpPrompts.FirstPrefixMatchAt and FirstPrefixMatchNone state the scan built on it |
| Common.IsUpper | services/fileAnalysis.js:238 | the ASCII capitals `A`..`Z`, the letters `toLowerCase` changes in the model |
| Common.LowerChar | services/fileAnalysis.js:238 | `toLowerCase` on one character: never a capital, and a non-capital is unchanged |
| Common.IsLowerCase | services/fileAnalysis.js:238 | a string with no ASCII capital; Common.LowerIsLowerCase and Common.LowerOfLowerCase relate it to `Lower` |
| Common.LowerIsLowerCase | services/fileAnalysis.js:238 | the result of `toLowerCase` has no capital left |
| Common.LowerOfLowerCase | services/fileAnalysis.js:238 | `toLowerCase` leaves a lower-case string unchanged |
| Common.LowerAppend | services/fileAnalysis.js:238 | lower-casing a concatenation lower-cases each part |
| Common.LowerSnoc | services/fileAnalysis.js:238 | lower-casing a string with one more character appends that character lower-cased |
| Common.AfterLastSnoc | services/fileAnalysis.js:238 | `split(sep).pop()` of a string with one more character: empty when it is the separator, otherwise one character longer |
| Common.DigitChar | services/azureMcpClient.js:157 | the character of one decimal digit is between `0` and `9` |
| Common.DecimalValue | services/azureMcpClient.js:157 | the number a digit string denotes; Common.NatToStringValue shows `${n}` denotes n |
| FileKinds.KindNameInjective | services/fileAnalysis.js:240-254 | the six kind names are pairwise distinct |
| FileKinds.Extension | services/fileAnalysis.js:238 | the suffix is lower case and free of `.` |
| FileKinds.GetMimeType | services/fileAnalysis.js:237-255 | the coarse kind is the table entry for the lower-cased suffix; `unknown` exactly when the suffix is unmapped |
| FileKinds.GetFullMimeType | services/fileAnalysis.js:257-275 | the table's MIME type for a mapped suffix; `application/octet-stream` for every other suffix |
| FileKinds.ClassificationIgnoresCase | services/fileAnalysis.js:237-275 | keys equal up to case get the same kind and the same MIME type |
| FileKinds.ClassificationSeesOnlySuffix | services/fileAnalysis.js:237-275 | keys with the same lower-cased last segment are classified alike |
| FileKinds.ExtensionOf | services/fileAnalysis.js:238 | a key whose last `.` precedes `suffix` has extension `Lower(suffix)` |
| FileKinds.ClassifiedBySuffix | services/fileAnalysis.js:240-274 | both classifications are the table lookups of the extension |
| FileKinds.PdfInAnyCase | services/fileAnalysis.js:237-275 | `Report.PDF`, `report.pdf` and any key ending in `.pdf` in any case are `pdf` / `application/pdf` |
| FileKinds.EntryAgrees | services/fileAnalysis.js:240-272 | what agreement of one kind-table entry with one MIME-table entry means: `image` exactly for the `image/` types, pdf, text, csv and docx exactly for their own types, neither a fallback; FileKinds.TablesAgreeOn proves it of every suffix |
| FileKinds.ImageEntryAgrees | services/fileAnalysis.js:240-252 | every `image/` type agrees with the kind `image` |
| FileKinds.DocumentEntryAgrees | services/fileAnalysis.js:246-250 | the pdf, text, csv and Word types each agree with their own kind |
| FileKinds.ImageSuffixesAgree | services/fileAnalysis.js:241-266 | the six image suffixes are in both tables, with agreeing entries |
| FileKinds.DocumentSuffixesAgree | services/fileAnalysis.js:246-271 | the five document suffixes are in both tables, with agreeing entries |
| FileKinds.TablesAgreeOn | services/fileAnalysis.js:240-272 | the two tables have the same suffixes and agree suffix by suffix |
| FileKinds.TablesAgree | services/fileAnalysis.js:240-274 | kind `image` iff the full type starts with `image/`; pdf, text, csv and docx iff their MIME types; `unknown` iff octet-stream |
| FileKinds.TableKeysAgree | services/fileAnalysis.js:240-272 | the two tables' key sets are equal |
| FileKinds.SystemPrompt | services/fileAnalysis.js:225-235 | the table's prompt for the five kind names; the generic prompt for any other string |
| FileKinds.SystemPromptOfKind | services/fileAnalysis.js:225-235 | each known kind gets its own prompt; only `unknown` gets the generic one |
| FileKinds.KindName | services/fileAnalysis.js:240-254 | no kind is named `error`, the batch's failure type |
| FileKinds.LookupOr | services/fileAnalysis.js:254 | an object-literal lookup with a fallback, on a literal whose values are non-empty strings: the own entry, else the inherited property of that name, else the fallback; its cases are stated by FileKinds.InheritedSuffixAsWritten and FileKinds.AsWrittenAgreesElsewhere |
| FileKinds.KindNameTable | services/fileAnalysis.js:240-252 | the `mimeTypes` literal of `getMimeType`, suffix to kind name; FileKinds.AsWrittenAgreesElsewhere relies on its keys being those of the kind table |
| FileKinds.MimeTypeAsWritten | services/fileAnalysis.js:237-255 | `getMimeType` as written, reading inherited properties; FileKinds.AsWrittenAgreesElsewhere, FileKinds.InheritedSuffixAsWritten and FileKinds.ConstructorSuffixAsWritten state what it returns |
| FileKinds.FullMimeTypeAsWritten | services/fileAnalysis.js:257-275 | `getFullMimeType` as written, reading inherited properties; the same three lemmas state what it returns |
| FileKinds.SystemPromptAsWritten | services/fileAnalysis.js:225-235 | the service's `getSystemPrompt` as written, with its argument not lower-cased; FileKinds.ToStringPromptAsWritten shows an inherited name reaching it |
| FileKinds.LowerCasePrototypeProperties | services/fileAnalysis.js:254 | of the inherited property names, only `constructor` and `__proto__` are lower case |
| FileKinds.AsWrittenAgreesElsewhere | services/fileAnalysis.js:254 | apart from those two suffixes, the lookups as written return the corrected results |
| FileKinds.InheritedSuffixAsWritten | services/fileAnalysis.js:254 | an unmapped suffix naming an inherited property yields that property, not the fallback |
| FileKinds.ConstructorSuffixAsWritten | services/fileAnalysis.js:254 | every key ending in `.constructor` is classified as the inherited `Object` function |
| FileKinds.ConstructorExtension | services/fileAnalysis.js:238 | a key ending in `.constructor` has extension `constructor` |
| FileKinds.ToStringPromptAsWritten | services/fileAnalysis.js:234 | `getSystemPrompt('toString')` returns the inherited function; corrected, the generic prompt |
| McpPrompts.FirstPrefixMatch | services/azureMcpClient.js:311-317 | the scan over a table's entries in order, as a recursive function; McpPrompts.FirstPrefixMatchAt, FirstPrefixMatchNone and FirstPrefixMatchIsTableOrGeneric state its result |
| McpPrompts.PromptFor | services/azureMcpClient.js:301-318 | what `getSystemPrompt(mimeType)` returns; McpPrompts.GetSystemPrompt's loop is proved to return it, and McpPrompts.ImageTypesGetImagePrompt and the `Analysis.*PromptFor` lemmas state its values |
| McpPrompts.GetSystemPrompt | services/azureMcpClient.js:301-318 | the prompt of the first table entry, in table order, whose key is a prefix of the MIME type; the generic prompt when none is |
| McpPrompts.FirstPrefixMatchAt | services/azureMcpClient.js:311-315 | the first matching entry decides, whatever follows it |
| McpPrompts.FirstPrefixMatchNone | services/azureMcpClient.js:311-317 | with no key a prefix, the generic prompt |
| McpPrompts.ImageTypesGetImagePrompt | services/azureMcpClient.js:303 | every `image/...` type gets the image prompt |
| McpPrompts.FirstPrefixMatchIsTableOrGeneric | services/azureMcpClient.js:301-318 | the result is always a table prompt or the generic prompt |
| McpPrompts.FileHead | services/azureMcpClient.js:129 | the `File: <name>\nContent: ` head of the single-file message; McpPrompts.FileQuestion states the message slice by slice |
| McpPrompts.QuestionTail | services/azureMcpClient.js:129 | the `\n\nQuestion: <query>` tail of the single-file message; McpPrompts.FileQuestion states the message slice by slice |
| McpPrompts.FileQuestion | services/azureMcpClient.js:129 | `File: <name>\nContent: <content>\n\nQuestion: <query>`, with the content embedded verbatim |
| McpPrompts.FileRequest | services/azureMcpClient.js:120-138 | a system message with the MIME type's prompt, then the user question; 1500 tokens |
| McpPrompts.ImageRequest | services/azureMcpClient.js:203-226 | one user message: the query or, when empty, the default question, and the `data:image/jpeg;base64,` URL of the image; 1000 tokens |
| McpPrompts.SummaryPrompt | services/azureMcpClient.js:241 | the summary prompt names the file type between its fixed head and tail |
| McpPrompts.SummaryRequest | services/azureMcpClient.js:241-258 | the summary system prompt, then the intro followed by the content verbatim; 1500 tokens |
| McpPrompts.ExtractDataPrompt | services/azureMcpClient.js:274 | the whole extract prompt: the fixed head, the data type, ` from the `, the file type and ` content and format it clearly.` |
| McpPrompts.ExtractDataQuestion | services/azureMcpClient.js:283 | the whole user message: `Extract `, the data type, the fixed instruction ending in two newlines, then the content verbatim |
| McpPrompts.ExtractDataRequest | services/azureMcpClient.js:274-291 | the extract system prompt, then the instruction; 1500 tokens |
| McpPrompts.Truncate | services/azureMcpClient.js:156-163 | content of at most 8000 characters is unchanged; longer content is its first 8000 characters and the marker |
| McpPrompts.TruncateBounded | services/azureMcpClient.js:156-163 | a truncated content is never longer than 8000 characters plus the marker |
| McpPrompts.TruncateIdempotent | services/azureMcpClient.js:160-163 | truncating twice is truncating once |
| McpPrompts.LongContentTruncated | services/azureMcpClient.js:160-163 | a 20,000-character content becomes its first 8000 characters and the marker |
| McpPrompts.Preamble | services/azureMcpClient.js:157 | `I have <n> files to analyze:\n\n`; McpPrompts.CombinedFraming shows the prompt starts with it |
| McpPrompts.BlockHeader | services/azureMcpClient.js:165 | `File <index + 1>: <fileName> (<type>)\n`; McpPrompts.BuildCombinedContent's loop appends exactly it |
| McpPrompts.BlockBody | services/azureMcpClient.js:166 | `Content: <truncated content>\n\n---\n\n`; McpPrompts.BuildCombinedContent's loop appends exactly it |
| McpPrompts.Block | services/azureMcpClient.js:165-166 | one file's header and body; McpPrompts.CombinedLayout places it in the prompt |
| McpPrompts.BlocksFrom | services/azureMcpClient.js:159-167 | the blocks of the files from one position on; McpPrompts.BlocksSplit and McpPrompts.AppendFileAppendsBlock state its structure |
| McpPrompts.BlockList | services/azureMcpClient.js:159-167 | one block per file, in file order, block i numbered by its position i |
| McpPrompts.BlocksFromJoin | services/azureMcpClient.js:159-167 | the blocks from a position on are the blocks of the list from that position, concatenated in order |
| McpPrompts.PrefixBlocksAgree | services/azureMcpClient.js:159-167 | the files before position k, taken on their own, keep their blocks and their numbering |
| McpPrompts.CombinedContent | services/azureMcpClient.js:157-169 | the combined message: preamble, blocks in file order, `Question: <query>`; McpPrompts.BuildCombinedContent's loop is proved to build it, and McpPrompts.CombinedLayout, TwoBlocks and CombinedFraming state its layout |
| McpPrompts.BuildCombinedContent | services/azureMcpClient.js:157-169 | the `+=` loop builds exactly the preamble, the blocks in file order and `Question: <query>` |
| McpPrompts.MultiFileRequest | services/azureMcpClient.js:153-186 | the fixed multi-file system prompt, then the combined content; 3000 tokens |
| McpPrompts.BlocksSplit | services/azureMcpClient.js:159-167 | the blocks split at any file: those before it, its own block, those after it |
| McpPrompts.CombinedLayout | services/azureMcpClient.js:157-169 | file k's block, numbered k + 1, comes after the blocks of the files before it, between the preamble and the question |
| McpPrompts.TwoBlocks | services/azureMcpClient.js:157-169 | a two-file prompt is the preamble, the two blocks and the question |
| McpPrompts.CombinedFraming | services/azureMcpClient.js:157-169 | the prompt starts with `I have <n> files to analyze:\n\n` and ends with `Question: <query>` |
| McpPrompts.AppendFileAppendsBlock | services/azureMcpClient.js:159-167 | one more file adds exactly its block at the end |
| McpClient.OnConnectionError | services/azureMcpClient.js:88-103 | below the maximum: one more attempt and one armed timer; at the maximum: no change |
| McpClient.OnInitialize | services/azureMcpClient.js:25-60 | a throwing spawn is a connection error; otherwise a live process and a pending wait |
| McpClient.OnStartupWaitEnds | services/azureMcpClient.js:47-54 | the end of the wait connects and resets the attempts, whether or not the process survived |
| McpClient.OnStartupWaitEndsChecked | services/azureMcpClient.js:47-54 | corrected: connects and resets only if the process is alive |
| McpClient.OnProcessError | services/azureMcpClient.js:73-77 | `error` clears the connection and is a connection error |
| McpClient.OnProcessExit | services/azureMcpClient.js:79-85 | `exit` clears the connection; a connection error exactly when the code is not 0 (null included) |
| McpClient.OnRetryTimer | services/azureMcpClient.js:93-99 | an armed timer fires `initialize` |
| McpClient.OnEnsureConnected | services/azureMcpClient.js:105-110 | only a disconnected client initializes |
| McpClient.OnDisconnect | services/azureMcpClient.js:346-358 | with a process and a connection, both are cleared; otherwise nothing changes |
| McpClient.Invariant | services/azureMcpClient.js:88-90 | the attempts never exceed 3 and only a set process can be alive; McpClient.StepKeepsInvariant shows every event keeps it |
| McpClient.Step | services/azureMcpClient.js:25-110 | one event dispatched to its handler (spawn, end of wait, `error`, `exit`, retry timer, `ensureConnected`, and `disconnect` at services/azureMcpClient.js:346-358); the `On...` rows state each handler, McpClient.StepKeepsInvariant the invariant |
| McpClient.StepChecked | services/azureMcpClient.js:47-54 | the same dispatch with the corrected end of the wait; McpClient.StartupWaitEndsAgreeWhenAlive states where it differs from Step |
| McpClient.Run | services/azureMcpClient.js:25-110 | a sequence of events applied in order; McpClient.RunAppend and McpClient.AttemptsNeverExceedMax state its behaviour |
| McpClient.RunChecked | services/azureMcpClient.js:47-103 | a sequence of events with the corrected wait; McpClient.CheckedRunKeepsAccounting and McpClient.CheckedRetriesBounded bound its retries |
| McpClient.RunAppend | services/azureMcpClient.js:62-103 | running two event sequences is running their concatenation |
| McpClient.StepKeepsInvariant | services/azureMcpClient.js:88-90 | every event keeps attempts at or below 3, written or corrected |
| McpClient.AttemptsNeverExceedMax | services/azureMcpClient.js:88-103 | `reconnectAttempts` never exceeds 3, whatever the events |
| McpClient.CheckedRunKeepsAccounting | services/azureMcpClient.js:47-103 | with the corrected wait, the retries since the last live start-up equal the attempt counter |
| McpClient.CheckedRetriesBounded | services/azureMcpClient.js:47-103 | with the corrected wait, at most 3 retries follow each other without a live start-up |
| McpClient.FailingChainLength | services/azureMcpClient.js:55-99 | failing retries fire every armed timer plus one per remaining attempt, then nothing is armed |
| McpClient.DrainFailingRetries | services/azureMcpClient.js:55-99 | the chain of armed retry timers firing with a failing spawn each time (lines 55-58, 93-99), counted; McpClient.FailingChainLength states its length and end state |
| McpClient.FailedStartRetriesExactlyMax | services/azureMcpClient.js:55-99 | from 0 attempts, a failing `initialize` is followed by exactly 3 automatic retries, and a further error schedules nothing |
| McpClient.SuccessfulInitializeConnects | services/azureMcpClient.js:50-54 | a successful spawn and its wait leave the client connected with 0 attempts |
| McpClient.ProcessEventsDisconnect | services/azureMcpClient.js:73-85 | both events clear `isConnected`; `error` always, `exit` only on a non-zero code, schedule a retry when below the maximum |
| McpClient.EnsureConnectedBehaviour | services/azureMcpClient.js:105-110 | connected: no change; disconnected: reconnects even when the attempts are used up |
| McpClient.DisconnectIdempotent | services/azureMcpClient.js:346-358 | disconnecting twice is disconnecting once |
| McpClient.SignalExitAfterDisconnectSchedulesRetry | services/azureMcpClient.js:346-358 | the SIGTERM exit after `disconnect` has code null, so a reconnect is scheduled |
| McpClient.StartupWaitEndsAgreeWhenAlive | services/azureMcpClient.js:47-54 | the corrected wait differs from the written one only when the process is gone |
| McpClient.StartupState | services/azureMcpClient.js:47-51 | a client inside the start-up wait of a live process, with k retries since the last live start-up; McpClient.CrashRoundAsWritten starts from it |
| McpClient.CrashRounds | services/azureMcpClient.js:47-99 | n rounds of a process error during the wait, the end of the wait and the retry timer; McpClient.CrashRoundsAsWritten states the state after them |
| McpClient.CrashRoundAsWritten | services/azureMcpClient.js:47-77 | as written, a process error during the wait is followed by a connect, an attempt reset and one more retry |
| McpClient.CrashRoundsAsWritten | services/azureMcpClient.js:47-99 | after n such rounds, n retries are counted and the attempts are back at 0 |
| McpClient.CrashDuringStartupRetriesForever | services/azureMcpClient.js:47-103 | as written, a server that dies in every start-up wait is retried without bound |
| McpClient.StatusOf | services/azureMcpClient.js:360-367 | the status as written: `processRunning` is whether a process is set |
| McpClient.StatusChecked | services/azureMcpClient.js:360-367 | corrected: `processRunning` is whether the process is still running |
| McpClient.ExitedProcessReportedRunning | services/azureMcpClient.js:365 | as written, a process that exited with code 1 is reported as running |
| McpClient.StatusCheckedTracksProcess | services/azureMcpClient.js:360-367 | the corrected status turns false on `error`, `exit` and `disconnect`, and true on a spawn |
| McpClient.AzureMcpClient.Snapshot | services/azureMcpClient.js:6-23 | the client's fields as one `State` value; every state-changing method states its new Snapshot |
| McpClient.AzureMcpClient.Valid | services/azureMcpClient.js:88-90 | the fields satisfy McpClient.Invariant |
| McpClient.AzureMcpClient.constructor | services/azureMcpClient.js:6-23 | disconnected, 0 attempts, no process; the OpenAI client is present exactly when configured |
| McpClient.AzureMcpClient.HandleConnectionError | services/azureMcpClient.js:88-103 | performs the connection-error step; reports whether a retry was scheduled |
| McpClient.AzureMcpClient.StartInitialize | services/azureMcpClient.js:25-59 | performs the spawn step; a spawn error is handled and rethrown |
| McpClient.AzureMcpClient.FinishInitialize | services/azureMcpClient.js:50-54 | performs the end of the wait as written; returns true, connected, 0 attempts |
| McpClient.AzureMcpClient.FinishInitializeChecked | services/azureMcpClient.js:50-54 | performs the corrected end of the wait; connected exactly when the process is alive |
| McpClient.AzureMcpClient.Initialize | services/azureMcpClient.js:25-60 | true after a spawn and its wait, or the spawn's error rethrown after the connection-error step |
| McpClient.AzureMcpClient.OnError | services/azureMcpClient.js:73-77 | performs the `error` step |
| McpClient.AzureMcpClient.OnExit | services/azureMcpClient.js:79-85 | performs the `exit` step |
| McpClient.AzureMcpClient.RetryTimerFires | services/azureMcpClient.js:93-99 | performs the timer step; the retry's error is swallowed |
| McpClient.AzureMcpClient.EnsureConnected | services/azureMcpClient.js:105-110 | unchanged and true when connected; otherwise `initialize`'s outcome, and when it returns, the resulting `isConnected` |
| McpClient.AzureMcpClient.Disconnect | services/azureMcpClient.js:346-358 | performs the `disconnect` step |
| McpClient.AzureMcpClient.GetServerStatus | services/azureMcpClient.js:360-367 | the status as written of the current state |
| McpClient.AzureMcpClient.GetServerStatusChecked | services/azureMcpClient.js:360-367 | the corrected status of the current state |
| McpClient.AzureMcpClient.ListResourceGroups | services/azureMcpClient.js:321-332 | leaves exactly the state `ensureConnected` leaves, keeping the invariant; succeeds with its fixed message exactly when `ensureConnected` returns; any error becomes `Failed to list resource groups` |
| McpClient.AzureMcpClient.GetStorageAccountDetails | services/azureMcpClient.js:334-344 | leaves exactly the state `ensureConnected` leaves, keeping the invariant; succeeds with its fixed message exactly when `ensureConnected` returns; any error becomes `Failed to get storage account details` |
| McpClient.AzureMcpClient.AnalyzeFile | services/azureMcpClient.js:114-145 | without an OpenAI client, or when the call fails: `Failed to analyze file`; otherwise the reply to the file request |
| McpClient.AzureMcpClient.AnalyzeImage | services/azureMcpClient.js:197-233 | without a client or on failure: `Failed to analyze image`; otherwise the reply to the image request |
| McpClient.AzureMcpClient.SummarizeContent | services/azureMcpClient.js:235-266 | without a client or on failure: `Failed to summarize content`; otherwise the reply to the summary request |
| McpClient.AzureMcpClient.ExtractData | services/azureMcpClient.js:268-299 | without a client or on failure: `Failed to extract data`; otherwise the reply to the extract request |
| McpClient.AzureMcpClient.AnalyzeMultipleFiles | services/azureMcpClient.js:147-195 | not configured: the prefixed not-configured error; a failed call keeps its message behind `Failed to analyze multiple files: `; otherwise the reply to the combined request |
| Analysis.ExtractPdfText | services/fileAnalysis.js:128-136 | the parser's text, or `Failed to extract PDF text` exactly when it throws |
| Analysis.ExtractDocxText | services/fileAnalysis.js:138-146 | mammoth's raw text, or `Failed to extract DOCX text` exactly when it throws |
| Analysis.Extract | services/fileAnalysis.js:36-51 | no extraction for image and unknown; pdf and docx through their extractors, text as UTF-8, csv as JSON; the only errors are the two extractor messages |
| Analysis.BaseName | services/fileAnalysis.js:93 | the file name contains no `/` |
| Analysis.ErrorEntry | services/fileAnalysis.js:101-106 | the placeholder of a failed file: its base name, its key, `[Error processing file: <message>]`, type `error`; Analysis.EntryPlaceholders and Analysis.ErrorEntriesExactlyFailures state when it is used |
| Analysis.EntryFor | services/fileAnalysis.js:64-107 | every record keeps its key as `fullPath` and its last segment as `fileName` |
| Analysis.FileContents | services/fileAnalysis.js:62-108 | one record per key, in key order, each the record of its own key |
| Analysis.EntriesKeepTheirKeys | services/fileAnalysis.js:92-106 | `fullPath` is the key unchanged; `fileName` its segment after the last `/` |
| Analysis.EntryPlaceholders | services/fileAnalysis.js:71-107 | fetch and extractor failures give `[Error processing file: <message>]`; images `[Image: <name>]`; unknown kinds `[Unsupported file type: <name>]` |
| Analysis.ExtractedEntries | services/fileAnalysis.js:75-97 | a PDF or Word key whose extractor succeeds gets a record holding exactly the extracted text, with type `pdf` or `docx` |
| Analysis.PdfEntry | services/fileAnalysis.js:75-97 | a fetched PDF key whose parser succeeds gets a record holding the parsed text, type `pdf` |
| Analysis.DocxEntry | services/fileAnalysis.js:84-97 | a fetched Word key whose extractor succeeds gets a record holding the raw text, type `docx` |
| Analysis.ErrorEntriesExactlyFailures | services/fileAnalysis.js:92-107 | a record is of type `error` exactly when the fetch or the extraction threw; otherwise its type is the kind name |
| Analysis.TextAndCsvFailOnlyInFetch | services/fileAnalysis.js:78-83 | a fetched text or CSV file always yields its decoded content |
| Analysis.FileContentsAppend | services/fileAnalysis.js:64-108 | one more key adds exactly its record at the end and changes no other |
| Analysis.CsvEntry | services/fileAnalysis.js:81-97 | a fetched CSV key's record holds the JSON of its rows, with type `csv` |
| Analysis.CorruptPdfEntry | services/fileAnalysis.js:75-106 | a PDF the parser rejects yields the error placeholder |
| Analysis.FileContentsPair | services/fileAnalysis.js:62-108 | a two-key batch is the two keys' records in key order |
| Analysis.OneCorruptFileKeepsBatch | services/fileAnalysis.js:62-110 | a readable CSV and a corrupt PDF give two records in order, the second an error placeholder |
| Analysis.PromptTablesAgree | services/fileAnalysis.js:225-274 | the client's prompt for a key's full MIME type is the service's prompt for its kind |
| Analysis.PdfPromptFor | services/azureMcpClient.js:301-318 | `application/pdf` gets the PDF prompt |
| Analysis.TextPromptFor | services/azureMcpClient.js:301-318 | `text/plain` gets the text prompt |
| Analysis.CsvPromptFor | services/azureMcpClient.js:301-318 | `text/csv` gets the CSV prompt |
| Analysis.WordTypesSkipEarlierKeys | services/azureMcpClient.js:302-308 | neither Word type starts with an earlier key of the table |
| Analysis.WordPromptFor | services/azureMcpClient.js:301-318 | both Word MIME types get the Word prompt |
| Analysis.OctetStreamPromptFor | services/azureMcpClient.js:301-318 | `application/octet-stream` gets the generic prompt |
| Analysis.FileAnalysisService.constructor | services/fileAnalysis.js:9-12 | the service uses the given client; the client's new state is that of `initialize` (spawn and wait, or the handled spawn error), and its invariant is kept |
| Analysis.FileAnalysisService.InitializeClient | services/fileAnalysis.js:14-21 | performs `initialize`, keeping the client's invariant, and swallows its error |
| Analysis.FileAnalysisService.AnalyzeFile | services/fileAnalysis.js:23-58 | fetch errors, unknown kinds, extractor errors and client errors all become `Failed to analyze file`; images go to `analyzeImage`; documents go to `analyzeFile` with the extracted text and full MIME type |
| Analysis.FileAnalysisService.SummarizeFile | services/fileAnalysis.js:189-223 | the same dispatch, with the fixed image question and `summarizeContent` with the kind name; every error becomes `Failed to summarize file` |
| Analysis.FileAnalysisService.LoadEntry | services/fileAnalysis.js:65-107 | one loop iteration builds exactly that key's record |
| Analysis.FileAnalysisService.CollectFileContents | services/fileAnalysis.js:62-108 | the loop builds exactly `FileContents`: one record per key, none dropped or reordered |
| Analysis.FileAnalysisService.AnalyzeMultipleFiles | services/fileAnalysis.js:60-116 | the client's reply to the request over all the keys' records; its error is prefixed once more |
| Analysis.FileAnalysisService.AnalyzeImage | services/fileAnalysis.js:118-126 | the client's `analyzeImage` of the base64 buffer; an error is `Failed to analyze image` |
| Analysis.FileAnalysisService.GenerateResponse | services/fileAnalysis.js:180-187 | the client's `analyzeFile` with name `file`; an error becomes `Failed to generate response` |

## Left out

- Spawning `npx @azure/mcp@latest`, its environment, and the stdout/stderr logging. The child process is two booleans: a process is set, and it is still alive. All `console` output is left out.
- The 3000 ms start-up wait and the 5000 ms retry delay are events (`StartupWaitEnds`, `RetryTimer`), not durations. Timers and waits are counters of what is pending.
- Concurrency is left out. Events are applied one at a time. An `error` or `exit` event from a process object that a later spawn has already replaced is treated like one from the current process.
- Interleaving inside one call is left out. `AzureMcpClient.Initialize`, `EnsureConnected` and the resource methods run the start-up wait to completion, with no event in between. Interleavings are stated on the step functions with `StartInitialize` and `FinishInitialize`.
- `DefaultAzureCredential`, the environment variables and `AzureOpenAI` construction are reduced to the boolean `hasOpenAIClient`.
- `chat.completions.create` is a `Completion` parameter that returns the reply text or a failure. The deployment name and the temperature 0.7 are left out.
- `McpClient.StatusOf`: `processRunning` is a boolean. The source returns `null` when no process is set.
- `McpPrompts.ImageRequest`: the content parts of the image message are a record of text and URL, not the exact JSON array.
- The extractor libraries (`pdf-parse`, `mammoth`, `csv-parse`, `sharp`) and Buffer's base64 and UTF-8 decoding are abstract fields of `Io`. `extractCsvData` never rejects, so its field returns a string.
- `services/azureStorage.js` is not part of this model. Its `getFileBuffer` is the `Io.getFileBuffer` parameter.
- The routes, authentication middleware and client UI are not part of this model.
- `Analysis.FileAnalysisService.constructor`: the source does not await `initializeClient`. The model runs it to completion before the constructor returns.
- `McpPrompts.Truncate`: lengths are in Dafny characters. JavaScript counts UTF-16 code units, so content outside the Basic Multilingual Plane is cut at a different place.
- `FileKinds.Extension`: lower-casing covers the ASCII letters only. The classification is unaffected: the only non-ASCII character that lower-cases to a single ASCII letter is the Kelvin sign, and it becomes `k`, which no table key contains.
- `Analysis.EntryFor`: the batch classifies keys with the corrected `GetMimeType`. The written lookup's `constructor`/`__proto__` results are stated separately in `FileKinds`.

## Findings

| source | as written | input that shows it | evidently intended | confidence | as-written member | corrected member |
|---|---|---|---|---|---|---|
| services/azureMcpClient.js:47-54 | after the 3-second wait, `initialize` sets `isConnected = true` and `reconnectAttempts = 0` even if the process has already emitted `error` or exited | a server that fails right after spawning (for example `npx` missing): `error` arrives during the wait and a retry is armed; the wait still resets the counter, and this repeats forever | connect and reset the counter only when the process is still running, so at most 3 retries happen | not executed | McpClient.CrashDuringStartupRetriesForever | McpClient.OnStartupWaitEndsChecked (bound proved in McpClient.CheckedRetriesBounded) |
| services/azureMcpClient.js:365 | `processRunning` is `mcpProcess && !mcpProcess.killed`; `killed` is only set by `disconnect`, which then clears `mcpProcess` | events `initialize`, end of wait, `exit` with code 1: the status reports `processRunning` true | `processRunning` is false once the process has exited or failed | not executed | McpClient.ExitedProcessReportedRunning | McpClient.StatusChecked (property in McpClient.StatusCheckedTracksProcess) |
| services/fileAnalysis.js:254 | `mimeTypes[extension] \|\| 'unknown'` reads inherited properties of the object literal | the key `report.constructor`: the kind is the `Object` function, not `unknown` (likewise the full MIME type at services/fileAnalysis.js:274) | unmapped suffixes give `unknown` and `application/octet-stream` | not executed | FileKinds.ConstructorSuffixAsWritten | FileKinds.GetMimeType (agreement elsewhere in FileKinds.AsWrittenAgreesElsewhere) |
