# Marketplace import, script-editor bookkeeping and curl wrapper state

This project is a Dafny model of three parts of the Singularity viewer. It proves properties of each part.

- **Marketplace inventory import** (`indra/newview/llmarketplacefunctions.cpp`).
  - The pure helpers that derive the marketplace domain and the import URL.
  - The import API. Its module-level state is the session cookie, the import id, the in-progress and pending flags, the last status and the last results. Three calls issue HTTP requests, and the POST and GET response handlers update the state.
  - The inventory importer that drives the API on a timer and reports through optional signals.
  - Each transition is defined on values (`Establish`, `Poll`, `Trigger`, `PostCompleted`, `GetCompleted`, `UpdateStep`, ...). The classes `ImportSession` and `InventoryImporter` carry out the same transitions on fields, and their methods are proved to follow those definitions.
  - HTTP requests and signal emissions are appended to logs rather than performed.
- **Script editor** (`indra/newview/llpreviewscript.cpp`).
  - The live file's "ignore next update" switch.
  - The "has changed" test and the one-space text stored for an empty script.
  - The Ctrl-S and Ctrl-F shortcuts.
  - The bounded live-help history. This is a combo box whose first `historySize` rows are history, trimmed by a `while` loop and bubbled in place.
  - The `(line, column)` parse of a clicked compiler error.
  - Closing a script window once its pending uploads have finished.
- **Curl wrapper state** (`indra/llmessage/aicurlprivate.h`). These are the bodies written inline in the header:
  - the timeout object's initial state and stall test;
  - the easy handle's active and queued-for-removal flags;
  - the result-code checkers and their statistics;
  - the easy request's initial state, stored result, lazily created timeout object and completion order;
  - the multi handle's typed option overloads.

Files:
- `wrappers.dfy`: `Option`.
- `marketplace_domain.dfy`: URL and domain helpers.
- `marketplace_import.dfy`: the import API.
- `marketplace_importer.dfy`: the importer.
- `script_editor.dfy`: live file, change test, empty text, shortcuts, upload counter.
- `help_history.dfy`: the help history.
- `error_position.dfy`: the error-row parse.
- `curl_private.dfy`: the curl wrappers.

Inputs that come from outside the modelled code are parameters:
- the marketplace URL and agent id (`Env`);
- the grid manager's answers (`GridInfo`);
- the main loop's clock count;
- whether the application is exiting;
- whether the help floater is shown;
- the code a libcurl call returns.

## Model

| member | source | states |
|---|---|---|
| MarketplaceDomain.LoginUriDomain | indra/newview/llmarketplacefunctions.cpp:44-53 | a host starting with "login." is that prefix followed by the result; any other host is returned unchanged |
| MarketplaceDomain.StripLoginPrefix | indra/newview/llmarketplacefunctions.cpp:48-51 | prefixing "login." to a domain and stripping it gives the domain back |
| MarketplaceDomain.ToLower | indra/newview/llmarketplacefunctions.cpp:76 | lower-casing keeps the length and lowers each character on its own |
| MarketplaceDomain.ToLowerIdempotent | indra/newview/llmarketplacefunctions.cpp:76 | lower-casing twice is the same as lower-casing once |
| MarketplaceDomain.MarketplaceDomain | indra/newview/llmarketplacefunctions.cpp:63-93 | production Second Life gives "secondlife.com"; a beta grid gives its lower-cased login domain, except that damballah maps to "secondlife-staging.com"; other grids give the login domain as is |
| MarketplaceDomain.SecondLifeDomainIsLower | indra/newview/llmarketplacefunctions.cpp:66-83 | on a Second Life grid the domain never contains an upper-case letter |
| MarketplaceDomain.BetaGridDomain | indra/newview/llmarketplacefunctions.cpp:55-57 | the login host "login.<gridid>.lindenlab.com" of a beta grid other than damballah gives "<gridid>.lindenlab.com" in lower case |
| MarketplaceDomain.StagingGridRecognised | indra/newview/llmarketplacefunctions.cpp:79-82 | the damballah grid maps to the staging domain whatever the case of its login host |
| MarketplaceDomain.InventoryImportUrl | indra/newview/llmarketplacefunctions.cpp:270-279 | the URL is the marketplace URL, "api/1/", the agent id and "/inventory/import/", and is 24 characters longer than URL plus id |
| MarketplaceDomain.ImportUrlInjective | indra/newview/llmarketplacefunctions.cpp:270-279 | two agents get the same import URL under one marketplace URL only if they are the same agent |
| MarketplaceImport.Establish | indra/newview/llmarketplacefunctions.cpp:281-303 | without a cookie: in progress, GET pending, one GET to the import URL with the media headers, and true; with a cookie: nothing changes and false |
| MarketplaceImport.Poll | indra/newview/llmarketplacefunctions.cpp:305-334 | with a cookie: GET pending and one GET to the import URL followed by the import id, with the cookie and user-agent headers; without one: nothing changes and false |
| MarketplaceImport.Trigger | indra/newview/llmarketplacefunctions.cpp:336-368 | with a cookie: id and results reset, status "processing", in progress, POST pending, and one POST with an undefined body; without one: nothing changes and false |
| MarketplaceImport.PostCompleted | indra/newview/llmarketplacefunctions.cpp:163-192 | the cookie is cleared exactly on redirect, authentication error or job timeout; in progress iff "done"; POST no longer pending; status and import id taken from the reply |
| MarketplaceImport.FirstValue | indra/newview/llmarketplacefunctions.cpp:205 | None iff no header has the name; otherwise the value of the first header with that name |
| MarketplaceImport.GetCompletedHeaders | indra/newview/llmarketplacefunctions.cpp:203-210 | a non-empty first set-cookie value becomes the cookie; otherwise nothing changes |
| MarketplaceImport.GetCompleted | indra/newview/llmarketplacefunctions.cpp:212-240 | the cookie is cleared exactly on authentication error or job timeout; in progress iff "processing"; GET no longer pending; status and results taken from the reply |
| MarketplaceImport.RespondersCompared | indra/newview/llmarketplacefunctions.cpp:176-191 | given the same reply, only the POST handler drops the cookie on a redirect, and each handler treats a different status as still in progress |
| MarketplaceImport.SessionHandshake | indra/newview/llmarketplacefunctions.cpp:203-240 | after a session GET whose reply sets a cookie and is neither an authentication error nor a timeout, the session holds that cookie and no GET is pending |
| MarketplaceImport.ImportRoundTrip | indra/newview/llmarketplacefunctions.cpp:163-192 | a triggered import followed by its POST reply leaves nothing pending and records the reply's status and id |
| MarketplaceImport.ImportSession.constructor | indra/newview/llmarketplacefunctions.cpp:145-151 | no cookie, empty id and results, status 0, nothing in progress or pending |
| MarketplaceImport.ImportSession.HasSessionCookie | indra/newview/llmarketplacefunctions.cpp:245-248 | true iff the cookie is non-empty |
| MarketplaceImport.ImportSession.InProgress | indra/newview/llmarketplacefunctions.cpp:250-253 | the in-progress flag |
| MarketplaceImport.ImportSession.IsResultPending | indra/newview/llmarketplacefunctions.cpp:255-258 | true iff a POST or a GET reply is awaited |
| MarketplaceImport.ImportSession.EstablishMarketplaceSessionCookie | indra/newview/llmarketplacefunctions.cpp:281-303 | state, request log and result follow `Establish` |
| MarketplaceImport.ImportSession.PollStatus | indra/newview/llmarketplacefunctions.cpp:305-334 | state, request log and result follow `Poll` |
| MarketplaceImport.ImportSession.TriggerImport | indra/newview/llmarketplacefunctions.cpp:336-368 | state, request log and result follow `Trigger` |
| MarketplaceImport.ImportSession.PostResponderCompleted | indra/newview/llmarketplacefunctions.cpp:163-192 | the state follows `PostCompleted` and no request is issued |
| MarketplaceImport.ImportSession.GetResponderCompletedHeaders | indra/newview/llmarketplacefunctions.cpp:203-210 | the state follows `GetCompletedHeaders` and no request is issued |
| MarketplaceImport.ImportSession.GetResponderCompleted | indra/newview/llmarketplacefunctions.cpp:212-240 | the state follows `GetCompleted` and no request is issued |
| MarketplaceImporter.InitializeStep | indra/newview/llmarketplacefunctions.cpp:433-441 | without a cookie the session GET is issued; with one nothing happens; the importer's fields are untouched |
| MarketplaceImporter.ReinitializeStep | indra/newview/llmarketplacefunctions.cpp:443-450 | not initialized, automatic import armed, and the session GET issued when there is no cookie |
| MarketplaceImporter.ImportTriggerStep | indra/newview/llmarketplacefunctions.cpp:452-462 | with a cookie the import POST is issued and true returned; otherwise the importer is uninitialized with the import armed, the session is as after `Establish` (in progress, GET pending, nothing else changed), the one request is the session GET to the import URL with the media headers, and false is returned; exactly one request either way |
| MarketplaceImporter.PollPhase | indra/newview/llmarketplacefunctions.cpp:466-478 | a poll happens only when an import is in progress and no reply is pending; a poll without a cookie re-initializes |
| MarketplaceImporter.FinishPhase | indra/newview/llmarketplacefunctions.cpp:483-513 | initialized: the status report is emitted; otherwise initialized becomes "has cookie", an armed import is triggered and disarmed, and a missing cookie emits the initialization error; at most one request and one signal |
| MarketplaceImporter.UpdateStep | indra/newview/llmarketplacefunctions.cpp:464-521 | no signal when the importer's view already matches; the status-changed signal comes last, carries the final flag, and appears iff the view changed and a callback exists; the final in-progress flag and auto-trigger flag in closed form; at most one request and two signals |
| MarketplaceImporter.ChangePhaseOutcome | indra/newview/llmarketplacefunctions.cpp:478-520 | of `ChangePhase`: an import seen to start only sets the importer's flag; one seen to end leaves the importer initialized iff it was or a cookie exists, and in progress iff it auto-triggered an import; the status-changed signal comes last, with the final flag, iff it is connected; at most one request and two signals |
| MarketplaceImporter.UpdateInitialization | indra/newview/llmarketplacefunctions.cpp:464-521 | a due poll with a cookie leaves its GET outstanding and issues just that poll; the importer is uninitialized after a failed poll, initialized iff it was or a cookie exists after an import is seen to end, and unchanged otherwise |
| MarketplaceImporter.UpdatePollsWhenDue | indra/newview/llmarketplacefunctions.cpp:466-478 | a due poll issues exactly one GET: the status poll with a cookie, the session GET without one |
| MarketplaceImporter.AutoTriggerAfterInitialization | indra/newview/llmarketplacefunctions.cpp:494-505 | an import seen to end before initialization, with a cookie and an armed import, initializes, disarms, POSTs the import and reports "in progress" again |
| MarketplaceImporter.FinishedImportReported | indra/newview/llmarketplacefunctions.cpp:483-521 | an initialized importer that sees its import end emits the status report and then the change, with no request |
| MarketplaceImporter.InitializationFailureReported | indra/newview/llmarketplacefunctions.cpp:490-521 | a session request that ended without a cookie leaves the importer uninitialized and emits the initialization error and then the change |
| MarketplaceImporter.InventoryImporter.constructor | indra/newview/llmarketplacefunctions.cpp:393-401 | no automatic import, nothing in progress, not initialized, no signal connected |
| MarketplaceImporter.InventoryImporter.SetInitializationErrorCallback | indra/newview/llmarketplacefunctions.cpp:403-411 | the initialization-error signal exists afterwards; nothing else changes |
| MarketplaceImporter.InventoryImporter.SetStatusChangedCallback | indra/newview/llmarketplacefunctions.cpp:413-421 | the status-changed signal exists afterwards; nothing else changes |
| MarketplaceImporter.InventoryImporter.SetStatusReportCallback | indra/newview/llmarketplacefunctions.cpp:423-431 | the status-report signal exists afterwards; nothing else changes |
| MarketplaceImporter.InventoryImporter.Initialize | indra/newview/llmarketplacefunctions.cpp:433-441 | fields, session, request log and signal log follow `InitializeStep` |
| MarketplaceImporter.InventoryImporter.ReinitializeAndTriggerImport | indra/newview/llmarketplacefunctions.cpp:443-450 | fields, session, request log and signal log follow `ReinitializeStep` |
| MarketplaceImporter.InventoryImporter.TriggerImport | indra/newview/llmarketplacefunctions.cpp:452-462 | fields, session, logs and result follow `ImportTriggerStep` |
| MarketplaceImporter.InventoryImporter.UpdateImport | indra/newview/llmarketplacefunctions.cpp:464-521 | fields, session, request log and signal log follow `UpdateStep` |
| MarketplaceImporter.InventoryImporter.PollIfDue | indra/newview/llmarketplacefunctions.cpp:466-478 | returns the API's in-progress flag as read before polling; the rest follows `PollPhase` |
| MarketplaceImporter.InventoryImporter.Finish | indra/newview/llmarketplacefunctions.cpp:483-513 | fields, session and logs follow `FinishPhase` |
| MarketplaceImporter.InventoryImporter.Change | indra/newview/llmarketplacefunctions.cpp:478-520 | fields, session and logs follow `ChangePhase` |
| ScriptEditor.LiveLslFile.constructor | indra/newview/llpreviewscript.cpp:176-183 | the next update is not ignored |
| ScriptEditor.LiveLslFile.IgnoreNextUpdate | indra/newview/llpreviewscript.cpp:167 | the next update will be ignored |
| ScriptEditor.LiveLslFile.LoadFile | indra/newview/llpreviewscript.cpp:189-198 | an ignored update re-arms the watch and returns true without calling back; otherwise the callback is called once with the file name and its answer returned |
| ScriptEditor.HasChanged | indra/newview/llpreviewscript.cpp:547-553 | false without a core or an editor; otherwise true iff there is script data and the editor is not pristine or saving is enabled |
| ScriptEditor.SavedCoreUnchanged | indra/newview/llpreviewscript.cpp:547-553 | a core with a pristine editor and saving disabled has not changed |
| ScriptEditor.StoredText | indra/newview/llpreviewscript.cpp:495-501 | the stored text is never empty; an empty script is stored as one space; any other text as is |
| ScriptEditor.StoredTextCollisions | indra/newview/llpreviewscript.cpp:2398-2404 | two different texts are stored alike only if they are the empty script and the one-space script |
| ScriptEditor.StoredTextIdempotent | indra/newview/llpreviewscript.cpp:495-501 | storing the stored text again changes nothing |
| ScriptEditor.HandleKeyHere | indra/newview/llpreviewscript.cpp:1217-1242 | handled iff Control alone is held with S or F; saving (without closing) only for S with a save callback; search and replace only for F with a search callback |
| ScriptEditor.CloseIfNeededStep | indra/newview/llpreviewscript.cpp:1409-1421 | one fewer pending upload; the window closes when none is pending and closing after save was asked; the autosave file is removed then if it has a name |
| ScriptEditor.CompletionsKeepFlag | indra/newview/llpreviewscript.cpp:2641-2653 | uploads finishing never change close-after-save or the autosave name |
| ScriptEditor.ClosesOnLastUpload | indra/newview/llpreviewscript.cpp:2641-2653 | with n uploads pending and close-after-save set, the window stays open through n - 1 completions, keeps its autosave file, and closes on the n-th |
| ScriptEditor.ScriptWindow.constructor | indra/newview/llpreviewscript.cpp:1871-1872 | no uploads pending, not closing after save, open |
| ScriptEditor.ScriptWindow.OnSave | indra/newview/llpreviewscript.cpp:2663-2669 | a save request records whether to close after the upload and changes nothing else |
| ScriptEditor.ScriptWindow.CloseIfNeeded | indra/newview/llpreviewscript.cpp:1409-1421 | the window's state follows `CloseIfNeededStep` |
| HelpHistory.FindLabel | indra/newview/llpreviewscript.cpp:720-721 | -1 iff no row carries the text; otherwise the first row that does |
| HelpHistory.RemoveAt | indra/newview/llpreviewscript.cpp:716 | removing one row shifts every later row up by one |
| HelpHistory.Opened | indra/newview/llpreviewscript.cpp:706-712 | with no history a separator is put on top; the history is kept |
| HelpHistory.Trimmed | indra/newview/llpreviewscript.cpp:714-718 | at most nine history rows remain, the newest ones, and the separator still follows them |
| HelpHistory.Unlisted | indra/newview/llpreviewscript.cpp:723-733 | the history loses at most one row and stays separated |
| HelpHistory.UnlistedDistinct | indra/newview/llpreviewscript.cpp:723-733 | from a history without repeated rows the keyword is taken out entirely |
| HelpHistory.AddItem | indra/newview/llpreviewscript.cpp:696-737 | an empty keyword changes nothing; otherwise the keyword is on top and the history has 1 to 10 rows, followed by the separator |
| HelpHistory.HistoryStaysDistinct | indra/newview/llpreviewscript.cpp:714-736 | a history without repeated rows keeps that property |
| HelpHistory.FirstLookupOpensHistory | indra/newview/llpreviewscript.cpp:706-712 | the first keyword gives the keyword, then the separator, then the full list |
| HelpHistory.NewKeywordGrowsHistory | indra/newview/llpreviewscript.cpp:734-736 | a new keyword on a history of fewer than ten rows goes on top and the history grows by one |
| HelpHistory.KnownKeywordMovesToTop | indra/newview/llpreviewscript.cpp:723-736 | a keyword already in a history of fewer than ten rows moves to the top and the history keeps its length |
| HelpHistory.FoundNoLaterThan | indra/newview/llpreviewscript.cpp:720-721 | the look-up finds a keyword no later than any row carrying it |
| HelpHistory.FullHistoryDropsOldest | indra/newview/llpreviewscript.cpp:714-736 | a new keyword on a full history pushes the oldest row out and the history stays at ten |
| HelpHistory.FullHistoryReselectShrinks | indra/newview/llpreviewscript.cpp:714-733 | re-selecting one of the nine newest keywords on a full history still drops the oldest row, so nine rows remain |
| HelpHistory.HelpCombo.constructor | indra/newview/llpreviewscript.cpp:264 | the combo holds the keyword list and no history |
| HelpHistory.HelpCombo.AddHelpItemToHistory | indra/newview/llpreviewscript.cpp:696-737 | with the floater shown and a non-empty keyword the combo follows `AddItem` and the first row is selected; otherwise nothing changes |
| HelpHistory.HelpCombo.OpenHistory | indra/newview/llpreviewscript.cpp:706-712 | the combo becomes `Opened`: a separator on top when there is no history yet |
| HelpHistory.HelpCombo.Unlist | indra/newview/llpreviewscript.cpp:720-733 | the combo becomes `Unlisted`: the keyword is taken out when the look-up finds it in the history |
| HelpHistory.HelpCombo.TrimHistory | indra/newview/llpreviewscript.cpp:714-718 | the loop leaves the combo as `Trimmed` describes |
| ErrorPosition.EraseFirst | indra/newview/llpreviewscript.cpp:1153 | the first character, if there is one, is dropped |
| ErrorPosition.ReplaceChar | indra/newview/llpreviewscript.cpp:1154-1155 | every occurrence of one character is replaced and nothing else changes |
| ErrorPosition.SpaceCount | indra/newview/llpreviewscript.cpp:1156 | the length of the leading run of white space |
| ErrorPosition.LeadingDigits | indra/newview/llpreviewscript.cpp:1156 | the length of the leading run of decimal digits |
| ErrorPosition.ScanMagnitude | indra/newview/llpreviewscript.cpp:1156 | a successful digit scan has a non-negative value and leaves a proper suffix |
| ErrorPosition.ScanInt | indra/newview/llpreviewscript.cpp:1156 | a conversion succeeds iff digits follow the leading white space and optional sign, and a successful one consumes at least one character |
| ErrorPosition.ScanIntLeavesSuffix | indra/newview/llpreviewscript.cpp:1156 | what a successful conversion leaves is the end of its input |
| ErrorPosition.ScanPosition | indra/newview/llpreviewscript.cpp:1149-1156 | a failed first conversion gives (0, 0); otherwise the row is its value, and the column is the second conversion's value, or 0 when that one fails |
| ErrorPosition.ParseErrorPosition | indra/newview/llpreviewscript.cpp:1141-1162 | a failed first conversion gives (0, 0); otherwise the row is the first converted value |
| ErrorPosition.RowOnlyPosition | indra/newview/llpreviewscript.cpp:1149-1156 | a row "(line)" followed by a message without digits gives that line and column 0 |
| ErrorPosition.NatToString | indra/newview/llpreviewscript.cpp:1156 | a non-empty run of digits |
| ErrorPosition.ValueOfNatToString | indra/newview/llpreviewscript.cpp:1156 | the digits of a number read back as that number |
| ErrorPosition.ScanNatToString | indra/newview/llpreviewscript.cpp:1156 | a conversion reads a written number back and stops at the first non-digit |
| ErrorPosition.ScanMinus | indra/newview/llpreviewscript.cpp:1156 | a minus sign directly before digits negates their value and leaves the same rest |
| ErrorPosition.NormalisedRow | indra/newview/llpreviewscript.cpp:1153-1155 | "(r, c)message" becomes r, two spaces, c, one space and the cleaned message |
| ErrorPosition.ParseRoundTrip | indra/newview/llpreviewscript.cpp:1141-1162 | a row "(line, column)" followed by any message gives back that line and column |
| ErrorPosition.NoDigitsNoPosition | indra/newview/llpreviewscript.cpp:1149-1156 | a row without any digit gives (0, 0) |
| ErrorPosition.ScriptTextEditor.OnErrorList | indra/newview/llpreviewscript.cpp:1141-1162 | with a selected row the cursor moves to the parsed position and the editor takes focus; otherwise nothing changes |
| ErrorPosition.ScriptTextEditor.constructor | indra/newview/llpreviewscript.cpp:1159-1160 | the editor starts with its cursor at row 0, column 0 and without focus, the state `setCursor` and `setFocus` then change |
| CurlPrivate.StalledStaysStalled | indra/llmessage/aicurlprivate.h:97 | once stalled, a transfer stays stalled as the clock advances |
| CurlPrivate.NeverStalledAtMax | indra/llmessage/aicurlprivate.h:74-79 | a stall time of the largest 64-bit value is never before the clock |
| CurlPrivate.HttpTimeout.constructor | indra/llmessage/aicurlprivate.h:74-79 | nothing received yet, low speed off, upload not finished, stall time the largest 64-bit value, so not stalled at any clock count |
| CurlPrivate.HttpTimeout.HasStalled | indra/llmessage/aicurlprivate.h:97 | stalled iff the stall time lies before the clock count; never at the largest stall time |
| CurlPrivate.Stats.constructor | indra/llmessage/aicurlprivate.h:117 | the easy and multi call counters start at zero and no error has been reported |
| CurlPrivate.CheckEasyCode | indra/llmessage/aicurlprivate.h:240-246 | one more easy call counted; the code reaches the error handler iff it is not OK; the code is returned unchanged |
| CurlPrivate.CheckMultiCode | indra/llmessage/aicurlprivate.h:117 | one more multi call counted; the code reaches the error handler iff it is not OK; the code is returned unchanged |
| CurlPrivate.CurlEasyHandle.Active | indra/llmessage/aicurlprivate.h:223 | active iff a multi handle is recorded |
| CurlPrivate.CurlEasyHandle.constructor | indra/llmessage/aicurlprivate.h:131 | a new easy handle is not added to any multi handle, is not queued for removal and has not been reset |
| CurlPrivate.CurlEasyHandle.Reset | indra/llmessage/aicurlprivate.h:140 | only allowed while not active; resets the options and leaves the flags alone |
| CurlPrivate.CurlEasyHandle.RemoveQueued | indra/llmessage/aicurlprivate.h:200 | queued for removal afterwards, so no warning is due whether or not the application is exiting |
| CurlPrivate.CurlEasyHandle.AddQueued | indra/llmessage/aicurlprivate.h:202 | not queued afterwards, so a warning is due unless the application is exiting |
| CurlPrivate.CurlEasyHandle.NoWarning | indra/llmessage/aicurlprivate.h:228 | true iff queued for removal or the application is exiting |
| CurlPrivate.CurlEasyRequest.constructor | indra/llmessage/aicurlprivate.h:387-391 | no headers, result "failed init", no policy, no timeout object, not orphaned, default options applied; not finalized, not valid, never stalled |
| CurlPrivate.CurlEasyRequest.StoreResult | indra/llmessage/aicurlprivate.h:335 | the result is the stored code; nothing else changes |
| CurlPrivate.CurlEasyRequest.Done | indra/llmessage/aicurlprivate.h:338-346 | the timeout object, if there is one, hears of the result first; then the parent is told the request finished |
| CurlPrivate.CurlEasyRequest.HttpTimeoutObject | indra/llmessage/aicurlprivate.h:380 | an existing timeout object is returned and the orphan flag kept; otherwise a new one is created for the request's policy and marked orphan |
| CurlPrivate.CurlEasyRequest.HasStalled | indra/llmessage/aicurlprivate.h:382 | false without a timeout object; otherwise that object's stall test |
| CurlPrivate.CurlEasyRequest.IsFinalized | indra/llmessage/aicurlprivate.h:400 | finalized iff a timeout policy is set |
| CurlPrivate.CurlEasyRequest.IsValid | indra/llmessage/aicurlprivate.h:489 | valid iff a responder is set |
| CurlPrivate.AcceptsExpectedKind | indra/llmessage/aicurlprivate.h:556-582 | an overload admits an option iff its argument kind is the one that option takes |
| CurlPrivate.CurlMultiHandle.Setopt | indra/llmessage/aicurlprivate.h:558-582 | only an admitted option and argument may be set; the option is handed to libcurl and libcurl's code is checked as by `CheckMultiCode` and returned |
| CurlPrivate.CurlMultiHandle.constructor | indra/llmessage/aicurlprivate.h:531 | a new multi handle has had no option handed to libcurl |

## Left out

- LLTrans templating of the marketplace URL: the URL is an input.
- LLURI host extraction and the grid-manager queries are outside the model; the host name and grid answers are inputs (`GridInfo`).
- `utf8str_tolower` lowers ASCII letters only in this model; non-ASCII case folding is not modelled.
- The `llassert` that a beta-grid domain ends in ".lindenlab.com" is not modelled; a debug assertion does not change the result.
- `LLSD` is reduced to an undefined value, the empty map or a scalar rendered by `asString`; structured contents are not modelled.
- `MarketplaceErrorCodes` values are not part of this model; the named codes are distinct constructors and every other status is `Code(n)`.
- Header names are compared exactly; case-insensitive header lookup is not modelled.
- The `LLTimer` update cadence and the GET/POST timers, the logging under `InventoryOutboxLogging`, and the HTTP transport itself are left out; requests are recorded in a log.
- boost signals are reduced to "a callback is connected" flags and a log of emissions; the slots themselves are not modelled.
- UI of the script editor (panels, floaters, the combo's drawing, focus handling beyond one flag), file I/O, autosave files (only their removal is recorded), asset uploads and the busy count (`decBusyCount`) are left out.
- LLComboBox is not part of this model; `setSimple` is taken to select the first row whose text equals the keyword exactly.
- HelpHistory.HelpCombo.AddHelpItemToHistory: the missing help floater and the missing combo box are one input, `helpOpen`.
- ErrorPosition.ScanInt: `%d` is modelled with unbounded integers; 32-bit overflow of `sscanf` is not modelled.
- ErrorPosition.EraseFirst: the model drops the first character where `line.erase(0, 1)` drops the first byte of the UTF-8 text, so the two agree only on rows whose first character is ASCII, as the compiler's "(line, column)" rows are; on a row starting with a non-ASCII character the source scans a stray continuation byte and gets (0, 0) where the model scans on.
- ErrorPosition.ScriptTextEditor.constructor: LLTextEditor is not part of this model; the editor is taken to start with the cursor at (0, 0) and without focus, and only the cursor and focus are modelled.
- ScriptEditor.ScriptWindow.CloseIfNeeded: the two window kinds share one model of the counter; closing the floater is a flag.
- ScriptEditor.ScriptWindow.constructor: the inventory preview's initialiser list (line 1288) sets only the upload count and leaves close-after-save unset; `onSave` (line 1451) assigns it before any upload starts, so starting it at false changes no reachable behaviour.
- `saveIfNeeded`, which starts uploads and raises the pending count, and the upload callbacks are not part of this model.
- CurlPrivate.Stats.constructor: the statistics are declared outside the header; their counters are taken to start at zero.
- The `HTTPTimeout` transfer-rate algorithm (`lowspeed`, `data_sent`, `data_received`, `connected`, `upload_finished`, `done`, `print_diagnostics`) is only declared in the header and is not modelled; `Done` records that the timeout object was told.
- CurlPrivate.CurlEasyRequest.HttpTimeoutObject: `create_timeout_object` is not part of this model; a new timeout object is taken to be created for the request's policy in its initial state.
- CurlPrivate.CurlEasyHandle.constructor: the easy handle's constructor is not part of this model; it is taken to start unregistered and not queued, and `SetActiveMultiHandle` stands for the multi-handle driver's add and remove.
- CurlPrivate.CurlMultiHandle.constructor: the multi handle's constructor is only declared in the header and is not part of this model; it is taken to start with no option set.
- The easy request and the buffered request are one class, since only the buffered kind is ever created; `prepRequest`, `finalizeRequest` and `timed_out`, which set the responder and the policy, are not part of this model.
- libcurl calls (`setopt`, `getinfo`, `perform`, `pause`, `escape`, callbacks) are foreign; their return codes are inputs.
- `ThreadSafeBufferedCurlEasyRequest` (reference counting and locking) is concurrency and is left out.
- `sound_ids.cpp`, `llviewermedia.h` and `llurlrequest.h` hold no behaviour modelled here.
