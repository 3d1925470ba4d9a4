# Denchokun window and API-client rules in Dafny

Denchokun is a desktop bookkeeping tool for electronic transaction records.
Its windows let a user enter deals (date, amount, partner, deal name,
remarks and an attached receipt file), search the deals of an accounting
period, update one deal, and maintain the periods themselves. The main
process holds an API client that knows the two servers' URLs and sends
every request.

This project models the rules inside those windows and the client:

- the most-recent-first input histories and the autocomplete filter over them;
- the normalisation and comma-grouped display of amounts;
- the checks made before a new deal or an update is sent;
- the search window's client-side filters, query building, expand/collapse
  set, total and initial period;
- the update window's form setup, guard order, request body and file handling;
- the period form's guards and insert-or-update choice;
- the API client's configuration defaults, merge and persistence, URL and
  method choice, answer dispatch, health check and fixed endpoints.

Each window is a Dafny `class` whose fields are the component's state slots;
each handler is a method that changes only the slots it sets, proved against
a specification function, with the meaning of that function proved in
lemmas. Server answers, dialog answers and stored settings are parameters;
the settings entry that `api-config-set` re-reads from the shared store is a
parameter of each call, since other windows write it too.
JavaScript semantics that matter are written out: string order (`LexLess`),
`trim`, ASCII `toLowerCase`, `includes`, `split('.').pop()`, `parseInt`
(with `None` for `NaN`) and `toLocaleString` grouping.

Files: `wrappers.dfy` (Option), `text.dfy` (string operations and order),
`number_format.dfy` (digits, decimal, grouping, `parseInt`), `sequences.dfy`
(filter and subsequence), `periods.dfy`, `deals.dfy`, `files.dfy` (shared
records), `input_history.dfy`, `main_window.dfy`, `deal_search.dfy`,
`deal_detail.dfy`, `deal_period.dfy`, `api_client.dfy`.

## Model

| member | source | states |
|---|---|---|
| InputHistory.Push | src/renderer/pages/MainWindow.tsx:113-115 | the saved value is first and occurs once, the list holds at most 30 entries, and the rest is the leading part of the other entries in their old order |
| InputHistory.PushIdempotent | src/renderer/pages/MainWindow.tsx:113-115 | saving the same value twice in a row gives the list of saving it once |
| InputHistory.PushKeepsOrder | src/renderer/pages/MainWindow.tsx:113-115 | the entries after the saved value are a subsequence of the old history |
| InputHistory.PushNoDuplicates | src/renderer/pages/MainWindow.tsx:113-115 | a history without duplicates stays without duplicates |
| InputHistory.PushKeepsAllWhileRoom | src/renderer/pages/MainWindow.tsx:113-115 | while fewer than 30 other entries exist, no entry is dropped |
| InputHistory.Suggestions | src/renderer/pages/MainWindow.tsx:524-527 | an entry is suggested exactly when it is in the history and its lower-case form contains the lower-case input |
| InputHistory.SuggestionsInHistoryOrder | src/renderer/pages/MainWindow.tsx:524-527 | suggestions come in history order |
| InputHistory.SuggestionsIgnoreCase | src/renderer/pages/MainWindow.tsx:524-527 | inputs that differ only in letter case get the same suggestions |
| InputHistory.ShowSuggestionsIff | src/renderer/pages/MainWindow.tsx:521-531 | the list is shown exactly when the input is non-empty and some history entry matches it |
| MainWindow.Saved | src/renderer/pages/MainWindow.tsx:90-115 | a blank value leaves the history unchanged; otherwise the value is first and the list has at most 30 entries |
| MainWindow.StoreAfterSave | src/renderer/pages/MainWindow.tsx:118-128 | a blank value writes nothing; otherwise the stored object gets the new list for that field, its other fields keep their values, and when nothing was stored the other two fields are empty lists |
| MainWindow.StoreHoldsEnteredValues | src/renderer/pages/MainWindow.tsx:716-722 | after the three saves of a submission the stored object holds the new partner and deal-name lists, and the new remarks list unless the remarks are blank, in which case the stored remarks are kept |
| MainWindow.MainForm.SaveToHistory | src/renderer/pages/MainWindow.tsx:90-133 | the field's history becomes `Saved` of the old one, the other two histories are unchanged, and the stored object is `StoreAfterSave` of the old one |
| MainWindow.MainForm.constructor | src/renderer/pages/MainWindow.tsx:5-24 | the empty form, the receipt document type, the three start-up messages and the given settings store |
| MainWindow.MainForm.HandleAmountChange | src/renderer/pages/MainWindow.tsx:500-517 | the amount is the input's digits and the display is their grouped form ('' when none), keeping the form's invariant |
| NumberFormat.FormatAmount | src/renderer/pages/MainWindow.tsx:500-508 | the display is '' exactly when the input has no digit, and otherwise its digits, commas removed, are the decimal of the number typed |
| NumberFormat.AmountDisplay | src/renderer/pages/MainWindow.tsx:500-517 | the display is '' exactly when the input has no digit; otherwise it denotes the number typed, and formatting a display again changes nothing |
| NumberFormat.GroupedShape | src/renderer/pages/MainWindow.tsx:504 | the grouped text has a comma before every group of three digits and nowhere else |
| NumberFormat.GroupedDigits | src/renderer/pages/MainWindow.tsx:504 | removing the commas from the grouped text gives the plain decimal |
| NumberFormat.ParseIntOfToString | src/renderer/pages/DealDetailWindow.tsx:66 | `parseInt` of a number's decimal text gives the number back |
| MainWindow.MainForm.HandlePartnerChange | src/renderer/pages/MainWindow.tsx:519-533 | the partner is the input; suggestions are recomputed only for non-empty input, and shown as `ShowSuggestions` says |
| MainWindow.MainForm.HandleDealNameChange | src/renderer/pages/MainWindow.tsx:548-561 | the same rule over the deal-name history |
| MainWindow.MainForm.HandleRemarksChange | src/renderer/pages/MainWindow.tsx:575-588 | the same rule over the remarks history |
| MainWindow.CheckNewDeal | src/renderer/pages/MainWindow.tsx:613-668 | a missing date, amount or partner gives the required-fields message first; an unlisted period skips the date checks; a date before a set start bound gives the start message before the end bound is looked at; a date that passes the start check but is after a set end bound gives the end message |
| MainWindow.NewDealAccepted | src/renderer/pages/MainWindow.tsx:613-668 | a new deal passes exactly when date, amount and partner are filled and, if the selected period is listed, the date lies within its set bounds, both inclusive |
| MainWindow.MainForm.HandleSubmit | src/renderer/pages/MainWindow.tsx:613-750 | a failing check adds its message and sends nothing and changes no history or store; otherwise the request built from the form is sent, and the messages, histories and stored object end as `SendNewDeal` states for the reply |
| MainWindow.MainForm.SendNewDeal | src/renderer/pages/MainWindow.tsx:670-750 | the request carries the form's fields with status NEW and the first dropped file; only a successful reply saves partner, deal name and non-blank remarks to the histories and, in that order, to the stored object (`StoreAfterEntries`), and adds the registered messages; a failure adds the failure message and changes no history or store |
| MainWindow.MainForm.ReportRegistered | src/renderer/pages/MainWindow.tsx:710-715 | the registered message, then the file message only when a file path came back |
| MainWindow.MainForm.SaveEnteredValues | src/renderer/pages/MainWindow.tsx:722-726 | each of the three histories becomes `Saved` of its old list with partner, deal name and remarks, and the stored object is written for partner, then deal name, then remarks, each write starting from the previous one's result (`StoreAfterEntries`) |
| MainWindow.FirstFileInfo | src/renderer/pages/MainWindow.tsx:683-694 | file information is sent exactly when a file was dropped, and its path, name, type, size and file object are the first one's |
| MainWindow.MainForm.HandleReset | src/renderer/pages/MainWindow.tsx:601-611 | every form field is back at its start value, the reset message is added, histories and period are kept |
| MainWindow.MainForm.HandleDrop | src/renderer/pages/MainWindow.tsx:222-290 | the processed files replace the dropped files, each keeping its File object whichever way it was processed, with the two progress messages |
| MainWindow.MainForm.LoadPeriods | src/renderer/pages/MainWindow.tsx:163-209 | a good reply lists the periods and selects the saved period when listed, else the first, with the matching count message; a failed reply empties list and selection and adds its message |
| MainWindow.FileTypeByExtension | src/renderer/pages/MainWindow.tsx:293-319 | the MIME type depends only on the text after the last dot, in any letter case |
| Periods.FindIndex | src/renderer/pages/DealPeriodSearchWindow.tsx:153 | the index of the first period with that name, or none exactly when no period has it |
| Periods.ChooseInitial | src/renderer/pages/DealPeriodSearchWindow.tsx:151-160 | the requested period when it is given and listed, otherwise the first; none exactly for an empty list |
| Periods.BoundFilter | src/renderer/pages/DealPeriodSearchWindow.tsx:163-172 | a bound is copied into its date filter when set, and '' when missing or '未設定' |
| DealPeriodSearch.SearchWindow.constructor | src/renderer/pages/DealPeriodSearchWindow.tsx:32-43 | the window's start state |
| DealPeriodSearch.SearchWindow.LoadPeriods | src/renderer/pages/DealPeriodSearchWindow.tsx:143-181 | the list is taken, the period of `ChooseInitial` is selected and the filters take its bounds through `BoundFilter`; a failure empties the list and keeps the selection and both date filters |
| DealPeriodSearch.PeriodParams | src/renderer/pages/DealPeriodSearchWindow.tsx:186-203 | the parameters appended one by one are `PeriodQuery` |
| DealPeriodSearch.PeriodQueryContents | src/renderer/pages/DealPeriodSearchWindow.tsx:186-203 | the period comes first; an unlisted period sends nothing else; each bound is sent exactly when set and not '未設定'; no keyword or view key is sent; keys come in order |
| DealPeriodSearch.SearchWindow.LoadDeals | src/renderer/pages/DealPeriodSearchWindow.tsx:183-231 | the request goes to the deals endpoint with `PeriodQuery`; the list is the reply's (empty on failure), the filtered list is cleared, and a thrown call gives its message |
| DealPeriodSearch.SearchWindow.ApplyFilters | src/renderer/pages/DealPeriodSearchWindow.tsx:233-252 | the three filters applied in turn give `FilterDeals` of the loaded list |
| DealPeriodSearch.FilterDealsExactly | src/renderer/pages/DealPeriodSearchWindow.tsx:233-252 | a deal is kept exactly when it is loaded, its date is within each set date filter (both inclusive) and its partner contains the partner filter ignoring case |
| DealPeriodSearch.FilterDealsInOrder | src/renderer/pages/DealPeriodSearchWindow.tsx:233-252 | the filtered list is a subsequence of the loaded list |
| DealPeriodSearch.NoFilterKeepsAll | src/renderer/pages/DealPeriodSearchWindow.tsx:233-252 | with all filters empty the filtered list is the loaded list |
| DealPeriodSearch.SearchWindow.HandleClearFilters | src/renderer/pages/DealPeriodSearchWindow.tsx:254-259 | the three filters and the shown list are emptied |
| DealPeriodSearch.SearchWindow.HandleClearSearchWord | src/renderer/pages/DealPeriodSearchWindow.tsx:261-263 | only the partner filter is emptied |
| DealPeriodSearch.ExpandableNos | src/renderer/pages/DealPeriodSearchWindow.tsx:265-274 | the loop collects exactly the numbers of the deals that have older versions |
| DealPeriodSearch.SearchWindow.HandleExpandAll | src/renderer/pages/DealPeriodSearchWindow.tsx:265-274 | exactly the shown deals with older versions are expanded |
| DealPeriodSearch.SearchWindow.HandleCollapseAll | src/renderer/pages/DealPeriodSearchWindow.tsx:276-279 | nothing is expanded |
| DealPeriodSearch.SearchParams | src/renderer/pages/DealPeriodSearchWindow.tsx:291-312 | the parameters appended one by one are `SearchQuery` |
| DealPeriodSearch.SearchQueryContents | src/renderer/pages/DealPeriodSearchWindow.tsx:291-312 | the period is the first parameter; each of from_date, to_date and keyword is present exactly when its value is not blank; view=history exactly when history display is on |
| DealPeriodSearch.SearchQueryAscending | src/renderer/pages/DealPeriodSearchWindow.tsx:291-312 | the keys come in the window's order, each at most once |
| DealPeriodSearch.FilledIffNotBlank | src/renderer/pages/DealPeriodSearchWindow.tsx:295 | `v && v.trim() !== ''` holds exactly when the value is not blank |
| DealPeriodSearch.SearchWindow.HandleSearch | src/renderer/pages/DealPeriodSearchWindow.tsx:281-343 | with no period selected the result is cleared and nothing is sent; otherwise the deals endpoint with `SearchQuery` is requested and the result is the reply's list |
| DealPeriodSearch.Toggled | src/renderer/pages/DealPeriodSearchWindow.tsx:349-360 | the number changes membership and every other number keeps it |
| DealPeriodSearch.ToggleTwice | src/renderer/pages/DealPeriodSearchWindow.tsx:349-360 | toggling the same number twice restores the set |
| DealPeriodSearch.SearchWindow.ToggleExpand | src/renderer/pages/DealPeriodSearchWindow.tsx:349-360 | the expanded set becomes `Toggled` of the old one |
| DealPeriodSearch.TotalAmount | src/renderer/pages/DealPeriodSearchWindow.tsx:375-377 | the prices summed from the left; with no negative price the total is non-negative and at least every single price |
| DealPeriodSearch.SearchWindow.GetTotalAmount | src/renderer/pages/DealPeriodSearchWindow.tsx:375-377 | the total of the filtered (shown) deals, not of the loaded ones |
| DealPeriodSearch.TotalAmountAppend | src/renderer/pages/DealPeriodSearchWindow.tsx:375-377 | the total of two lists shown one after the other is the sum of their totals |
| DealDetail.DetailForm.constructor | src/renderer/pages/DealDetailWindow.tsx:22-44 | the window's start state |
| DealDetail.DetailForm.Open | src/renderer/pages/DealDetailWindow.tsx:46-91 | the deal's fields fill the form, the document type defaults to receipt, only a NEW deal is the latest version and any other shows the past-version notice; no deal changes nothing |
| DealDetail.OpenedAmountDisplay | src/renderer/pages/DealDetailWindow.tsx:65-66 | the display set from a stored price equals the display typing that price gives |
| DealDetail.DetailForm.LoadPeriods | src/renderer/pages/DealDetailWindow.tsx:100-116 | the list is taken on success and kept otherwise |
| DealDetail.DetailForm.LoadExistingFilePreview | src/renderer/pages/DealDetailWindow.tsx:118-145 | a successful answer with a link shows the stored file as the only, not new, file; a thrown call sets the failure message |
| DealDetail.FileSizeUnit | src/renderer/pages/DealDetailWindow.tsx:147-156 | 0 is unknown, below 1024*1024 is kilobytes, the rest megabytes |
| DealDetail.FileSizeUnitMonotone | src/renderer/pages/DealDetailWindow.tsx:147-156 | a larger positive size never shows in a smaller unit |
| DealDetail.DetailForm.HandleAmountChange | src/renderer/pages/DealDetailWindow.tsx:162-171 | the amount keeps only digits and the display is their grouped form, '' when none |
| DealDetail.LastProcessed | src/renderer/pages/DealDetailWindow.tsx:192-213 | the last file whose processing succeeded, none exactly when every file failed |
| DealDetail.DetailForm.HandleDrop | src/renderer/pages/DealDetailWindow.tsx:185-214 | the last processed file, carrying its File object, is the only file and is new, so the next update attaches it; when no file succeeded nothing changes; the drag highlight is off |
| DealDetail.DetailForm.HandleRemoveFile | src/renderer/pages/DealDetailWindow.tsx:216-218 | the file list is empty |
| DealDetail.CheckUpdate | src/renderer/pages/DealDetailWindow.tsx:227-253 | the guards in their order (deal, latest version, date, amount, partner, deal name), the first failing one's message, and none exactly when all pass |
| DealDetail.AcceptedAmountIsPositive | src/renderer/pages/DealDetailWindow.tsx:236 | an amount of digits that passes the check is positive and `parseInt` reads it exactly |
| DealDetail.UploadNameKeepsExtension | src/renderer/pages/DealDetailWindow.tsx:284-286 | the upload name keeps the dropped file's extension |
| DealDetail.DetailForm.BuildRequestBody | src/renderer/pages/DealDetailWindow.tsx:258-294 | the body carries the selected period, the edited fields, `parseInt(amount)` and status UPDATE, and the file under its upload name exactly when a new file with its File object is present |
| DealDetail.UpdateOutcome | src/renderer/pages/DealDetailWindow.tsx:305-317 | success gives the done message; a failure shows the server's message, else its error, else the unknown-error text; a thrown call shows its message |
| DealDetail.DetailForm.HandleUpdate | src/renderer/pages/DealDetailWindow.tsx:226-318 | a failing guard sets its message and sends nothing; otherwise the body is sent to the deal's endpoint, the message is `UpdateOutcome` and the other windows are told exactly on success |
| DealPeriodForm.CheckPeriod | src/renderer/pages/DealPeriodWindow.tsx:88-107 | a missing field gives the required message; a start after the end gives the order message |
| DealPeriodForm.PeriodAccepted | src/renderer/pages/DealPeriodWindow.tsx:88-107 | a period is accepted exactly when all fields are filled and the start is on or before the end |
| DealPeriodForm.SaveWrite | src/renderer/pages/DealPeriodWindow.tsx:110-123 | an insert exactly when nothing is being edited, otherwise an update of the edited row's id, with the form's fields |
| DealPeriodForm.PeriodWindow.constructor | src/renderer/pages/DealPeriodWindow.tsx:15-22 | no periods, the form hidden and empty, nothing edited |
| DealPeriodForm.PeriodWindow.LoadPeriods | src/renderer/pages/DealPeriodWindow.tsx:28-37 | the rows are taken when the query succeeds, the old list kept when it throws |
| DealPeriodForm.PeriodWindow.HandleNewPeriod | src/renderer/pages/DealPeriodWindow.tsx:39-47 | nothing is edited, the three fields are empty and the form is shown |
| DealPeriodForm.PeriodWindow.HandleEditPeriod | src/renderer/pages/DealPeriodWindow.tsx:49-57 | the chosen period is remembered, its name and dates fill the form, which is shown |
| DealPeriodForm.PeriodWindow.SetFormData | src/renderer/pages/DealPeriodWindow.tsx:174-194 | an edit of one of the form's inputs replaces the form's fields with the edited ones |
| DealPeriodForm.PeriodWindow.HandleSavePeriod | src/renderer/pages/DealPeriodWindow.tsx:88-135 | a failing guard shows its message and writes nothing; otherwise the write of `SaveWrite` is asked for and the form is hidden exactly when it succeeds |
| DealPeriodForm.PeriodWindow.HandleDeletePeriod | src/renderer/pages/DealPeriodWindow.tsx:59-86 | the row is deleted exactly when the dialog answers 1, with the failure message only when that write throws |
| ApiClient.InitialConfig | src/main/api-client.ts:17-23 | each stored, non-empty URL is used, else the localhost defaults 8080 and 8081; the current period is the stored one or '' |
| ApiClient.Client.constructor | src/main/api-client.ts:14-26 | the configuration is `InitialConfig` of the stored settings |
| ApiClient.Merge | src/main/api-client.ts:35 | each key the update carries replaces the old value and the others are kept |
| ApiClient.MergeLaterWins | src/main/api-client.ts:35 | a later update wins on every key it carries |
| ApiClient.PersistedSettings | src/main/api-client.ts:38-51 | unrelated settings keys and unrelated fields of the two sections are kept; the API URL, current period and preview URL are the configuration's |
| ApiClient.PersistedConfigRoundTrip | src/main/api-client.ts:17-51 | a client started on the written settings reads back the same configuration when both URLs are non-empty |
| ApiClient.Client.ConfigGet | src/main/api-client.ts:30-32 | the cached configuration, the one the constructor read or `ConfigSet` last returned |
| ApiClient.Client.ConfigSet | src/main/api-client.ts:34-54 | the configuration becomes `Merge` of the old one, the settings entry as the store holds it at the call becomes `PersistedSettings` of it, and the new configuration is returned |
| ApiClient.PersistKeepsCachedPreviewUrl | src/main/api-client.ts:34-51 | an update without a preview URL writes the client's cached preview URL over whatever the store held there, and a restart reads that one; other stored keys are kept |
| ApiClient.BaseUrl | src/main/api-client.ts:65-67 | the API server's URL exactly when the server is 'denchokun', the preview server's otherwise |
| ApiClient.PlanRequest | src/main/api-client.ts:57-156 | the URL is the base URL then the endpoint; the method defaults to GET; the multipart path is taken exactly when the flag and data are both present; a JSON fetch carries the data as body |
| ApiClient.ApiRequest | src/main/api-client.ts:224-254 | the helper's request is the one `api-request` plans for the same server, endpoint, method and data without multipart |
| ApiClient.Dispatch | src/main/api-client.ts:139-150 | a thrown fetch or a non-OK status fails, the latter with `HTTP <status>: <text>`; otherwise the body is JSON exactly when the content type mentions application/json |
| ApiClient.HealthCheck | src/main/api-client.ts:213-221 | 'ok' with the result exactly when the request succeeds, 'error' with the failure's message otherwise |
| ApiClient.HealthRequest | src/main/api-client.ts:213-221 | a GET of the health endpoint of the chosen server without body |
| ApiClient.TransactionsListEndpoint | src/main/api-client.ts:159-161 | `?period=` and the id are appended only when an id is given |
| ApiClient.TransactionsListPeriod | src/main/api-client.ts:159-161 | a given period id is read back as the text after the endpoint's '=' |
| ApiClient.TransactionEndpoint | src/main/api-client.ts:167-173 | the update and delete endpoints are the transactions endpoint followed by '/' |
| ApiClient.TransactionEndpointId | src/main/api-client.ts:167-173 | the id is the text after the last '/', and `parseInt` of it gives the id back |
| ApiClient.UploadBody | src/main/api-client.ts:199-204 | the upload body holds the file path, and the metadata exactly when it is given, and no other key |
| ApiClient.ChannelRequest | src/main/api-client.ts:159-210 | previews go to the preview server and every other channel to the API server, always as a JSON fetch, with GET exactly for the list and preview channels; a file upload sends `UploadBody` |
| Text.LexTrichotomy | src/renderer/pages/MainWindow.tsx:638 | of two date strings exactly one is before the other or they are equal |
| Text.AtMostIffLessOrEqual | src/renderer/pages/DealPeriodSearchWindow.tsx:238 | JavaScript's `a <= b` on strings holds exactly when the two are equal or `a` comes first |

## Left out

- Rendering, dialogs (`showMessageBox`, `alert`), the window title, console logging, blur timers, React effect scheduling and the interleaving of asynchronous handlers: they are presentation or timing, not rules over state.
- HTTP, IPC, the settings store, the database and file reads: every answer is a parameter of the method that receives it (`PeriodsReply`, `DealsReply`, `SubmitReply`, `UpdateReply`, `PreviewReply`, `FetchResult`, the settings entry given to the client's constructor and to each `ConfigSet`, the `writeFails` flags, the dialog's response).
- The time stamp `addMessage` puts before every message of the input window (`[<local time>] `, MainWindow.tsx:493-495): the clock is not modelled, so the model's messages are the texts without that prefix.
- The caller's `options.headers` of `api-request` (api-client.ts:62, 111-113, 123-125): they only add to the request's headers, which are not modelled; `RequestOptions` has no headers.
- A JSON answer whose text does not parse: `response.json()` throws there (api-client.ts:147, 250), while `Dispatch` returns `JsonBody` with the text whatever it holds; JSON parsing is not modelled.
- The SQL text of the period window: a save or delete is the `DbWrite` it asks for.
- Percent-encoding of `URLSearchParams`: the query is `key=value` pairs joined by '&'.
- The multipart `FormData` construction and the Base64 file content: only what is sent (fields, file name, path, size) is modelled.
- JSON parsing of the search window's deal parameter: the deal arrives parsed, or as `None` when absent or unparsable.
- `toFixed` figures of `formatFileSize`: only which of the three texts is chosen is modelled.
- Floating point: `parseFloat(amount)` of the new-deal request is read as the digits' integer value (the amount holds only digits there); `parseInt` beyond 2^53 is exact in the model.
- `toLocaleString` is plain comma grouping of the integer; other locale behaviour is not modelled.
- Strings are sequences of code points; JavaScript compares UTF-16 units, which order differently only for characters outside the Basic Multilingual Plane. `toLowerCase` is ASCII-only.
- Missing (`undefined`/`null`) string fields of server records and settings are read as ''; the source only tests them for truthiness, so both behave alike. A stored setting that is not a string is read as '' as well.
- A deal record's `DealPrice` is always present in the model; the source's `?.toString() || ''` for a missing price is not modelled.
- A partial configuration that names a key with the value `undefined` is not modelled; an update either carries a key with a string or leaves it out.
- `handleRowClick`, the drag-over/leave handlers and the `handle...Select`/`handle...Blur` handlers of the input window are not modelled; they only set a field and hide a list, or open another window.
- The check `!file.fileObject` inside the attach branch of `handleUpdate` is not modelled: the branch is entered only when the object is present, so it never fires.
- The intermediate '更新中...' message of `handleUpdate` is overwritten by the outcome; only the final message is modelled.
- A failure of `fileToBase64` inside `handleUpdate` is not modelled.
- The `api-file-upload` channel sends only `{filePath, metadata}` as JSON; reading and uploading the file itself is not done by the client and is not modelled.
- The period list that the period window reloads after a successful save or delete (DealPeriodWindow.tsx:75, :125) is the caller's next `PeriodWindow.LoadPeriods`; `HandleSavePeriod` and `HandleDeletePeriod` do not change `periods` themselves.
- `loadDeals`, `applyFilters`, `handleClearFilters` and `getTotalAmount` of the search window and `getFileType` of the input window are defined but called from nowhere in the repository; their members model them as written, not as behaviour a user reaches.
- ApiClient.MergeNothing and ApiClient.MergeIdempotent hold by the definition of `Merge` and are kept as documentation of the merge.

The repository's documentation and its code differ in one place: the documentation says a new deal needs an amount above zero, while `handleSubmit` only tests that the amount is non-empty, so an amount of "0" is sent. The model follows the code (`MainWindow.CheckNewDeal`); the update window does refuse it (`DealDetail.CheckUpdate`).
