# TrueFans pass front end — Dafny model

This project models the browser front end of the TrueFans wallet-pass
system. Brands use it to create and edit pass templates. Diners use it to
sign up for a pass. Passes receive live updates. It covers:

- **UpdateService** (`PassUpdateService`): the live-update client.
  - One server-sent-event stream per user.
  - A reconnect with backoff after a stream error.
  - A polling fallback.
  - Per-pass subscribe and unsubscribe requests.
  - Each update goes to the registered callback and to a browser
    notification.

  The class keeps the source's fields and adds the browser's part of the
  state: the streams still open, the pending timers, the running intervals
  and the poll requests in flight. Every method is specified by a pure
  transition function on a `Service` value, and a ghost log records the
  effects in order. An `Action`/`Run` trace model gives the invariants of
  every reachable state.
- **Api**: the REST helpers.
  - URL building, header merging and the error message of a failed call.
  - The raw response returned for download endpoints.
  - The multipart upload of a template with images.
  - The template, diner and download endpoints.
- **Constants**: the API base URL, the colour presets, the validation rules
  and the shared error messages.
- **TemplateForm**, **PassCreate**, **ModifyPass** and **EditPass**: the
  three pass-template pages. They share form fields, change handlers,
  validation, and the template object or upload they send.
- **LiveUpdate**: the live-update panel. It reduces the inputs to the
  non-blank ones and handles submit and the history toggle.
- **DinerRegistration**: diner sign-up, with the required-field check and
  the payload sent.
- **Dashboard**: the brand list kept in browser storage, with brand
  creation and deletion.
- **PassManager**: one brand's pass list.
  - The brand lookup in storage.
  - The choice between the server's list and the cached copy.
  - Refresh, clearing the cache, deleting a pass, and the "Active" count.
  - Browser storage is a `Storage` class that the page updates in place.

Helper modules:

- **Js**: JavaScript values, truthiness, and objects as insertion-ordered
  property lists, with assignment and spread.
- **Text**: `trim`, `includes`, decimal rendering, and `length` counted in UTF-16 units as the brand-name length check counts it.
- **ListOps**: `filter`.
- **Wrappers**: `Option`.

Network calls, timers, clocks, confirmation dialogs and the browser's
notification permission are not run. Their outcomes are parameters:

- the settled `fetch` result;
- the server's pass-list answer;
- the result of each page's external call;
- the clock value `now`;
- `confirmed` for the confirmation dialog;
- `granted` for the notification permission.

## Model

| member | source | states |
|---|---|---|
| UpdateService.BackoffSchedule | src/services/PassUpdateService.js:114-116 | the backoff formula gives 1s, 2s, … 16s over the five allowed attempts, doubling each time |
| UpdateService.StatusOf | src/services/PassUpdateService.js:163-169 | the status reports `polling` exactly when a polling interval handle is set, and reports the connection flag and retry count as stored |
| UpdateService.InitialStatus | src/services/PassUpdateService.js:2-11 | a new service reports not connected, zero retries, not polling |
| UpdateService.ConnectOpensNewStream | src/services/PassUpdateService.js:14-20 | connect stores the user and callback and resets the retry count. It opens one fresh stream at `/api/sse/subscribe/<user>` and adds it to the open streams without closing any other. The connection flag is unchanged |
| UpdateService.ErrorSchedulesOneReconnect | src/services/PassUpdateService.js:39-44 | a stream error clears the connection flag and schedules exactly one reconnect after 1000 ms; nothing else changes |
| UpdateService.RetryLeavesCountAtOne | src/services/PassUpdateService.js:119-122 | a delayed connect always leaves the retry count at exactly one, because connect resets it before the increment |
| UpdateService.UpdateDeliveredThenNotified | src/services/PassUpdateService.js:92-111 | an update reaches the callback first, exactly once, when a callback is set. With notifications granted, a notification follows, with the update's message when it is truthy and the default text otherwise. Reading the message throws exactly for `null`/`undefined` updates with notifications granted |
| UpdateService.MissingMessageUsesDefault | src/services/PassUpdateService.js:104-111 | an update object without `message` is announced as "Pass Updated" / "Your pass has been updated" / `/favicon.ico` |
| UpdateService.BatchDeliveredInOrder | src/services/PassUpdateService.js:145-146 | without notifications, a polled batch reaches the callback once per update, in array order |
| UpdateService.BatchStopsAtNull | src/services/PassUpdateService.js:145-150 | with notifications on, a `null` update is delivered and then ends the batch: the later updates never reach the callback |
| UpdateService.RequestGuards | src/services/PassUpdateService.js:48-89 | subscribe sends a POST exactly when connected and a user is set. Unsubscribe sends a DELETE exactly when a user is set. A poll tick without a user does nothing; with one it sends a GET to `check-updates/<user>` |
| UpdateService.DisconnectClearsAndIsIdempotent | src/services/PassUpdateService.js:172-183 | disconnect clears the stream, user, callback and polling, keeps the retry count and pending timers; a second disconnect changes nothing and does nothing |
| UpdateService.StaleRetryReconnectsAsNull | src/services/PassUpdateService.js:119-122 | a retry timer scheduled before disconnect still fires and opens a stream at `/api/sse/subscribe/null` with no user and no callback |
| UpdateService.ReconnectBelowLimit | src/services/PassUpdateService.js:114-122 | with at most one retry counted, reconnect schedules one delayed connect after 1 or 2 seconds and changes nothing else |
| UpdateService.ReconnectAtLimitPolls | src/services/PassUpdateService.js:123-127 | from five retries upward, reconnect starts polling with a fresh interval |
| UpdateService.FireTimerKeepsInv | src/services/PassUpdateService.js:43 | firing any pending timer keeps the reachable-state invariant and never changes the polling interval |
| UpdateService.ApplyKeepsInv | src/services/PassUpdateService.js:14-183 | every method call and browser event keeps the invariant, and only an explicit `startPolling` can start polling |
| UpdateService.RunKeepsInv | src/services/PassUpdateService.js:14-183 | the invariant holds after any sequence of possible actions, and so does "not polling" when the sequence has no `startPolling` |
| UpdateService.ReachableStates | src/services/PassUpdateService.js:114-136 | in every state reachable from a new service, the retry count is 0 or 1 and every scheduled retry waits 1 or 2 seconds. Without an explicit `startPolling` the service never polls: the fallback in reconnect is unreachable |
| UpdateService.BatchSendsNothing | src/services/PassUpdateService.js:144-148 | handling a polled batch only delivers updates and shows notifications; it sends no request |
| UpdateService.ApplyWithoutUser | src/services/PassUpdateService.js:48-152 | without a user, every action but `connect` leaves the user unset and sends no request: a subscribe, an unsubscribe, an interval tick, a stale retry or a poll answer |
| UpdateService.RunWithoutUser | src/services/PassUpdateService.js:14-183 | over any run without `connect` that starts without a user, the user stays unset and no request is sent |
| UpdateService.NothingSentAfterDisconnect | src/services/PassUpdateService.js:171-183 | after `disconnect` and until the next `connect`, no poll, subscribe or unsubscribe request is sent and no user is set, whatever leaked intervals, stale retry timers and polls in flight do |
| UpdateService.PassUpdateService.constructor | src/services/PassUpdateService.js:2-11 | the fields start empty: no stream, not connected, no user or callback, zero retries, no interval |
| UpdateService.PassUpdateService.Connect | src/services/PassUpdateService.js:14-20 | the new state and effects are those of the connect transition |
| UpdateService.PassUpdateService.OnOpen | src/services/PassUpdateService.js:22-26 | an open stream's `onopen` sets connected and resets the retry count |
| UpdateService.PassUpdateService.OnError | src/services/PassUpdateService.js:39-44 | an open stream's `onerror` is the error transition |
| UpdateService.PassUpdateService.HandlePassUpdate | src/services/PassUpdateService.js:92-111 | logs exactly the delivery and notification effects of one update and reports whether reading its message threw |
| UpdateService.PassUpdateService.OnPassUpdate | src/services/PassUpdateService.js:29-36 | a `pass-update` event that parses is handled; one that does not is caught; the service's fields never change |
| UpdateService.PassUpdateService.SubscribeToPass | src/services/PassUpdateService.js:48-67 | logs the POST only when connected with a user |
| UpdateService.PassUpdateService.UnsubscribeFromPass | src/services/PassUpdateService.js:70-89 | logs the DELETE only when a user is set |
| UpdateService.PassUpdateService.StartPolling | src/services/PassUpdateService.js:131-136 | a fresh 30-second interval becomes the polling handle; a running one is not stopped |
| UpdateService.PassUpdateService.Reconnect | src/services/PassUpdateService.js:114-128 | below five retries a retry timer with the backoff delay is added; otherwise polling starts |
| UpdateService.PassUpdateService.FireTimer | src/services/PassUpdateService.js:119-122 | the fired timer is removed, then a reconnect timer runs `reconnect` and a retry timer runs `connect` with the current user and callback, then increments the retry count |
| UpdateService.PassUpdateService.CheckForUpdates | src/services/PassUpdateService.js:139-142 | an interval tick with a user sends the poll request |
| UpdateService.PassUpdateService.ResolvePoll | src/services/PassUpdateService.js:143-151 | a non-empty array answer is handled update by update; anything else changes nothing |
| UpdateService.PassUpdateService.HandleUpdates | src/services/PassUpdateService.js:146 | the loop logs the effects of the whole batch, stopping at the first update whose handling throws |
| UpdateService.PassUpdateService.StopPolling | src/services/PassUpdateService.js:155-160 | clears the current interval, if any |
| UpdateService.PassUpdateService.GetConnectionStatus | src/services/PassUpdateService.js:163-169 | returns the status of the current state |
| UpdateService.PassUpdateService.Disconnect | src/services/PassUpdateService.js:172-183 | stops polling, closes the current stream and forgets the user and callback |
| Api.Url | src/services/api.js:5 | the URL is the base URL followed by the endpoint, verbatim |
| Api.CallerHeadersReplaceDefaults | src/services/api.js:7-14 | a caller's `headers` option replaces the merged default headers entirely; without one the request carries exactly the JSON content type |
| Api.OtherOptionsPassThrough | src/services/api.js:14 | every option other than `headers` reaches `fetch` unchanged |
| Api.StatusMessageReadsBack | src/services/api.js:21 | the fallback message starts with "HTTP error! status: " and the status reads back from the digits after it |
| Api.ErrorMessageChoice | src/services/api.js:19-22 | a truthy server `error` is the message. An unreadable body or an object without one gives the status message. A JSON `null` body throws a TypeError instead |
| Api.ApiCall | src/services/api.js:4-34 | an OK response is returned raw exactly when the endpoint contains `/download`; every other case is the parsed body or a thrown error |
| Api.DirectJsonCall | src/services/api.js:37-58 | the direct template calls never return a raw response. They parse the body of an OK response, throw a SyntaxError when that body is not JSON, and throw the status error or the network error otherwise |
| Api.DinerPassRequest | src/services/api.js:133-138 | the diner request is a POST of the JSON text with exactly the JSON content type |
| Api.UpdatePassTemplateUrl | src/services/api.js:86 | the update target is the template's URL followed by `/json` |
| Api.PassesByBrandUrl | src/services/api.js:118-123 | the brand listing is fetched from the base URL followed by `/api/passes/templates/brand/<brandId>`, which is also the template URL of the id `brand/<brandId>` |
| Api.DownloadPassFile | src/services/api.js:150-156 | the link targets the diner pass's download URL and names the file `<serial>.pkpass` |
| Api.DownloadReturnsRawResponse | src/services/api.js:145-147 | `downloadPass` gets the raw response for every OK answer |
| Api.TemplateIdStartingWithDownload | src/services/api.js:105-116 | `getPassTemplate` of an id starting with "download" also gets the raw response |
| Api.WithSlot | src/components/ModifyPass/ModifyPass.jsx:135-140 | setting one image slot changes that slot only |
| Api.PresentFields | src/services/api.js:65-69 | the kept template fields are entries of the template whose values are neither null nor undefined |
| Api.PresentFieldsMembership | src/services/api.js:65-69 | a template field is uploaded exactly when its value is present |
| Api.PresentFieldsKeepsAll | src/services/api.js:65-69 | with no null or undefined value, every field is uploaded in key order |
| Api.BuildTemplateFormData | src/services/api.js:61-77 | the FormData is the present fields in key order, then icon, logo and strip images when set |
| Api.ImagesFollowFields | src/services/api.js:65-74 | the images always follow every field, and each image key appears exactly when its slot is set |
| Constants.Lookup | src/utils/constants.js:21-58 | a table lookup finds the entry under a key exactly when one exists |
| Constants.BrandNameMinLength | src/utils/constants.js:24 | the brand-name minimum is the one in the rules table |
| Constants.MinLengthMessageReadsBack | src/utils/constants.js:53 | the minimum-length message is "Must be at least N characters" and N reads back |
| Constants.MaxLengthMessageReadsBack | src/utils/constants.js:54 | the maximum-length message is "Must be no more than N characters" and N reads back |
| Constants.MinLengthMessageInjective | src/utils/constants.js:53 | distinct bounds give distinct messages |
| Constants.BrandNameRule | src/utils/constants.js:22-26 | brand names are required, 2 to 50 characters |
| Constants.PromoAndAddressRules | src/utils/constants.js:27-34 | promotional text is capped at 100 characters and addresses need at least 5 |
| Constants.NoPerFieldMessages | src/utils/constants.js:50-58 | the message table has no `brandName`, `address` or `promoText` entry; `required` is "This field is required" |
| Constants.ColorPresetTable | src/utils/constants.js:9-18 | eight presets with distinct names and `#rrggbb` colours, Classic first |
| TemplateForm.WithField | src/components/PassCreate/PassCreate.jsx:33-39 | a change sets the named field and no other |
| TemplateForm.WithPreset | src/components/PassCreate/PassCreate.jsx:49-55 | a preset sets both colours and leaves the other four fields alone |
| TemplateForm.BrandIdOrDefault | src/components/PassCreate/PassCreate.jsx:91 | the brand id is never empty: the form's own when set, otherwise `brand-` followed by the clock value, which reads back |
| TemplateForm.CheckTemplateForm | src/components/ModifyPass/ModifyPass.jsx:144-162 | the form passes exactly when the brand name is not blank and is at least 2 UTF-16 units long, and the address and promotional text are not blank. Each failure gives its message, in check order |
| TemplateForm.LengthCountsUntrimmedText | src/components/ModifyPass/ModifyPass.jsx:149 | the length check counts untrimmed UTF-16 units: " a" passes, "a" fails, and one astral character (U+1F600) passes |
| Text.Utf16Length | src/components/PassCreate/PassCreate.jsx:62 | `s.length` lies between the character count and twice it, and equals the character count exactly when no character lies outside the Basic Multilingual Plane |
| PassCreate.ValidateForm | src/components/PassCreate/PassCreate.jsx:57-75 | valid exactly under the shared rule; a blank brand name gives "This field is required" and a one-character one "Must be at least 2 characters" |
| PassCreate.HandleInputChange | src/components/PassCreate/PassCreate.jsx:33-39 | only the named field changes and the error clears |
| PassCreate.HandleColorPresetSelect | src/components/PassCreate/PassCreate.jsx:49-55 | both colours come from the preset; the rest stays |
| PassCreate.HandleAddressSelect | src/components/PassCreate/PassCreate.jsx:41-47 | the location is replaced by the picked place's three values; the form stays |
| PassCreate.ResetRestoresInitialState | src/components/PassCreate/PassCreate.jsx:116-133 | reset restores the initial form and location and clears error, success and the created template, from any state; the reset form fails validation |
| PassCreate.TemplateDataShape | src/components/PassCreate/PassCreate.jsx:88-97 | the submitted object is the form in field order with the brand id defaulted in place, then the coordinates when both are truthy |
| PassCreate.HandleSubmit | src/components/PassCreate/PassCreate.jsx:77-114 | an invalid form sets its message and sends nothing. A valid one sends the template and records the created template, or the thrown message or "Failed to create pass template" |
| ModifyPass.ValidateImage | src/components/ModifyPass/ModifyPass.jsx:105-116 | an image is accepted exactly when at most 5 MB and JPEG, PNG or GIF; size is reported before type |
| ModifyPass.ImageSizeBoundary | src/components/ModifyPass/ModifyPass.jsx:106-110 | 5242880 bytes pass, 5242881 fail whatever the type |
| ModifyPass.HandleInputChange | src/components/ModifyPass/ModifyPass.jsx:84-87 | only the named field changes and the error clears |
| ModifyPass.HandleAddressSelect | src/components/ModifyPass/ModifyPass.jsx:89-95 | the location is replaced; form, images and error stay |
| ModifyPass.HandleColorPresetSelect | src/components/ModifyPass/ModifyPass.jsx:97-103 | both colours come from the preset; the rest stays |
| ModifyPass.HandleImageChange | src/components/ModifyPass/ModifyPass.jsx:118-137 | no file changes nothing; a rejected file only sets the error; an accepted one fills that slot alone |
| ModifyPass.HandleRemoveImage | src/components/ModifyPass/ModifyPass.jsx:139-142 | the slot becomes null and nothing else changes |
| ModifyPass.ValidateForm | src/components/ModifyPass/ModifyPass.jsx:144-162 | valid exactly under the shared rule; a blank brand name gives "Brand name is required" |
| ModifyPass.AssembleUpload | src/components/ModifyPass/ModifyPass.jsx:174-203 | the upload is the six fields with the brand id defaulted, the pass id, the coordinates when both are truthy, then the images that are set |
| ModifyPass.UploadCarriesIds | src/components/ModifyPass/ModifyPass.jsx:177-191 | every upload carries a non-empty brand id and the pass id, and coordinates appear exactly as a latitude–longitude pair when both are truthy |
| ModifyPass.HandleSubmit | src/components/ModifyPass/ModifyPass.jsx:164-230 | an invalid form sets its message and sends nothing. A valid one sends the upload, keeps the form, location and images, and records success, or the thrown message or "Failed to update pass template" |
| EditPass.HandleInputChange | src/components/EditPass/EditPass.jsx:101-107 | only the named field changes; the error is left as it is |
| EditPass.HandlePresetClick | src/components/EditPass/EditPass.jsx:388-391 | the two `handleColorChange` calls a preset button makes (lines 109-114) leave the form equal to the shared preset update: both colours from the preset, every other field, the location, the images and the error unchanged |
| EditPass.HandleLocationSelect | src/components/EditPass/EditPass.jsx:116-126 | the place's coordinates and id replace the location and its formatted address replaces the address field |
| EditPass.HandleImageUpload | src/components/EditPass/EditPass.jsx:128-144 | a file fills its slot alone; no file changes nothing |
| EditPass.RequiredMessageRead | src/components/EditPass/EditPass.jsx:150 | reading a field's `required` message throws exactly when the message table has no entry for that field |
| EditPass.ValidateForm | src/components/EditPass/EditPass.jsx:146-167 | the validator pushes one message per blank field in check order and joins them, or throws when a message read throws |
| EditPass.RealMessagesThrowOnBlank | src/components/EditPass/EditPass.jsx:146-167 | with the real constants the validator passes exactly when all three fields are non-blank, and otherwise throws |
| EditPass.EveryFailureReported | src/components/EditPass/EditPass.jsx:146-167 | had the table a readable entry for each checked field, validation would never throw. It would pass exactly when no checked field is blank, and otherwise report every blank field's message in check order, joined with ", " |
| EditPass.BuildTemplateData | src/components/EditPass/EditPass.jsx:187-200 | the template is the six fields with the brand id defaulted, then the coordinates when both are truthy, and carries no pass id |
| EditPass.HandleSubmit | src/components/EditPass/EditPass.jsx:169-236 | a blank field makes validation throw: nothing changes and nothing is sent. Otherwise the template is sent, form, location and images are kept, and the page records the updated template, or the thrown message or "Failed to update pass template" with the previous template kept |
| LiveUpdate.WithValue | src/components/LiveUpdate/LiveUpdate.jsx:17-23 | the named input changes and the other two keep their values |
| LiveUpdate.KeepStepAppends | src/components/LiveUpdate/LiveUpdate.jsx:33-38 | one reduction step for a new key appends the trimmed value when it is not blank |
| LiveUpdate.FilteredDataIsKeptEntries | src/components/LiveUpdate/LiveUpdate.jsx:33-38 | the reduction keeps exactly the non-blank inputs, trimmed, in input order |
| LiveUpdate.KeptEntryKeys | src/components/LiveUpdate/LiveUpdate.jsx:34-35 | one input contributes its key exactly when it is not blank |
| LiveUpdate.KeptEntriesKeys | src/components/LiveUpdate/LiveUpdate.jsx:33-38 | a key is kept exactly when it is one of the three inputs and its value is not blank |
| LiveUpdate.KeptEntriesValues | src/components/LiveUpdate/LiveUpdate.jsx:35 | a kept key carries its input trimmed |
| LiveUpdate.FilteredDataKeys | src/components/LiveUpdate/LiveUpdate.jsx:33-38 | a key is sent exactly when its input is not blank, its value is sent trimmed, and no other key is sent |
| LiveUpdate.FilteredDataEmpty | src/components/LiveUpdate/LiveUpdate.jsx:40-42 | nothing is sent exactly when all three inputs are blank |
| LiveUpdate.HandleInputChange | src/components/LiveUpdate/LiveUpdate.jsx:17-23 | only the named input changes; messages and the history toggle stay |
| LiveUpdate.LoadHistory | src/components/LiveUpdate/LiveUpdate.jsx:68-75 | a loaded history replaces the old one; a failure changes nothing |
| LiveUpdate.HandleSubmit | src/components/LiveUpdate/LiveUpdate.jsx:25-66 | all-blank inputs give "Please provide at least one field to update" and send nothing. Otherwise the filtered data is sent. On success the inputs clear, the success message shows, the `onUpdateSuccess` callback gets the send's result exactly when the page was given one, and the history is reloaded; on failure the inputs stay and the thrown message or "Failed to send live update" shows. The history changes only on success, and the panel's visibility never |
| LiveUpdate.HandleShowHistory | src/components/LiveUpdate/LiveUpdate.jsx:77-82 | the panel flips, and the history is requested only when it opens |
| LiveUpdate.ShowHistoryRoundTrip | src/components/LiveUpdate/LiveUpdate.jsx:77-82 | opening then closing restores the visibility and requests the history once |
| DinerRegistration.HandleInputChange | src/components/DinerRegistration/DinerRegistration.jsx:43-48 | only the named diner field changes |
| DinerRegistration.PayloadShape | src/components/DinerRegistration/DinerRegistration.jsx:62-65 | the payload is the pass id followed by all six diner fields, with no duplicate key |
| DinerRegistration.HandleSubmit | src/components/DinerRegistration/DinerRegistration.jsx:50-79 | nothing is sent exactly when first name, last name or e-mail is empty. A sent payload is recorded as success, or as the thrown message or "Failed to create diner pass" |
| DinerRegistration.WhitespaceIsAccepted | src/components/DinerRegistration/DinerRegistration.jsx:53-56 | the check tests emptiness, not blankness: single spaces pass |
| DinerRegistration.OptionalFieldsIrrelevant | src/components/DinerRegistration/DinerRegistration.jsx:53-56 | phone, birthday and how the diner heard of the venue never decide whether the form is sent |
| DinerRegistration.EachRequiredFieldBlocks | src/components/DinerRegistration/DinerRegistration.jsx:53-56 | emptying any one required field blocks the submission |
| Dashboard.Persist | src/components/Dashboard/Dashboard.jsx:22-24 | the stored copy becomes the list |
| Dashboard.Mount | src/components/Dashboard/Dashboard.jsx:14-24 | the saved list, or an empty one, is loaded and written back |
| Dashboard.MakeBrand | src/components/Dashboard/Dashboard.jsx:39-45 | a new brand has the trimmed name and description, no passes, and an id `brand-<now>` whose number reads back |
| Dashboard.HandleCreateBrand | src/components/Dashboard/Dashboard.jsx:26-52 | a blank name sets "Brand name is required" and changes nothing else. Otherwise the new brand is appended and stored, the inputs clear and the form closes |
| Dashboard.CreateAppends | src/components/Dashboard/Dashboard.jsx:47 | creation keeps every existing brand in place and adds exactly one with a non-blank name |
| Dashboard.HandleDeleteBrand | src/components/Dashboard/Dashboard.jsx:58-62 | a confirmed delete filters the brand out and stores the list; an unconfirmed one changes nothing |
| Dashboard.DeleteRemovesOnlyThatId | src/components/Dashboard/Dashboard.jsx:60 | after a delete no brand has that id, every other brand remains, and the order is kept |
| Dashboard.HandlersKeepStoragePersisted | src/components/Dashboard/Dashboard.jsx:22-24 | every handler leaves the stored copy equal to the list |
| PassManager.PassesKeysDistinct | src/components/PassManager/PassManager.jsx:45 | a brand's cache key never equals "brands" and is distinct for distinct brands |
| PassManager.Storage.constructor | src/components/PassManager/PassManager.jsx:22 | the store starts with the given entries |
| PassManager.Storage.GetItem | src/components/PassManager/PassManager.jsx:22 | a read yields the stored text exactly when the key is present |
| PassManager.Storage.SetItem | src/components/PassManager/PassManager.jsx:45 | a write sets that key and no other |
| PassManager.Storage.RemoveItem | src/components/PassManager/PassManager.jsx:114 | a removal drops that key and no other |
| PassManager.FindById | src/components/PassManager/PassManager.jsx:25 | the result is the first record of the list with that id, and there is none exactly when no record has it |
| PassManager.LoadStopsWithoutBrand | src/components/PassManager/PassManager.jsx:22-31 | a saved list without the brand gives "Brand not found": no request is made and nothing else changes |
| PassManager.LoadCachesServerArray | src/components/PassManager/PassManager.jsx:38-45 | with the brand found or no list saved, an array answer becomes the list and is cached under the brand's key |
| PassManager.LoadFallsBackToCache | src/components/PassManager/PassManager.jsx:20-59 | with the brand found, or no brand list saved, and without an array answer, a cached list is used. Without a cache the list stays. An unreadable cache gives "Failed to load data". The store is not written |
| PassManager.WithoutPassSpec | src/components/PassManager/PassManager.jsx:85 | deletion keeps exactly the passes with another id, in order |
| PassManager.ActiveCount | src/components/PassManager/PassManager.jsx:214 | the active count never exceeds the number of passes |
| PassManager.StatuslessPassNotCounted | src/components/PassManager/PassManager.jsx:285-286 | a pass without a status is labelled "Active" but not counted as active |
| PassManager.ActiveCountAppend | src/components/PassManager/PassManager.jsx:214 | one more pass raises the count by one exactly when its status is "active" |
| PassManager.PassManagerPage.constructor | src/components/PassManager/PassManager.jsx:10-13 | no brand, no passes, loading, no error |
| PassManager.PassManagerPage.LoadData | src/components/PassManager/PassManager.jsx:17-67 | brand, passes, error and store end as the load function gives, and loading ends false |
| PassManager.PassManagerPage.RefreshPasses | src/components/PassManager/PassManager.jsx:96-110 | only an array answer replaces the list and the cache; anything else changes nothing |
| PassManager.PassManagerPage.ClearLocalStorage | src/components/PassManager/PassManager.jsx:112-116 | only this brand's cache entry is removed |
| PassManager.PassManagerPage.HandleDeletePass | src/components/PassManager/PassManager.jsx:82-90 | a confirmed delete removes the pass from the list; storage is untouched |
| PassManager.PassManagerPage.ActivePasses | src/components/PassManager/PassManager.jsx:214 | the figure shown is the active count of the current list |
| Text.BlankIffTrimEmpty | src/components/PassCreate/PassCreate.jsx:58 | `!s.trim()` holds exactly when every character is whitespace |
| Text.TrimIdempotent | src/components/LiveUpdate/LiveUpdate.jsx:35 | trimmed text has no whitespace at either end, and trimming again changes nothing |
| Text.NatToString | src/components/Dashboard/Dashboard.jsx:40 | the rendered number is non-empty digits without a leading zero |
| Text.ParseNatToString | src/components/Dashboard/Dashboard.jsx:40 | the rendered number parses back to itself |
| Text.NatToStringInjective | src/components/Dashboard/Dashboard.jsx:40 | distinct numbers render differently |
| Text.IncludesIffOccurs | src/services/api.js:25 | `includes` is true exactly when the needle occurs at some index |
| Text.IncludesInfix | src/services/api.js:25 | a text built around the needle includes it |
| Js.Keys | src/services/api.js:65 | the key list lists each property's name in order |
| Js.GetAbsent | src/services/PassUpdateService.js:107 | a missing property reads as `undefined` |
| Js.GetConcat | src/components/LiveUpdate/LiveUpdate.jsx:33-38 | on concatenated properties the first part wins |
| Js.PutGet | src/components/LiveUpdate/LiveUpdate.jsx:35 | after an assignment the key reads the new value and every other key reads as before |
| Js.PutKeys | src/components/ModifyPass/ModifyPass.jsx:189-190 | an assigned existing key keeps its place; a new key goes last |
| Js.PutNewKey | src/components/ModifyPass/ModifyPass.jsx:189-190 | assigning a key the object lacks appends it |
| Js.PutExistingKey | src/components/PassCreate/PassCreate.jsx:89-91 | assigning an existing key replaces its value in place |
| Js.SpreadNewKeys | src/components/PassCreate/PassCreate.jsx:93-96 | spreading new keys appends them in order |
| Js.PutUnique | src/components/LiveUpdate/LiveUpdate.jsx:35 | assignment never duplicates a key |
| Js.SpreadGet | src/services/api.js:14 | after a spread, the spread object's keys win and the others keep their values |
| Js.SpreadKeepsOrder | src/services/api.js:14 | the original keys keep their order at the front of a spread |
| ListOps.Filter | src/components/Dashboard/Dashboard.jsx:60 | the filter result is no longer than the list and every element passes the test |
| ListOps.FilterMembership | src/components/Dashboard/Dashboard.jsx:60 | an element survives exactly when it was there and passes |
| ListOps.FilterIsSubsequence | src/components/PassManager/PassManager.jsx:85 | the survivors keep their relative order |
| ListOps.FilterCounts | src/components/PassManager/PassManager.jsx:85 | an accepted element keeps its multiplicity and a rejected one is gone |
| ListOps.FilterIdempotent | src/components/Dashboard/Dashboard.jsx:60 | filtering twice with the same test is filtering once |

## Where the code departs from its stated design

The model follows the code in each of these places:

- The retry count never grows past one. `connect` resets it to zero, and
  the delayed retry increments it only after calling `connect`. So every
  retry waits 1 or 2 seconds, not the intended 1 s to 16 s doubling.
  `reconnect` never reaches its polling fallback
  (`UpdateService.ReachableStates`).
- A retry scheduled before `disconnect` still runs. It reconnects with the
  cleared user as the text "null" (`UpdateService.StaleRetryReconnectsAsNull`).
- `connect` does not close the previous stream.
- `startPolling` does not stop an interval that is already running.
  Neither a leaked interval nor a stale retry sends a request after
  `disconnect`, though, because both find no user
  (`UpdateService.NothingSentAfterDisconnect`).
- EditPass validation reads per-field messages that the constants table
  does not have. A blank field therefore throws a TypeError before any
  message is set, and the submit ends without effect
  (`EditPass.RealMessagesThrowOnBlank`).
- `apiCall` returns the raw response for any endpoint containing
  `/download`, including a template id that starts with "download"
  (`Api.TemplateIdStartingWithDownload`).
- EditPass's input handler does not clear the error; the other pages'
  handlers do.
- EditPass's location handler is never reached as the page is wired. The
  page gives the address autocomplete no `onChange`, and the autocomplete
  calls `onChange` before `onPlaceSelect`, so choosing a place throws a
  TypeError first. Typing in the address box calls the missing `onChange`
  too, so the address cannot be edited. The autocomplete also hands over a
  flat `{address, latitude, longitude, placeId}` object, not a place with
  `geometry`, so the handler would throw even if reached.
- With notifications granted, a `null` update in a polled batch throws.
  The rest of the batch is then dropped (`UpdateService.BatchStopsAtNull`).
- `createPassTemplate` sends its argument as the body. From PassCreate that
  is a plain object, which the browser sends as the text
  "[object Object]". The model records the object the page passes.

## Left out

- Real I/O: the streams, `fetch`, timers, intervals, browser storage and notifications are effects or parameters. The server's answers are inputs.
- Timer order: any pending timer may fire next. Delays are recorded but not used to order timers, so the model allows more orders than the browser.
- Notification support and permission are one boolean, `granted`.
- Callbacks: the registered update callback and the page's `onUpdateSuccess` callback are assumed not to throw. For the update callback only its identity is modelled; for `onUpdateSuccess` only whether it is given and the value it receives.
- Form uploads: `FormData.append` turns every value that is not a file into text, so the numeric latitude and longitude (and any other non-string field) go out as strings; `Api.BuildTemplateFormData` and `ModifyPass.AssembleUpload` keep the values as given.
- Logging: all `console` output, and the subscribe/unsubscribe responses, which are only logged.
- Rendering and navigation: JSX, routing, navigation timeouts, FileReader previews and the address-autocomplete service.
- PassManager's "This Month" count: it needs dates and the clock.
- Pre-filling from the server: ModifyPass and EditPass `loadPassData`, and DinerRegistration `loadTemplate`. Their results only pre-fill state, which the model takes as given.
- External call results: `updatePassTemplateWithImages`, `sendLiveUpdate` and `getPassUpdateHistory` are parameters, as are their thrown messages. api.js does not export them, so a real call would throw a TypeError; the rejected outcome covers that case.
- LiveUpdate.WithValue: requires the input name to be one of the three inputs; an unknown name would add an extra key.
- LiveUpdate.HandleInputChange: requires the input name to be one of the three inputs, for the same reason.
- EditPass.HandleLocationSelect: modelled on a Google place result (coordinates, id and formatted address), which its only caller, the address autocomplete, never delivers; the autocomplete's own behaviour is not part of this model. A place without `formatted_address` (which would store `undefined`) is not modelled either.
- Dashboard.HandleCreateBrand: the 500 ms simulated delay collapses into one step; the loading flag is cleared at its end.
- Dashboard.Mount: saved text that is not valid JSON, which would throw at mount, is not modelled.
- Api.CallerHeadersReplaceDefaults: a string or other primitive passed as `headers`, which would spread characters, is not modelled.
- PassManager.PassManagerPage.LoadData: a cached JSON value that is not an array leaves the passes unchanged. The source would store that value as the list.
- PassManager.Storage: stored texts are never the empty string; an empty text would count as missing.
- PassManager.FindById: saved records are objects; arrays holding non-objects are not modelled.
- PassManager.PassesResponse: `getPassTemplatesByBrand`'s outcome is abstracted to an array, another value, or a thrown error.
- PassCreate.HandleSubmit: the `loading` flag is not modelled; it ends false either way.
- Numbers are JavaScript numbers without NaN, and file sizes are natural numbers.
