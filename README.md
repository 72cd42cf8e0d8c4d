# File search client: search session, request model and dialog configuration

This project models the sequential core of an Angular client that searches files on a server and receives the results as a stream of batches. It has three parts.

- **The search session of the search form** (`SearchForm`, search_form_component.dfy).
  - `search()` builds a request from the form, sets `loading` and clears `dataSource`.
  - The subscription callback folds each stream event into the component's state. A batch (`Some(batch)`) is appended to `dataSource`. The terminal event (`None`, the `undefined` the file search service publishes after its event source fails) clears `loading`. If nothing was collected, it also raises the alert "Unable to read files from the given directory."
  - The component is a class, `SearchFormComponent`. Its fields `dataSource` and `loading` are updated in place. A ghost field `alerts` records each call to `dialogService.showAlert`.
  - Each method is specified by a function on the `Session` value: `Reset` for `search()` and `Step` for the callback. `Run` folds `Step` over a sequence of events. The lemmas about `Run` state what a whole session does.
- **The request value object** (`RequestModel`, search_request_model.dfy). `SearchRequestModel` holds three strings. It is built by `Of`, a total factory that copies its arguments.
- **The configuration resolution of the dialog service** (`DialogService`, dialog_service.dfy).
  - `showAlert` turns a string into `{message: s}` and overlays the defaults with the config's fields (`{ ...configDefault, ...config }`). After dismissal it calls the config's callback, if any, with `result || false`.
  - `showNotification` turns a string into `{message: s}` and resolves `secondsToClose || 5` and the duration. It takes the action label from the first action key, upper-cased. It wires the dismiss and action handlers.
  - Each operation is a function that returns the arguments handed to the Material bottom sheet or snack bar. The object spread is also modelled on JavaScript objects (maps from property names to values). A lemma shows that the typed resolution is that spread.

### What the client does not do

- `of` validates nothing, and a request names a single server.
- Results carry no client-assigned positions.
- Events that arrive after the terminal event are not ignored: a later batch is still appended, and a second terminal event on an empty session raises the alert again (`NoGuardAfterTerminal`).
- A second `search()` does not close the stream the first one opened. Both streams feed the same callback, so the earlier stream's late batches and its terminal event are folded into the new session (`StaleTerminalEndsNewSession`).
- A malformed frame makes `JSON.parse` throw inside `onmessage`. Nothing is published for it, the event source stays open and later frames still arrive. The frame is in effect skipped, with an uncaught error instead of a warning, and it is simply absent from the model's event sequence.
- There is no timeout: a stream that never fails leaves `loading` on.

## Model

| member | source | states |
|---|---|---|
| `RequestModel.Of` | src/app/model/search-request.model.ts:12-14 | total: any three strings, empty ones included, give a request whose `server`, `rootPath` and `searchTerm` are exactly those arguments |
| `RequestModel.OfIsOnlyConstructionPath` | src/app/model/search-request.model.ts:6-14 | every request is `of` applied to its own fields; `of` is deterministic and injective: two results are equal exactly when the arguments are |
| `SearchForm.CreateSearchRequestModel` | src/app/search-form/search-form.component.ts:71-76 | the request carries the form's `server`, `rootPath` and `searchTerm` values verbatim, each in the field of its name |
| `SearchForm.SearchFormComponent.constructor` | src/app/search-form/search-form.component.ts:23-24 | a new component has an empty `dataSource`, `loading` false and no alerts raised |
| `SearchForm.SearchFormComponent.Search` | src/app/search-form/search-form.component.ts:64-69 | returns the request built from the form values (the one handed to the service); the new state is `Reset` of the old one |
| `SearchForm.SearchFormComponent.OnSearchResult` | src/app/search-form/search-form.component.ts:39-49 | the new state is `Step` of the old state and the event |
| `SearchForm.Reset` | src/app/search-form/search-form.component.ts:66-67 | after `search()` loading is true, `dataSource` is empty and the alerts raised so far are kept |
| `SearchForm.ResetIdempotent` | src/app/search-form/search-form.component.ts:64-69 | calling `search()` twice in a row gives the same state as calling it once |
| `SearchForm.Step` | src/app/search-form/search-form.component.ts:39-47 | a batch is appended: the old results are a prefix, the batch is the suffix, the length grows by the batch length, loading and alerts are unchanged; a terminal event clears loading, keeps `dataSource`, and adds exactly one alert, 'Unable to read files from the given directory.', iff `dataSource` is empty, none otherwise |
| `SearchForm.ConcatLength` | src/app/search-form/search-form.component.ts:41 | the batches joined by repeated `concat` have the sum of the batch lengths as length, and are empty iff every batch is empty |
| `SearchForm.RunSplit` | src/app/search-form/search-form.component.ts:37-49 | folding the callback over two event sequences one after the other is folding it over their concatenation |
| `SearchForm.RunDataEvents` | src/app/search-form/search-form.component.ts:40-41 | after batches b1..bn the results are the old results followed by b1 ++ .. ++ bn; loading and alerts are unchanged |
| `SearchForm.SearchSession` | src/app/search-form/search-form.component.ts:37-69 | after `search()`, batches b1..bn and the terminal event: `dataSource` is b1 ++ .. ++ bn (length the sum of the batch lengths), loading is false, and one alert was raised iff every batch was empty |
| `SearchForm.RunAppendOnly` | src/app/search-form/search-form.component.ts:39-47 | for any events, the old results and alerts stay a prefix of the new ones, and loading stays on iff it was on and no terminal event arrived |
| `SearchForm.StaleTerminalEndsNewSession` | src/app/service/file-search.service.ts:20-33 | each search opens a new event source and none is closed by the next search; when the earlier stream's terminal event arrives after `search()`, the new session stops loading and raises the alert while the new stream's batches are still appended |
| `SearchForm.NoGuardAfterTerminal` | src/app/search-form/search-form.component.ts:39-46 | a batch after the terminal event is still appended and does not turn loading back on; a second terminal event on an empty session raises the alert a second time |
| `SearchForm.UnableToReadAlertShown` | src/app/search-form/search-form.component.ts:44-46 | the session's alert is shown with its message, title 'Warning!', type 'warn', no detail lines, and no callback after dismissal |
| `DialogService.AlertConfigOf` | src/app/shared/services/dialog.service.ts:20-21 | a string becomes the config `{message: s}` with no other field; a config is used unchanged |
| `DialogService.ResolveAlert` | src/app/shared/services/dialog.service.ts:22-30 | each field the config gives overrides the default, and each it leaves out takes its default (message '', messages [], title 'Warning!', type 'warn'); the callback is carried over |
| `DialogService.ResolveAlertIsSpread` | src/app/shared/services/dialog.service.ts:30 | the resolved data, as a JavaScript object, is exactly `{ ...configDefault, ...config }` |
| `DialogService.ShowAlert` | src/app/shared/services/dialog.service.ts:28-31 | the sheet opens with aria label 'Dialog with a message'; a plain message is shown with title 'Warning!', type 'warn' and no detail lines |
| `DialogService.CallbackArgument` | src/app/shared/services/dialog.service.ts:35 | result-or-false is true iff the sheet was dismissed with true (absent and false give false) |
| `DialogService.AfterDismissed` | src/app/shared/services/dialog.service.ts:33-37 | a callback runs iff the config supplied one, and then it is that callback with argument result-or-false; a plain message never runs one |
| `DialogService.NotificationConfigOf` | src/app/shared/services/dialog.service.ts:42-43 | a string becomes the config `{message: s}`; a config is used unchanged |
| `DialogService.SecondsToClose` | src/app/shared/services/dialog.service.ts:45 | an absent or zero `secondsToClose` resolves to 5, any other value is kept; the result is never zero |
| `DialogService.Duration` | src/app/shared/services/dialog.service.ts:50 | the duration is the resolved seconds times 1000: a non-zero whole number of seconds, 5000 ms when no time is set |
| `DialogService.UpperChar` | src/app/shared/services/dialog.service.ts:47 | an ASCII lower-case letter becomes its upper-case letter, any other character is kept |
| `DialogService.UpperCase` | src/app/shared/services/dialog.service.ts:47 | same length, each character upper-cased, no lower-case ASCII letter left |
| `DialogService.ActionLabelAsWritten` | src/app/shared/services/dialog.service.ts:47 | no action gives ''; an action map with entries gives its first key upper-cased; an empty action map throws a TypeError |
| `DialogService.ActionLabel` | src/app/shared/services/dialog.service.ts:47 | the first action key upper-cased, and '' when there is no action or it has no entries |
| `DialogService.ActionHandler` | src/app/shared/services/dialog.service.ts:59-64 | an action handler is wired iff `action` is present with at least one entry, and it is the first entry's callback |
| `DialogService.ShowNotification` | src/app/shared/services/dialog.service.ts:40-66 | the snack bar shows `config.message` at the top right for `secondsToClose * 1000` ms; the dismiss handler is wired only when given; the action label and the action handler come from the same first entry, and with no handler the label is ''; a plain message opens `(s, '', 5000)` with no handlers |
| `DialogService.ShowNotificationAsWritten` | src/app/shared/services/dialog.service.ts:42-53 | as written, the notification throws iff the config's action map is present and empty |
| `DialogService.AsWrittenAgreesWhereItSucceeds` | src/app/shared/services/dialog.service.ts:47 | wherever the code as written does not throw, it opens the same snack bar as the corrected operation; it throws exactly on an empty action map |
| `DialogService.EmptyActionMapThrows` | src/app/shared/services/dialog.service.ts:47 | `{message: 'Saved', action: {}}` throws as written, while the corrected operation opens `('Saved', '', 5000)` with no handlers |

## Left out

- The file search service (src/app/service/file-search.service.ts) is not part of this model beyond its event convention: a parsed message is `Some(batch)` and `onerror` publishes `None`. The EventSource connection, `HttpParams` URL encoding, `JSON.parse` and the rxjs `Subject` are network, library and asynchronous behaviour. The request reaches `FileSearchService.search` whole, but only `rootPath` and `searchTerm` are put into the URL; `server` is never sent.
- A parsed message that is not an array is not modelled. A falsy one (`null`, `0`, `''`) would be taken for the terminal event, and a non-array object would be appended as one element. The stream is modelled as batches and `None`.
- `SearchForm.SearchSession`: holds only when no earlier search's stream is still open. Streams are not cancelled, so a stale stream's events can interleave with the new one's (`SearchForm.StaleTerminalEndsNewSession`).
- The shape of a result record (`SearchResponseModel`) is not part of this model: results are values of a type parameter `R`.
- The form (`createForm`, `Validators.required`), `ServerService.getServers`, `changeDetectorRefs.detectChanges`, `ngOnDestroy` and the unsubscription are framework behaviour. The form values are a parameter of `Search`.
- The Material calls: `bottomSheet.open`, `snackBar.open`, the `afterDismissed` and `onAction` subscriptions and the `setTimeout(..., 50)` delay are UI and asynchronous scheduling. The model returns the arguments of those calls and the callback that would run.
- Callbacks are opaque ids; calling them is not modelled.
- `DialogService.UpperChar`, `DialogService.UpperCase`: model `toUpperCase` for ASCII letters only. Non-ASCII lower-case letters (`'é'` to `'É'`, `'ω'` to `'Ω'`) are kept unchanged here, and mappings that change the length (`'ß'` to `'SS'`) are not modelled.
- `DialogService.SecondsToClose`: `secondsToClose` is an integer; fractional numbers and `NaN` (which is falsy and would also resolve to 5) are not modelled.
- The action map is an ordered sequence of (label, callback) pairs taken in `Object.keys` order. That order puts integer-like keys first, and the model does not reproduce it. The labels are assumed distinct, as the keys of a JavaScript object are; the sequence type does not enforce it.
- `DialogService.ResolveAlert`: a property present in the config with the value `undefined` is modelled as absent. JavaScript's spread would copy the `undefined` over the default.
- The fields of the alert config (`message`, `messages`, `title`, `type`, `callback`) are inferred from their use in dialog.service.ts, because the alert config's own file is not part of this model. `type` is a Dafny keyword, so the field is named `alertType`; the JavaScript property name stays `type`.
- The dialog components (dialog-alert, message-dialog), the welcome and result-list components and the Angular modules are display and wiring only.

## Findings

| source | as written | input that shows it | evidently intended | confidence | as-written member | corrected member |
|---|---|---|---|---|---|---|
| src/app/shared/services/dialog.service.ts:47 | `config.action ? Object.keys(config.action)[0].toUpperCase() : ''` tests only that `action` is present. An empty object `{}` is truthy, `Object.keys({})[0]` is `undefined`, and calling `toUpperCase` on it throws a TypeError inside the timeout, so no snack bar opens. | `showNotification({message: 'Saved', action: {}})` | the label is '' when the action map has no entries, as the `actionCallback.length` test at lines 60-61 already expects | not executed | `DialogService.ShowNotificationAsWritten` (with `DialogService.ActionLabelAsWritten`, `DialogService.EmptyActionMapThrows`) | `DialogService.ShowNotification` (with `DialogService.ActionLabel`, `DialogService.AsWrittenAgreesWhereItSucceeds`) |
