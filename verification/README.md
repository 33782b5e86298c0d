# Data ingestion controls of the ClickHouse / flat-file transfer UI

This project models in Dafny the two components of the browser UI that
make decisions. The UI moves tabular data between a ClickHouse database
and flat files.

- **The connection form** (`ClickHouseConfig`). It has five inputs with
  defaults, a required-field check (the password is optional), and a
  connect state machine over `isConnecting` and `isConnected`. The inputs
  lock once connected. The Connect button has its own disabled rule and
  its own caption.
- **The data panel** (`DataPreview`). It has two handlers:
  - "Preview Data" makes two ordered checks, then requests the first
    selected table.
  - "Start" makes three ordered checks. When the source is a file and no
    upload path is cached, it uploads first. It then sends one `ingestData`
    request with a resolved descriptor. For a file target, it offers a
    download under the part of the result path after its last `/` or
    `\`, or the whole path when that part is empty.

  The panel's rendering is modelled too: the button captions, the
  preview button (shown only for a database source), and every button
  disabled while loading (the target inputs stay editable). So are the target inputs, the `.csv` advisory
  note, and the cached upload path that outlives runs.

Everything outside these components is a parameter:
- The transfer gateway (`apiService`) is represented by its possible
  answers (`PreviewOutcome`, `UploadOutcome`, `IngestOutcome`,
  `ConnectOutcome`). A run takes the answer as an argument.
- A handler run returns its observable effects as a trace
  (`Transfer.Effect`, `ConnectionForm.Notice`). The trace holds the
  warnings, the parent callbacks, the gateway requests, the download offer
  and the completion report.
- `GatewayCalls` and `Reports` select the gateway requests and the outcome
  reports from a trace, so properties can be stated about them.

Modules, in dependency order:
- `Wrappers`: `Option`, `Result`.
- `Text`: `split`/`pop` as `AfterLast`, and an ASCII `toLowerCase`.
- `Filenames`: the download name and the `.csv` advisory.
- `ConnectionForm`.
- `Transfer`: the vocabulary shared by both handlers.
- `PreviewHandler`.
- `IngestionHandler`.
- `DataPanel`: rendering, user actions, and sessions of actions.

What the component does where one might expect otherwise:
- **Gateway errors are swallowed.** Both data-panel handlers wrap the gateway calls
  in a `try` whose `catch` does nothing. So there is no failure
  state: a failed run simply ends its trace. After a failed upload
  (`success = false` or a throw), no ingest request is made. After a failed
  ingest, neither a download offer nor a completion report is made.
- **The cached upload path is keyed on nothing.** It is reused whatever
  file is selected now (`IngestionHandler.CachedPathIsReused`,
  `DataPanel.UploadHappensOnce`). Nothing in the component clears it, and
  every enabled Reset click only calls the parent's `onReset` (`DataPanel.Step`).
- **No run guard of its own.** The component only reads the `isLoading`
  prop: while it is true every button is disabled and a click does
  nothing (`DataPanel.LoadingIgnoresClicks`). Whether the parent sets it
  during a run is up to the parent.
- **Inputs stay editable while connecting.** The connection inputs are
  disabled only once connected. An edit made while the request is in
  flight is the value that gets locked, even though the gateway checked
  the old value (`ConnectionForm.EditWhileConnectingIsLocked`).

## Model

All source paths are under `ClickHouse/frontend/src/components/data-ingestion/`.

| member | source | states |
|---|---|---|
| Text.Split | ClickHouse/frontend/src/components/data-ingestion/DataPreview.tsx:148 | `split` always returns at least one piece, no piece contains the separator, and there is exactly one piece (the whole string) iff the separator does not occur |
| Text.JoinSplit | ClickHouse/frontend/src/components/data-ingestion/DataPreview.tsx:148 | joining the pieces of `split` with the separator gives back the original string |
| Text.AfterLast | ClickHouse/frontend/src/components/data-ingestion/DataPreview.tsx:148 | `split(sep).pop()` never contains the separator, and is the whole string when the separator does not occur |
| Text.AfterLastIsFinalSegment | ClickHouse/frontend/src/components/data-ingestion/DataPreview.tsx:148 | `split(sep).pop()` is the suffix after the last separator: a separator-free suffix preceded by a separator unless it is the whole string |
| Text.FinalSegmentCompose | ClickHouse/frontend/src/components/data-ingestion/DataPreview.tsx:148 | popping after `/` and then after `\` yields the suffix after the last of either separator |
| Text.ToLower | ClickHouse/frontend/src/components/data-ingestion/DataPreview.tsx:213 | lower-casing keeps the length and maps every character through the ASCII lower-case map |
| Filenames.SafeFilename | ClickHouse/frontend/src/components/data-ingestion/DataPreview.tsx:147-149 | the download name is empty only for an empty path, is the path itself when it has no separator, and has no backslash when it differs from the path |
| Filenames.BaseNameIsFinalSegment | ClickHouse/frontend/src/components/data-ingestion/DataPreview.tsx:147-148 | the two chained `split/pop` steps give the suffix after the last `/` or `\` |
| Filenames.SafeFilenameIsBaseName | ClickHouse/frontend/src/components/data-ingestion/DataPreview.tsx:147-149 | for any path and its base name (the separator-free suffix after the last separator), the download name is that base name, or the whole path when the base name is empty |
| Filenames.SafeFilenameIsSeparatorFreeSuffix | ClickHouse/frontend/src/components/data-ingestion/DataPreview.tsx:147-149 | whenever the download name is not the whole path, it is a non-empty suffix of the path containing neither `/` nor `\` |
| Filenames.SafeFilenameOfUnixPath | ClickHouse/frontend/src/components/data-ingestion/DataPreview.tsx:147-149 | `/tmp/export.csv` is offered as `export.csv` |
| Filenames.SafeFilenameOfWindowsPath | ClickHouse/frontend/src/components/data-ingestion/DataPreview.tsx:147-149 | `C:\exports\out.csv` is offered as `out.csv` |
| Filenames.SafeFilenameOfTrailingSeparator | ClickHouse/frontend/src/components/data-ingestion/DataPreview.tsx:147-149 | a path ending in a separator has an empty last piece, so the `||` fallback keeps the whole path |
| Filenames.CsvAdvisory | ClickHouse/frontend/src/components/data-ingestion/DataPreview.tsx:213-217 | the "should end with .csv" note is shown iff the last four characters of the export name, lower-cased, are not `.csv` |
| Filenames.CsvAdvisoryIgnoresCase | ClickHouse/frontend/src/components/data-ingestion/DataPreview.tsx:213 | any capitalisation of `.csv` suppresses the note, whatever comes before it |
| Filenames.DefaultExportNameHasNoAdvisory | ClickHouse/frontend/src/components/data-ingestion/DataPreview.tsx:213-217 | the initial export name `export.csv` shows no note |
| Filenames.TsvNameHasAdvisory | ClickHouse/frontend/src/components/data-ingestion/DataPreview.tsx:213-217 | a `.tsv` export name shows the note |
| ConnectionForm.Set | ClickHouse/frontend/src/components/data-ingestion/ClickHouseConfig.tsx:84-140 | an input's `onChange` sets that field to the typed value and leaves the other four unchanged |
| ConnectionForm.RequiredFilled | ClickHouse/frontend/src/components/data-ingestion/ClickHouseConfig.tsx:31-36 | a connect attempt is allowed iff every field except the password is non-empty |
| ConnectionForm.PasswordIsOptional | ClickHouse/frontend/src/components/data-ingestion/ClickHouseConfig.tsx:31 | changing the password never changes whether the required fields are filled |
| ConnectionForm.InitialForm | ClickHouse/frontend/src/components/data-ingestion/ClickHouseConfig.tsx:22-28 | the form starts at `localhost`, `8123`, `default`, `default`, an empty password, neither connecting nor connected, and passes the required-field check |
| ConnectionForm.InputsLocked | ClickHouse/frontend/src/components/data-ingestion/ClickHouseConfig.tsx:90 | the five inputs are disabled exactly when connected (the same `disabled={isConnected}` at lines 90, 101, 114, 125 and 139) |
| ConnectionForm.ConnectDisabled | ClickHouse/frontend/src/components/data-ingestion/ClickHouseConfig.tsx:146 | the Connect button is disabled while connecting or once connected |
| ConnectionForm.ControlsFollowCaption | ClickHouse/frontend/src/components/data-ingestion/ClickHouseConfig.tsx:139-153 | the button is disabled exactly when its caption is not `Connect`; locked inputs imply a disabled button; in the three reachable states the inputs are locked exactly when the caption is `Connected ✓` |
| ConnectionForm.ConnectLabel | ClickHouse/frontend/src/components/data-ingestion/ClickHouseConfig.tsx:149-153 | the caption is `Connecting...` iff connecting, `Connected ✓` iff connected and not connecting, `Connect` iff neither |
| ConnectionForm.Step | ClickHouse/frontend/src/components/data-ingestion/ClickHouseConfig.tsx:30-146 | an edit of an unlocked form sets exactly that field and a locked form ignores it; presses and answers never change the entered values. A connect request is made only on an enabled press with the required fields filled, and then carries the five entered values. A press with a field missing only warns. Any answer ends the attempt, sets connected iff the gateway accepted (or it was already connected), and calls `onConnected` with that success. Connected is never cleared, and connected and connecting never hold together |
| ConnectionForm.ConnectedFormIsFrozen | ClickHouse/frontend/src/components/data-ingestion/ClickHouseConfig.tsx:84-154 | once connected (inputs and button disabled), no sequence of actions changes the form or makes a request |
| ConnectionForm.ReachableFormsHaveThreeStates | ClickHouse/frontend/src/components/data-ingestion/ClickHouseConfig.tsx:38-64 | over any sequence of actions the form is not connected, connecting, or connected, never connecting and connected at once |
| ConnectionForm.ConnectedStaysConnected | ClickHouse/frontend/src/components/data-ingestion/ClickHouseConfig.tsx:48-49 | a connected form stays connected through any actions |
| ConnectionForm.ConnectWithDefaults | ClickHouse/frontend/src/components/data-ingestion/ClickHouseConfig.tsx:22-53 | pressing Connect on the untouched form sends the defaults; an accepting answer leaves it connected and calls `onConnected(true)` |
| ConnectionForm.EditWhileConnectingIsLocked | ClickHouse/frontend/src/components/data-ingestion/ClickHouseConfig.tsx:84-91 | the host input is still enabled while connecting, so a host typed then is locked although the gateway was sent the old one |
| ConnectionForm.FailedAttemptCanBeRetried | ClickHouse/frontend/src/components/data-ingestion/ClickHouseConfig.tsx:54-64 | a rejected or throwing connect calls `onConnected(false)` and returns the form to its editable, connectable state |
| PreviewHandler.CheckPreview | ClickHouse/frontend/src/components/data-ingestion/DataPreview.tsx:50-65 | the table check comes first and fails iff no table is selected; the column check fails iff the first table has no entry or an empty column list; on success the request is the first table with its columns |
| PreviewHandler.PreviewRun | ClickHouse/frontend/src/components/data-ingestion/DataPreview.tsx:49-85 | a refused preview only warns. An accepted one calls `onPreviewData` and then requests the first table. The rows reach `onDataFetched` unchanged, only when the gateway returned them, and last. Nothing else happens: two effects, or three with rows |
| PreviewHandler.PreviewGatewayCalls | ClickHouse/frontend/src/components/data-ingestion/DataPreview.tsx:50-74 | the gateway is asked exactly once, for the first table and its columns, when both checks pass, and never otherwise |
| PreviewHandler.PreviewIsNotCached | ClickHouse/frontend/src/components/data-ingestion/DataPreview.tsx:67-77 | two previews of an unchanged selection make the same request and each hands over its own rows |
| IngestionHandler.InitialPanelIsClean | ClickHouse/frontend/src/components/data-ingestion/DataPreview.tsx:45-47 | the panel starts with an empty target table, the export name `export.csv` (which raises no `.csv` advisory), and no cached upload path |
| IngestionHandler.NeedsUpload | ClickHouse/frontend/src/components/data-ingestion/DataPreview.tsx:116-118 | a run that passes the checks uploads exactly when the source is a file, a file is selected, and no path is cached; which file was uploaded before is not considered |
| IngestionHandler.CheckStart | ClickHouse/frontend/src/components/data-ingestion/DataPreview.tsx:88-109 | the three checks in order: no source table (database source), no source file (file source), no target table name (database target). Each fires iff the earlier ones pass and its own condition holds; the export name is never checked |
| IngestionHandler.JobFor | ClickHouse/frontend/src/components/data-ingestion/DataPreview.tsx:129-137 | the descriptor copies source, target, tables and columns. `filePath` is the cached path, else this run's upload path, else empty. Exactly one of `targetFile` and `targetTable` is present, matching the target kind, and carries the panel's input |
| IngestionHandler.AfterIngest | ClickHouse/frontend/src/components/data-ingestion/DataPreview.tsx:139-163 | what follows the ingest answer consists only of reports (a download offer, a completion) and never of a gateway request |
| IngestionHandler.AfterIngestReports | ClickHouse/frontend/src/components/data-ingestion/DataPreview.tsx:139-163 | a throwing ingest reports nothing. An answer reports completion with its record count, last and once. Before that comes a single download offer under the safe file name, exactly when the target is a file and a result path came back |
| IngestionHandler.StartRun | ClickHouse/frontend/src/components/data-ingestion/DataPreview.tsx:87-167 | a refused run only warns and changes nothing. An accepted run first calls `onStartIngestion`. The target inputs are untouched. The cached path changes only through a successful upload, to the returned path, and is never cleared |
| IngestionHandler.Dispatch | ClickHouse/frontend/src/components/data-ingestion/DataPreview.tsx:129-163 | from the ingest request on, a run makes that one gateway request, no upload, and exactly the reports of the ingest answer |
| IngestionHandler.RefusedRunCallsNothing | ClickHouse/frontend/src/components/data-ingestion/DataPreview.tsx:88-109 | a run refused by a check makes no gateway request |
| IngestionHandler.UploadThenIngestCalls | ClickHouse/frontend/src/components/data-ingestion/DataPreview.tsx:114-137 | a successful upload is requested first, then the ingest with the returned path |
| IngestionHandler.FailedUploadCalls | ClickHouse/frontend/src/components/data-ingestion/DataPreview.tsx:119-125 | an unsuccessful or throwing upload ends the run: no ingest request |
| IngestionHandler.DirectRunCalls | ClickHouse/frontend/src/components/data-ingestion/DataPreview.tsx:116-137 | a run that needs no upload sends only the ingest request, with the cached path or none |
| IngestionHandler.StartGatewayCalls | ClickHouse/frontend/src/components/data-ingestion/DataPreview.tsx:87-137 | the gateway requests of every run: none when refused; an upload exactly when the source is a file and nothing is cached; the ingest request exactly when no upload failed, after the upload and with its path |
| IngestionHandler.RefusedRunReportsNothing | ClickHouse/frontend/src/components/data-ingestion/DataPreview.tsx:88-109 | a refused run offers no download and reports no completion |
| IngestionHandler.UploadingRunReports | ClickHouse/frontend/src/components/data-ingestion/DataPreview.tsx:116-163 | a run that uploads reports what the ingest answer reports if the upload succeeded, and nothing if it failed |
| IngestionHandler.StartReports | ClickHouse/frontend/src/components/data-ingestion/DataPreview.tsx:113-166 | a run's reports are exactly those of the ingest answer when it reaches `ingestData`, and none otherwise |
| IngestionHandler.DownloadOffer | ClickHouse/frontend/src/components/data-ingestion/DataPreview.tsx:144-159 | a download is offered only by a run that reached `ingestData` for a file target and got a result path, at most once, under the safe name. Every such run offers it, just before the completion |
| IngestionHandler.CompletionReported | ClickHouse/frontend/src/components/data-ingestion/DataPreview.tsx:161-163 | `onIngestionComplete` is called only by a run that reached `ingestData` and got an answer, once, last, with the gateway's count. Every such run calls it |
| IngestionHandler.CachedPathIsReused | ClickHouse/frontend/src/components/data-ingestion/DataPreview.tsx:116-134 | with a path cached, an accepted run uploads nothing, whatever file is selected, and sends the cached path |
| IngestionHandler.ExportNameNeverBlocks | ClickHouse/frontend/src/components/data-ingestion/DataPreview.tsx:103-137 | the export file name (for instance one without `.csv`) never changes whether a run is refused or dispatched, and is sent as typed |
| IngestionHandler.ExportResultIsOffered | ClickHouse/frontend/src/components/data-ingestion/DataPreview.tsx:144-163 | an export written to `/tmp/export.csv` is offered as `export.csv`, then completion is reported |
| IngestionHandler.DirectRunShape | ClickHouse/frontend/src/components/data-ingestion/DataPreview.tsx:111-163 | an accepted run without upload is the start notice, the ingest request, then the answer's reports |
| IngestionHandler.UploadedRunShape | ClickHouse/frontend/src/components/data-ingestion/DataPreview.tsx:111-163 | a run whose upload succeeds is exactly the start notice, the upload request, the ingest request with the returned path, then the answer's reports, and caches the path |
| IngestionHandler.FailedUploadRunShape | ClickHouse/frontend/src/components/data-ingestion/DataPreview.tsx:111-125 | a run whose upload fails is exactly the start notice and the upload request, and caches nothing |
| IngestionHandler.ExportScenario | ClickHouse/frontend/src/components/data-ingestion/DataPreview.tsx:87-163 | exporting one table to `export.csv` with the result at `/tmp/export.csv` gives the whole trace: start notice, ingest request without a file path, download offer of `export.csv`, completion |
| IngestionHandler.ImportScenario | ClickHouse/frontend/src/components/data-ingestion/DataPreview.tsx:114-137 | importing a file into `orders`: one upload, an ingest carrying the returned path and the table name; a throwing ingest ends the run without a completion, with the path cached |
| DataPanel.ActionLabel | ClickHouse/frontend/src/components/data-ingestion/DataPreview.tsx:242-248 | the start caption is `Processing...` iff loading, `Send to ClickHouse` iff file to database, `Export to CSV` iff database to file, and `Start Ingestion` iff source and target kinds agree |
| DataPanel.ButtonsFollowCaption | ClickHouse/frontend/src/components/data-ingestion/DataPreview.tsx:226-258 | the start and reset buttons are disabled exactly while the start caption reads `Processing...`, and the preview button exactly while it reads `Loading...` |
| DataPanel.Render | ClickHouse/frontend/src/components/data-ingestion/DataPreview.tsx:181-258 | the preview button exists iff the source is the database, with `Loading...`/`Preview Data`. Every button is disabled iff loading. Exactly one target input is shown, matching the target. The advisory accompanies the file input per the export name. The ingest hint is shown for a selected file going to the database |
| DataPanel.Step | ClickHouse/frontend/src/components/data-ingestion/DataPreview.tsx:181-258 | an edit reaches only the input rendered for the target kind and sets it to the typed value. An enabled preview or start button runs its handler. While loading, clicks do nothing. A preview never changes the panel and needs a database source. An enabled Reset always calls `onReset` and nothing else, keeping the cache. Only a successful upload from an empty cache fills it, and a filled cache is kept with no upload requested |
| DataPanel.NoUploadOnceCached | ClickHouse/frontend/src/components/data-ingestion/DataPreview.tsx:116-127 | with a cached path, a run requests no upload |
| DataPanel.CachedPathIsKeptForever | ClickHouse/frontend/src/components/data-ingestion/DataPreview.tsx:116-127 | over any session, a cached path is kept and no upload is ever requested again |
| DataPanel.LoadingIgnoresClicks | ClickHouse/frontend/src/components/data-ingestion/DataPreview.tsx:226-258 | a session of clicks while loading leaves the panel unchanged and has no effect at all |
| DataPanel.UploadHappensOnce | ClickHouse/frontend/src/components/data-ingestion/DataPreview.tsx:116-137 | after the first successful upload that returns a non-empty path, that path is cached for the rest of any session and no further upload is requested |

## Left out

- Toast texts and the toast library: the data panel's warnings are modelled as `Transfer.Warning` values and the connection form's as `ConnectionForm.MissingFieldsWarning`; the success toasts and the connection form's "Connection Failed" error toast are not modelled, and the download action is modelled as the `DownloadOffered` effect; `apiService.downloadFile` itself is not called by the handler.
- The gateway's internals (`apiService`, HTTP, the server): every call is represented by its possible answers, chosen by the caller of the model.
- React's asynchrony and re-rendering: a handler run is one atomic step; the stale closure value of `uploadedFilePath` inside a run is the panel's path at the start of the run, which is what `JobFor` uses.
- The optional callbacks `onDataFetched` and `onIngestionComplete` are treated as always supplied; `onConnected?.(…)` likewise.
- The ingest answer's `message` and the connect answer's `message` (`ConnectReply.message`) only feed toasts and are carried but unused; `result.records` is an unbounded integer.
- A JavaScript `undefined` result path or record count is not modelled: an absent result path is the empty string.
- Text.ToLower: lower-cases ASCII letters only, where `toLowerCase` maps all of Unicode; the `.csv` test only looks at ASCII characters.
- The `source` and `target` props are plain strings; only the selector's two values (`clickhouse`, `flatfile`) are modelled, as `Transfer.Kind`. An unset selection (the selector shows a placeholder) is not modelled.
- The `type` prop of the connection form only chooses a description text.
- The `previewData` prop (the rows displayed) and the preview table rendering are presentation only.
- FileUpload.tsx, SourceTargetSelector.tsx, StatusDisplay.tsx and the ui components are not part of this model: the selection and loading flag arrive as `Props`.
- The component has no failure state, no job-already-running error, and no reset of the cached path or of the connection lock; it has no progress computation and no invalidation of the cache on a new file. None of these is modelled.
- Overlapping runs are not modelled: a handler run is one atomic step. Whether `isLoading` is set during a run is up to the parent, which is not part of this model; if it is not, a second click can start a second run that also uploads.
- PreviewHandler.CheckPreview: object keys inherited from `Object.prototype` are not modelled. `selectedColumns` is a plain object, so a first table named, say, `constructor` or `__proto__` with no entry of its own passes the column check in the component; the model treats the selection as a map and warns.
