/** The data panel as a whole: what it renders for a given state and
    inputs (which buttons exist, their captions, which are disabled, which
    inputs and notes are shown), and how user actions drive it through the
    preview and ingestion handlers. */
module DataPanel {
  import opened Wrappers
  import opened Text
  import opened Transfer
  import opened Filenames
  import opened PreviewHandler
  import opened IngestionHandler

  datatype Button = Button(caption: string, disabled: bool)

  /** The rendered controls. `previewButton` is `None` when it is not
      rendered; the booleans say whether an input or note is shown. */
  datatype View = View(
    previewButton: Option<Button>,
    actionButton: Button,
    resetButton: Button,
    targetTableInput: bool,
    targetFileInput: bool,
    csvAdvisory: bool,
    ingestHint: bool)

  /** The caption of the button that starts a run. */
  function ActionLabel(props: Props): (caption: string)
    ensures caption == "Processing..." <==> props.isLoading
    ensures caption == "Send to ClickHouse" <==>
              !props.isLoading && props.source == FlatFile && props.target == ClickHouse
    ensures caption == "Export to CSV" <==>
              !props.isLoading && props.source == ClickHouse && props.target == FlatFile
    ensures caption == "Start Ingestion" <==> !props.isLoading && props.source == props.target
  {
    assert "Processing..."[0] != "Start Ingestion"[0] && "Send to ClickHouse"[1] != "Start Ingestion"[1];
    if props.isLoading then "Processing..."
    else if props.source == FlatFile && props.target == ClickHouse then "Send to ClickHouse"
    else if props.source == ClickHouse && props.target == FlatFile then "Export to CSV"
    else
      assert props.source == props.target;
      "Start Ingestion"
  }

  /** The panel's controls for a state and inputs. */
  function Render(panel: Panel, props: Props): (v: View)
    // the preview button exists only for a database source
    ensures v.previewButton.Some? <==> props.source == ClickHouse
    ensures v.previewButton.Some? ==>
              v.previewButton.value.caption == (if props.isLoading then "Loading..." else "Preview Data")
    ensures v.actionButton.caption == ActionLabel(props) && v.resetButton.caption == "Reset"
    // every rendered button is disabled exactly while loading
    ensures v.previewButton.Some? ==> (v.previewButton.value.disabled <==> props.isLoading)
    ensures v.actionButton.disabled <==> props.isLoading
    ensures v.resetButton.disabled <==> props.isLoading
    // one target input, matching the target kind
    ensures v.targetTableInput <==> props.target == ClickHouse
    ensures v.targetFileInput <==> props.target == FlatFile
    ensures v.targetTableInput != v.targetFileInput
    // the advisory accompanies the file input and follows the export name
    ensures v.csvAdvisory <==> v.targetFileInput && CsvAdvisory(panel.targetFile)
    ensures v.ingestHint <==> v.targetTableInput && props.source == FlatFile && props.file.Some?
  {
    View(
      if props.source == ClickHouse
      then Some(Button(if props.isLoading then "Loading..." else "Preview Data", props.isLoading))
      else None,
      Button(ActionLabel(props), props.isLoading),
      Button("Reset", props.isLoading),
      props.target == ClickHouse,
      props.target == FlatFile,
      props.target == FlatFile && CsvAdvisory(panel.targetFile),
      props.target == ClickHouse && props.source == FlatFile && props.file.Some?)
  }

  /** The start button is disabled exactly while its caption reads
      `Processing...`, and so are the other rendered buttons. */
  lemma ButtonsFollowCaption(panel: Panel, props: Props)
    ensures var v := Render(panel, props);
      && (v.actionButton.disabled <==> ActionLabel(props) == "Processing...")
      && (v.resetButton.disabled <==> ActionLabel(props) == "Processing...")
      && (v.previewButton.Some? ==>
            (v.previewButton.value.disabled <==> v.previewButton.value.caption == "Loading..."))
  {
  }

  /** What a user can do to the panel; the gateway's answers for the
      handler a click starts travel with the click. */
  datatype Action =
    | EditTargetTable(tableName: string)
    | EditTargetFile(fileName: string)
    | ClickPreview(preview: PreviewOutcome)
    | ClickStart(upload: UploadOutcome, ingest: IngestOutcome)
    | ClickReset

  predicate IsClick(a: Action)
  {
    a.ClickPreview? || a.ClickStart? || a.ClickReset?
  }

  /** One action on the panel. A click reaches its handler only when its
      button is rendered and enabled, and an edit only a rendered input. */
  function Step(panel: Panel, props: Props, a: Action): (r: (Panel, seq<Effect>))
    // while loading, no click has any effect
    ensures props.isLoading && IsClick(a) ==> r == (panel, [])
    // a preview needs a database source, and never changes the panel
    ensures a.ClickPreview? ==> r.0 == panel
    ensures a.ClickPreview? && props.source == FlatFile ==> r.1 == []
    // reset only notifies the parent: the cached upload path survives it
    ensures a.ClickReset? ==> r == (panel, if props.isLoading then [] else [ResetRequested])
    // only a run can fill the cache, and once filled it is never cleared
    // and no upload is requested any more
    ensures r.0.uploadedPath != panel.uploadedPath ==>
              a.ClickStart? && a.upload == Uploaded(r.0.uploadedPath) && panel.uploadedPath == ""
    ensures panel.uploadedPath != "" ==>
              && r.0.uploadedPath == panel.uploadedPath
              && forall i :: 0 <= i < |r.1| ==> !r.1[i].UploadRequested?
    // an edit reaches only the input rendered for the target kind, sets it
    // to the typed value, and has no effect outside the panel
    ensures a.EditTargetTable? ==>
              r == (if props.target == ClickHouse then panel.(targetTable := a.tableName) else panel, [])
    ensures a.EditTargetFile? ==>
              r == (if props.target == FlatFile then panel.(targetFile := a.fileName) else panel, [])
    // an enabled button runs its handler
    ensures a.ClickPreview? && !props.isLoading && props.source == ClickHouse ==>
              r == (panel, PreviewRun(props, a.preview))
    ensures a.ClickStart? && !props.isLoading ==> r == StartRun(panel, props, a.upload, a.ingest)
  {
    var v := Render(panel, props);
    match a
    case EditTargetTable(x) =>
      if v.targetTableInput then (panel.(targetTable := x), []) else (panel, [])
    case EditTargetFile(x) =>
      if v.targetFileInput then (panel.(targetFile := x), []) else (panel, [])
    case ClickPreview(o) =>
      if v.previewButton.Some? && !v.previewButton.value.disabled then (panel, PreviewRun(props, o))
      else (panel, [])
    case ClickStart(u, i) =>
      if !v.actionButton.disabled then
        NoUploadOnceCached(panel, props, u, i);
        StartRun(panel, props, u, i)
      else (panel, [])
    case ClickReset =>
      if !v.resetButton.disabled then (panel, [ResetRequested]) else (panel, [])
  }

  /** With a cached path, a run requests no upload. */
  lemma NoUploadOnceCached(panel: Panel, props: Props, upload: UploadOutcome, ingest: IngestOutcome)
    ensures var es := StartRun(panel, props, upload, ingest).1;
      panel.uploadedPath != "" ==> forall i :: 0 <= i < |es| ==> !es[i].UploadRequested?
  {
    if CheckStart(panel, props).None? && panel.uploadedPath != "" {
      var rest := Dispatch(panel, props, "", ingest);
      assert StartRun(panel, props, upload, ingest).1 == [StartNotified] + rest;
    }
  }

  /** A session: each action taken with the inputs of its moment. Returns
      the final panel and every effect in order. */
  function Session(panel: Panel, moves: seq<(Props, Action)>): (Panel, seq<Effect>)
    decreases |moves|
  {
    if |moves| == 0 then (panel, [])
    else
      var first := Step(panel, moves[0].0, moves[0].1);
      var rest := Session(first.0, moves[1..]);
      (rest.0, first.1 + rest.1)
  }

  /** Upload memoisation over a whole session: once a path is cached, it is
      kept through any actions, whatever files are selected later, and no
      further upload is requested. */
  lemma {:induction false} CachedPathIsKeptForever(panel: Panel, moves: seq<(Props, Action)>)
    requires panel.uploadedPath != ""
    ensures Session(panel, moves).0.uploadedPath == panel.uploadedPath
    ensures var es := Session(panel, moves).1;
      forall i :: 0 <= i < |es| ==> !es[i].UploadRequested?
    decreases |moves|
  {
    if |moves| > 0 {
      var first := Step(panel, moves[0].0, moves[0].1);
      CachedPathIsKeptForever(first.0, moves[1..]);
    }
  }

  /** Loading locks the panel against clicks for a whole session: while the
      parent reports loading, clicks do nothing, so only edits of the target
      inputs can change the panel and nothing is requested. */
  lemma {:induction false} LoadingIgnoresClicks(panel: Panel, moves: seq<(Props, Action)>)
    requires forall k :: 0 <= k < |moves| ==> moves[k].0.isLoading && IsClick(moves[k].1)
    ensures Session(panel, moves) == (panel, [])
    decreases |moves|
  {
    if |moves| > 0 {
      var first := Step(panel, moves[0].0, moves[0].1);
      assert first == (panel, []);
      LoadingIgnoresClicks(panel, moves[1..]);
      var rest := Session(first.0, moves[1..]);
      assert rest == (panel, []);
      assert first.1 + rest.1 == [];
    }
  }

  /** The first successful upload with a non-empty path is the last upload
      of the session: the next run with the same or any other file reuses
      the path. */
  lemma UploadHappensOnce(panel: Panel, props: Props, path: string, ingest: IngestOutcome, later: seq<(Props, Action)>)
    requires NeedsUpload(panel, props) && CheckStart(panel, props).None? && !props.isLoading
    requires path != ""
    ensures var first := Step(panel, props, ClickStart(Uploaded(path), ingest));
      && first.0.uploadedPath == path
      && GatewayCalls(first.1) == [UploadRequested(props.file.value), IngestRequested(JobFor(panel, props, path))]
      && Session(first.0, later).0.uploadedPath == path
      && forall i :: 0 <= i < |Session(first.0, later).1| ==> !Session(first.0, later).1[i].UploadRequested?
  {
    StartGatewayCalls(panel, props, Uploaded(path), ingest);
    var first := Step(panel, props, ClickStart(Uploaded(path), ingest));
    CachedPathIsKeptForever(first.0, later);
  }
}
