/** The "Start" handler of the data panel: three ordered checks, an upload
    when the source is a file and no upload path is cached, one
    `ingestData` request with a resolved descriptor, and, for a file target,
    a download offer under the part of the result path after its last `/`
    or `\`, or the whole path when that part is empty. */
module IngestionHandler {
  import opened Wrappers
  import opened Transfer
  import opened Filenames

  /** The panel's own state: the two target inputs and the cached upload
      path. An empty path stands for "nothing cached": the handler only
      tests the path for truthiness, which cannot tell `null` from `""`. */
  datatype Panel = Panel(targetTable: string, targetFile: string, uploadedPath: string)

  /** The panel as first rendered. */
  const InitialPanel := Panel("", "export.csv", "")

  /** The panel starts with no target table, an export name that raises no
      `.csv` advisory, and nothing cached. */
  lemma InitialPanelIsClean()
    ensures InitialPanel.targetTable == "" && InitialPanel.uploadedPath == ""
    ensures !CsvAdvisory(InitialPanel.targetFile)
  {
    DefaultExportNameHasNoAdvisory();
  }

  /** The three checks of `handleStartIngestion`, in order; `None` when all
      pass. The export file name is not checked. */
  function CheckStart(panel: Panel, props: Props): (r: Option<Warning>)
    ensures r == Some(NoSourceTable) <==> props.source == ClickHouse && |props.tables| == 0
    ensures r == Some(NoSourceFile) <==> props.source == FlatFile && props.file.None?
    ensures r == Some(NoTargetTable) <==>
              && (props.source == ClickHouse ==> |props.tables| > 0)
              && (props.source == FlatFile ==> props.file.Some?)
              && props.target == ClickHouse && panel.targetTable == ""
    ensures r.Some? ==> r.value in {NoSourceTable, NoSourceFile, NoTargetTable}
  {
    if props.source == ClickHouse && |props.tables| == 0 then Some(NoSourceTable)
    else if props.source == FlatFile && props.file.None? then Some(NoSourceFile)
    else if props.target == ClickHouse && panel.targetTable == "" then Some(NoTargetTable)
    else None
  }

  /** Whether a run that passes the checks uploads: a file source, a
      selected file, and no cached path. Which file was uploaded before is
      not considered. */
  predicate NeedsUpload(panel: Panel, props: Props)
  {
    props.source == FlatFile && props.file.Some? && panel.uploadedPath == ""
  }

  /** The descriptor sent to `ingestData`, where `uploaded` is the path this
      run's upload returned ("" when it did not upload). */
  function JobFor(panel: Panel, props: Props, uploaded: string): (j: Job)
    ensures j.source == props.source && j.target == props.target
    ensures j.tables == props.tables && j.columns == props.columns
    // the cached path wins, then this run's upload, then ""
    ensures panel.uploadedPath != "" ==> j.filePath == panel.uploadedPath
    ensures panel.uploadedPath == "" ==> j.filePath == uploaded
    // exactly one of the two target fields is present, matching the target
    ensures j.targetFile.Some? <==> props.target == FlatFile
    ensures j.targetTable.Some? <==> props.target == ClickHouse
    ensures j.targetFile.Some? != j.targetTable.Some?
    ensures j.targetFile.Some? ==> j.targetFile.value == panel.targetFile
    ensures j.targetTable.Some? ==> j.targetTable.value == panel.targetTable
  {
    Job(
      props.source,
      props.target,
      props.tables,
      props.columns,
      if panel.uploadedPath != "" then panel.uploadedPath else uploaded,
      if props.target == FlatFile then Some(panel.targetFile) else None,
      if props.target == ClickHouse then Some(panel.targetTable) else None)
  }

  /** The effects after `ingestData` answered: the download offer when the
      target is a file and a result path came back, then the completion. */
  function AfterIngest(props: Props, outcome: IngestOutcome): (es: seq<Effect>)
    ensures forall i :: 0 <= i < |es| ==> IsReport(es[i]) && !IsGatewayCall(es[i])
  {
    match outcome
    case IngestThrew => []
    case Ingested(_, records, resultPath) =>
      (if props.target == FlatFile && resultPath != ""
       then [DownloadOffered(SafeFilename(resultPath))]
       else [])
      + [IngestionCompleted(records)]
  }

  /** The reports of an ingest answer: nothing when `ingestData` threw;
      otherwise the completion with the gateway's count, last and once, and
      before it the download offer under the name derived from the result
      path, exactly when the target is a file and a path came back. */
  lemma AfterIngestReports(props: Props, outcome: IngestOutcome)
    ensures var es := AfterIngest(props, outcome);
      && (outcome.IngestThrew? ==> es == [])
      && (outcome.Ingested? ==> |es| >= 1 && es[|es| - 1] == IngestionCompleted(outcome.records))
      && (forall i :: 0 <= i < |es| - 1 ==> !es[i].IngestionCompleted?)
      && (forall i :: 0 <= i < |es| && es[i].DownloadOffered? ==>
            && i == 0
            && props.target == FlatFile
            && outcome.Ingested? && outcome.resultPath != ""
            && es[i].filename == SafeFilename(outcome.resultPath))
      && (props.target == FlatFile && outcome.Ingested? && outcome.resultPath != "" ==>
            es == [DownloadOffered(SafeFilename(outcome.resultPath)), IngestionCompleted(outcome.records)])
  {
  }

  /** Whether a run gets as far as `ingestData`: the checks pass and any
      upload it makes succeeds. */
  predicate Dispatches(panel: Panel, props: Props, upload: UploadOutcome)
  {
    CheckStart(panel, props).None? && (!NeedsUpload(panel, props) || upload.Uploaded?)
  }

  /** One run of `handleStartIngestion`, the gateway answering `upload` to
      an upload and `ingest` to the ingest request. Returns the panel after
      the run and the run's effects. */
  function StartRun(panel: Panel, props: Props, upload: UploadOutcome, ingest: IngestOutcome): (r: (Panel, seq<Effect>))
    // a refused run only warns and changes nothing
    ensures CheckStart(panel, props).Some? ==>
              r == (panel, [Warned(CheckStart(panel, props).value)])
    // an accepted run first tells the parent
    ensures CheckStart(panel, props).None? ==> |r.1| >= 1 && r.1[0] == StartNotified
    // the target inputs are untouched; the cache changes only by a
    // successful upload, to the path it returned, and is never cleared
    ensures r.0.targetTable == panel.targetTable && r.0.targetFile == panel.targetFile
    ensures r.0.uploadedPath != panel.uploadedPath ==>
              NeedsUpload(panel, props) && CheckStart(panel, props).None? &&
              upload == Uploaded(r.0.uploadedPath)
    ensures panel.uploadedPath != "" ==> r.0.uploadedPath == panel.uploadedPath
  {
    match CheckStart(panel, props)
    case Some(w) => (panel, [Warned(w)])
    case None =>
      if NeedsUpload(panel, props) then
        var asked := [StartNotified] + [UploadRequested(props.file.value)];
        match upload
        case Uploaded(path) => (panel.(uploadedPath := path), asked + Dispatch(panel, props, path, ingest))
        case _ => (panel, asked)
      else
        (panel, [StartNotified] + Dispatch(panel, props, "", ingest))
  }

  /** The part of a run from the `ingestData` request on: the request, then
      the reports of its answer. */
  function Dispatch(panel: Panel, props: Props, uploaded: string, ingest: IngestOutcome): (es: seq<Effect>)
    ensures GatewayCalls(es) == [IngestRequested(JobFor(panel, props, uploaded))]
    ensures Reports(es) == AfterIngest(props, ingest)
    ensures forall i :: 0 <= i < |es| ==> !es[i].UploadRequested?
  {
    var call := IngestRequested(JobFor(panel, props, uploaded));
    var tail := AfterIngest(props, ingest);
    OnlyNone(tail, IsGatewayCall);
    OnlyCons(call, tail, IsGatewayCall);
    OnlyAll(tail, IsReport);
    OnlyCons(call, tail, IsReport);
    [call] + tail
  }

  /** A refused run makes no gateway request. */
  lemma RefusedRunCallsNothing(panel: Panel, props: Props, upload: UploadOutcome, ingest: IngestOutcome)
    requires CheckStart(panel, props).Some?
    ensures GatewayCalls(StartRun(panel, props, upload, ingest).1) == []
  {
    var w := CheckStart(panel, props).value;
    OnlyCons(Warned(w), [], IsGatewayCall);
  }

  /** A run whose upload succeeds asks for the upload first, then for the
      ingest with the path the upload returned. */
  lemma UploadThenIngestCalls(panel: Panel, props: Props, path: string, ingest: IngestOutcome)
    requires CheckStart(panel, props).None? && NeedsUpload(panel, props)
    ensures GatewayCalls(StartRun(panel, props, Uploaded(path), ingest).1)
         == [UploadRequested(props.file.value), IngestRequested(JobFor(panel, props, path))]
  {
    var up := UploadRequested(props.file.value);
    var rest := Dispatch(panel, props, path, ingest);
    assert StartRun(panel, props, Uploaded(path), ingest).1 == [StartNotified] + ([up] + rest);
    OnlyCons(up, rest, IsGatewayCall);
    OnlyCons(StartNotified, [up] + rest, IsGatewayCall);
  }

  /** A run whose upload fails stops after asking for it: no ingest. */
  lemma FailedUploadCalls(panel: Panel, props: Props, upload: UploadOutcome, ingest: IngestOutcome)
    requires CheckStart(panel, props).None? && NeedsUpload(panel, props) && !upload.Uploaded?
    ensures GatewayCalls(StartRun(panel, props, upload, ingest).1) == [UploadRequested(props.file.value)]
  {
    var up := UploadRequested(props.file.value);
    assert StartRun(panel, props, upload, ingest).1 == [StartNotified] + ([up] + []);
    OnlyCons(up, [], IsGatewayCall);
    OnlyCons(StartNotified, [up], IsGatewayCall);
  }

  /** A run that does not upload asks only for the ingest, with the cached
      path or none. */
  lemma DirectRunCalls(panel: Panel, props: Props, upload: UploadOutcome, ingest: IngestOutcome)
    requires CheckStart(panel, props).None? && !NeedsUpload(panel, props)
    ensures GatewayCalls(StartRun(panel, props, upload, ingest).1) == [IngestRequested(JobFor(panel, props, ""))]
  {
    OnlyCons(StartNotified, Dispatch(panel, props, "", ingest), IsGatewayCall);
  }

  /** The gateway requests of a run: none when a check fails; otherwise an
      upload exactly when one is needed, and the ingest request exactly when
      no upload failed, after the upload and with the path it returned. */
  lemma StartGatewayCalls(panel: Panel, props: Props, upload: UploadOutcome, ingest: IngestOutcome)
    ensures var calls := GatewayCalls(StartRun(panel, props, upload, ingest).1);
      && (CheckStart(panel, props).Some? ==> calls == [])
      && (CheckStart(panel, props).None? && NeedsUpload(panel, props) && upload.Uploaded? ==>
            calls == [UploadRequested(props.file.value), IngestRequested(JobFor(panel, props, upload.path))])
      && (CheckStart(panel, props).None? && NeedsUpload(panel, props) && !upload.Uploaded? ==>
            calls == [UploadRequested(props.file.value)])
      && (CheckStart(panel, props).None? && !NeedsUpload(panel, props) ==>
            calls == [IngestRequested(JobFor(panel, props, ""))])
  {
    if CheckStart(panel, props).Some? {
      RefusedRunCallsNothing(panel, props, upload, ingest);
    } else if NeedsUpload(panel, props) {
      if upload.Uploaded? {
        UploadThenIngestCalls(panel, props, upload.path, ingest);
      } else {
        FailedUploadCalls(panel, props, upload, ingest);
      }
    } else {
      DirectRunCalls(panel, props, upload, ingest);
    }
  }

  /** A refused run reports nothing. */
  lemma RefusedRunReportsNothing(panel: Panel, props: Props, upload: UploadOutcome, ingest: IngestOutcome)
    requires CheckStart(panel, props).Some?
    ensures Reports(StartRun(panel, props, upload, ingest).1) == []
  {
    OnlyCons(Warned(CheckStart(panel, props).value), [], IsReport);
  }

  /** A run that uploads reports what the ingest answer reports when the
      upload succeeds, and nothing when it fails. */
  lemma UploadingRunReports(panel: Panel, props: Props, upload: UploadOutcome, ingest: IngestOutcome)
    requires CheckStart(panel, props).None? && NeedsUpload(panel, props)
    ensures Reports(StartRun(panel, props, upload, ingest).1)
         == (if upload.Uploaded? then AfterIngest(props, ingest) else [])
  {
    var up := UploadRequested(props.file.value);
    if upload.Uploaded? {
      var rest := Dispatch(panel, props, upload.path, ingest);
      assert StartRun(panel, props, upload, ingest).1 == [StartNotified] + ([up] + rest);
      OnlyCons(up, rest, IsReport);
      OnlyCons(StartNotified, [up] + rest, IsReport);
    } else {
      assert StartRun(panel, props, upload, ingest).1 == [StartNotified] + ([up] + []);
      OnlyCons(up, [], IsReport);
      OnlyCons(StartNotified, [up], IsReport);
    }
  }

  /** The outcome reports of a run are exactly those of the ingest answer
      when the run reaches `ingestData`, and there are none otherwise: no
      download offer and no completion after a refused run or a failed
      upload. */
  lemma StartReports(panel: Panel, props: Props, upload: UploadOutcome, ingest: IngestOutcome)
    ensures Reports(StartRun(panel, props, upload, ingest).1)
         == (if Dispatches(panel, props, upload) then AfterIngest(props, ingest) else [])
  {
    if CheckStart(panel, props).Some? {
      RefusedRunReportsNothing(panel, props, upload, ingest);
    } else if NeedsUpload(panel, props) {
      UploadingRunReports(panel, props, upload, ingest);
    } else {
      OnlyCons(StartNotified, Dispatch(panel, props, "", ingest), IsReport);
    }
  }

  /** The download offer: made only by a run that reached `ingestData` for
      a file target and got a non-empty result path back, at most once, and
      under the name derived from that path; and such a run always makes
      it, before reporting completion. */
  lemma DownloadOffer(panel: Panel, props: Props, upload: UploadOutcome, ingest: IngestOutcome)
    ensures var reports := Reports(StartRun(panel, props, upload, ingest).1);
      && (forall i :: 0 <= i < |reports| && reports[i].DownloadOffered? ==>
            && i == 0
            && Dispatches(panel, props, upload)
            && props.target == FlatFile
            && ingest.Ingested? && ingest.resultPath != ""
            && reports[i].filename == SafeFilename(ingest.resultPath))
      && (Dispatches(panel, props, upload) && props.target == FlatFile &&
          ingest.Ingested? && ingest.resultPath != "" ==>
            reports == [DownloadOffered(SafeFilename(ingest.resultPath)), IngestionCompleted(ingest.records)])
  {
    StartReports(panel, props, upload, ingest);
    AfterIngestReports(props, ingest);
  }

  /** Completion is reported only by a run that reached `ingestData` and got
      an answer, once, as the last report and with the gateway's count; and
      such a run always reports it. */
  lemma CompletionReported(panel: Panel, props: Props, upload: UploadOutcome, ingest: IngestOutcome)
    ensures var reports := Reports(StartRun(panel, props, upload, ingest).1);
      && (forall i :: 0 <= i < |reports| && reports[i].IngestionCompleted? ==>
            && i == |reports| - 1
            && Dispatches(panel, props, upload) && ingest.Ingested?
            && reports[i].records == ingest.records)
      && (Dispatches(panel, props, upload) && ingest.Ingested? ==>
            |reports| >= 1 && reports[|reports| - 1] == IngestionCompleted(ingest.records))
  {
    StartReports(panel, props, upload, ingest);
    AfterIngestReports(props, ingest);
  }

  /** The cached path is sticky and stale: once set, a run with a file
      source reuses it without uploading, even when a different file is
      selected now. */
  lemma CachedPathIsReused(panel: Panel, props: Props, upload: UploadOutcome, ingest: IngestOutcome)
    requires panel.uploadedPath != ""
    requires CheckStart(panel, props).None?
    ensures var (panel', es) := StartRun(panel, props, upload, ingest);
      && panel' == panel
      && GatewayCalls(es) == [IngestRequested(JobFor(panel, props, ""))]
      && JobFor(panel, props, "").filePath == panel.uploadedPath
  {
    StartGatewayCalls(panel, props, upload, ingest);
  }

  /** The export file name never blocks a run: whatever name is typed, the
      run is refused or accepted as with any other name, and an accepted
      run that does not upload sends the typed name to the gateway. */
  lemma ExportNameNeverBlocks(panel: Panel, props: Props, name: string, upload: UploadOutcome, ingest: IngestOutcome)
    requires props.target == FlatFile
    ensures CheckStart(panel.(targetFile := name), props) == CheckStart(panel, props)
    ensures Dispatches(panel.(targetFile := name), props, upload) == Dispatches(panel, props, upload)
    ensures CheckStart(panel, props).None? && !NeedsUpload(panel, props) ==>
              GatewayCalls(StartRun(panel.(targetFile := name), props, upload, ingest).1)
                == [IngestRequested(JobFor(panel.(targetFile := name), props, ""))]
    ensures JobFor(panel.(targetFile := name), props, "").targetFile == Some(name)
  {
    if CheckStart(panel, props).None? && !NeedsUpload(panel, props) {
      DirectRunCalls(panel.(targetFile := name), props, upload, ingest);
    }
  }

  /** An export whose result lands in `/tmp/export.csv` is offered for
      download as `export.csv`, before the completion is reported. */
  lemma ExportResultIsOffered(props: Props, records: int)
    requires props.target == FlatFile
    ensures AfterIngest(props, Ingested("", records, "/tmp/export.csv"))
         == [DownloadOffered("export.csv"), IngestionCompleted(records)]
  {
    SafeFilenameOfUnixPath();
  }

  /** An accepted run that does not upload is the start notice followed by
      the ingest request and its reports. */
  lemma DirectRunShape(panel: Panel, props: Props, upload: UploadOutcome, ingest: IngestOutcome)
    requires CheckStart(panel, props).None? && !NeedsUpload(panel, props)
    ensures StartRun(panel, props, upload, ingest)
         == (panel, [StartNotified, IngestRequested(JobFor(panel, props, ""))] + AfterIngest(props, ingest))
  {
    assert [StartNotified] + ([IngestRequested(JobFor(panel, props, ""))] + AfterIngest(props, ingest))
        == [StartNotified, IngestRequested(JobFor(panel, props, ""))] + AfterIngest(props, ingest);
  }

  /** A run whose upload succeeds is the start notice, the upload request,
      the ingest request with the returned path, then the answer's reports;
      the returned path is cached. */
  lemma UploadedRunShape(panel: Panel, props: Props, path: string, ingest: IngestOutcome)
    requires CheckStart(panel, props).None? && NeedsUpload(panel, props)
    ensures StartRun(panel, props, Uploaded(path), ingest)
         == (panel.(uploadedPath := path),
             [StartNotified, UploadRequested(props.file.value), IngestRequested(JobFor(panel, props, path))]
             + AfterIngest(props, ingest))
  {
    var up := UploadRequested(props.file.value);
    var call := IngestRequested(JobFor(panel, props, path));
    assert [StartNotified] + [up] + ([call] + AfterIngest(props, ingest))
        == [StartNotified, up, call] + AfterIngest(props, ingest);
  }

  /** A run whose upload fails is the start notice and the upload request,
      nothing more, and caches nothing. */
  lemma FailedUploadRunShape(panel: Panel, props: Props, upload: UploadOutcome, ingest: IngestOutcome)
    requires CheckStart(panel, props).None? && NeedsUpload(panel, props) && !upload.Uploaded?
    ensures StartRun(panel, props, upload, ingest) == (panel, [StartNotified, UploadRequested(props.file.value)])
  {
    assert [StartNotified] + [UploadRequested(props.file.value)] == [StartNotified, UploadRequested(props.file.value)];
  }

  /** Export from the database: one table with its selected columns to
      `export.csv`; the gateway reports the records written to
      `/tmp/export.csv`, and the panel offers `export.csv` for download. */
  lemma ExportScenario(table: string, columns: seq<string>, records: int)
    ensures var props := Props(false, ClickHouse, FlatFile, [table], map[table := columns], None);
      var job := Job(ClickHouse, FlatFile, [table], map[table := columns], "", Some("export.csv"), None);
      StartRun(InitialPanel, props, UploadThrew, Ingested("", records, "/tmp/export.csv"))
        == (InitialPanel, [StartNotified, IngestRequested(job), DownloadOffered("export.csv"), IngestionCompleted(records)])
  {
    var props := Props(false, ClickHouse, FlatFile, [table], map[table := columns], None);
    var job := Job(ClickHouse, FlatFile, [table], map[table := columns], "", Some("export.csv"), None);
    var outcome := Ingested("", records, "/tmp/export.csv");
    DirectRunShape(InitialPanel, props, UploadThrew, outcome);
    ExportResultIsOffered(props, records);
    assert JobFor(InitialPanel, props, "") == job;
    assert [StartNotified, IngestRequested(job)] + [DownloadOffered("export.csv"), IngestionCompleted(records)]
        == [StartNotified, IngestRequested(job), DownloadOffered("export.csv"), IngestionCompleted(records)];
  }

  /** Import from a file into `orders`: the file is uploaded once, the
      ingest request carries the returned path, and a failing ingest ends
      the run without a completion. */
  lemma ImportScenario(f: FileRef, path: string)
    requires path != ""
    ensures var props := Props(false, FlatFile, ClickHouse, [], map[], Some(f));
      var panel := InitialPanel.(targetTable := "orders");
      var job := Job(FlatFile, ClickHouse, [], map[], path, None, Some("orders"));
      StartRun(panel, props, Uploaded(path), IngestThrew)
        == (panel.(uploadedPath := path), [StartNotified, UploadRequested(f), IngestRequested(job)])
  {
    var props := Props(false, FlatFile, ClickHouse, [], map[], Some(f));
    var panel := InitialPanel.(targetTable := "orders");
    var job := Job(FlatFile, ClickHouse, [], map[], path, None, Some("orders"));
    assert Dispatch(panel, props, path, IngestThrew) == [IngestRequested(job)] by {
      assert JobFor(panel, props, path) == job;
      assert AfterIngest(props, IngestThrew) == [];
    }
    assert StartRun(panel, props, Uploaded(path), IngestThrew)
        == (panel.(uploadedPath := path), [StartNotified] + [UploadRequested(f)] + Dispatch(panel, props, path, IngestThrew)) by {
      assert CheckStart(panel, props).None?;
      assert NeedsUpload(panel, props);
    }
    assert [StartNotified] + [UploadRequested(f)] + [IngestRequested(job)]
        == [StartNotified, UploadRequested(f), IngestRequested(job)];
  }
}
