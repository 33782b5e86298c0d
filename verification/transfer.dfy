/** The vocabulary shared by the preview and ingestion handlers of the data
    panel: what the parent component passes in, what the handlers ask of
    the transfer gateway, what the gateway can answer, and the effects a
    handler run has outside the panel. */
module Transfer {
  import opened Wrappers

  /** The two kinds of source and target the selector offers
      (`"clickhouse"` and `"flatfile"`). */
  datatype Kind = ClickHouse | FlatFile

  /** A locally chosen file. `identity` tells apart two files that share a
      name and size, as two distinct `File` objects would be. */
  datatype FileRef = FileRef(name: string, size: nat, identity: nat)

  /** One preview row: column name to value. */
  type Row = map<string, string>

  /** The panel's inputs from its parent: the loading flag, the two kinds,
      the selected tables in order, the selected columns per table, and the
      selected file if any. */
  datatype Props = Props(
    isLoading: bool,
    source: Kind,
    target: Kind,
    tables: seq<string>,
    columns: map<string, seq<string>>,
    file: Option<FileRef>)

  /** The warnings a handler shows when it refuses to run. */
  datatype Warning =
    | NoTableToPreview
    | NoColumnToPreview
    | NoSourceTable
    | NoSourceFile
    | NoTargetTable

  /** The descriptor passed to `ingestData`. `targetFile` and `targetTable`
      are `None` where the source leaves them `undefined`. */
  datatype Job = Job(
    source: Kind,
    target: Kind,
    tables: seq<string>,
    columns: map<string, seq<string>>,
    filePath: string,
    targetFile: Option<string>,
    targetTable: Option<string>)

  /** What `previewData` can do: return rows, or throw. */
  datatype PreviewOutcome = PreviewRows(rows: seq<Row>) | PreviewThrew

  /** What `uploadFile` can do: succeed with a server path, answer
      `success = false`, or throw. */
  datatype UploadOutcome = Uploaded(path: string) | UploadUnsuccessful | UploadThrew

  /** What `ingestData` can do: answer with a message, a record count and a
      result path (empty when there is none), or throw. */
  datatype IngestOutcome = Ingested(message: string, records: int, resultPath: string) | IngestThrew

  /** The effects of a handler run, in the order they happen. */
  datatype Effect =
    | Warned(warning: Warning)
    | PreviewNotified                                          // onPreviewData()
    | PreviewRequested(table: string, previewColumns: seq<string>)   // previewData
    | DataFetched(rows: seq<Row>)                              // onDataFetched(rows)
    | StartNotified                                            // onStartIngestion()
    | UploadRequested(file: FileRef)                           // uploadFile
    | IngestRequested(job: Job)                                // ingestData
    | DownloadOffered(filename: string)                        // the "Download" action
    | IngestionCompleted(records: int)                         // onIngestionComplete
    | ResetRequested                                           // onReset()

  /** The effects that are requests to the gateway. */
  predicate IsGatewayCall(e: Effect)
  {
    e.PreviewRequested? || e.UploadRequested? || e.IngestRequested?
  }

  /** The effects that report a run's outcome to the user or the parent. */
  predicate IsReport(e: Effect)
  {
    e.DownloadOffered? || e.IngestionCompleted?
  }

  /** The effects of a trace that `keep` selects, in order. */
  function Only(es: seq<Effect>, keep: Effect -> bool): (kept: seq<Effect>)
    ensures |kept| <= |es|
    decreases |es|
  {
    if |es| == 0 then []
    else (if keep(es[0]) then [es[0]] else []) + Only(es[1..], keep)
  }

  /** The gateway requests of a trace, in order. */
  function GatewayCalls(es: seq<Effect>): seq<Effect>
  {
    Only(es, IsGatewayCall)
  }

  /** The outcome reports of a trace, in order. */
  function Reports(es: seq<Effect>): seq<Effect>
  {
    Only(es, IsReport)
  }

  /** Selecting from a trace that starts with `e`. */
  lemma OnlyCons(e: Effect, rest: seq<Effect>, keep: Effect -> bool)
    ensures Only([e] + rest, keep) == (if keep(e) then [e] else []) + Only(rest, keep)
  {
    assert ([e] + rest)[1..] == rest;
  }

  /** Nothing is selected from a trace without a selected effect. */
  lemma {:induction false} OnlyNone(es: seq<Effect>, keep: Effect -> bool)
    requires forall i :: 0 <= i < |es| ==> !keep(es[i])
    ensures Only(es, keep) == []
    decreases |es|
  {
    if |es| > 0 {
      OnlyNone(es[1..], keep);
    }
  }

  /** Everything is selected from a trace of selected effects. */
  lemma {:induction false} OnlyAll(es: seq<Effect>, keep: Effect -> bool)
    requires forall i :: 0 <= i < |es| ==> keep(es[i])
    ensures Only(es, keep) == es
    decreases |es|
  {
    if |es| > 0 {
      OnlyAll(es[1..], keep);
      assert es == [es[0]] + es[1..];
    }
  }
}
