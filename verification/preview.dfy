/** The "Preview Data" handler: two ordered checks on the selection, then
    one `previewData` request for the first selected table only. */
module PreviewHandler {
  import opened Wrappers
  import opened Transfer

  /** The request a preview makes: one table and its selected columns. */
  datatype PreviewRequest = PreviewRequest(table: string, columns: seq<string>)

  /** The two checks of `handlePreviewData`, the table check first. */
  function CheckPreview(tables: seq<string>, columns: map<string, seq<string>>): (r: Result<PreviewRequest, Warning>)
    ensures r == Failure(NoTableToPreview) <==> |tables| == 0
    ensures r == Failure(NoColumnToPreview) <==>
              |tables| > 0 && (tables[0] !in columns || |columns[tables[0]]| == 0)
    ensures r.Failure? ==> r.error == NoTableToPreview || r.error == NoColumnToPreview
    ensures r.Success? ==>
              && r.value.table == tables[0]
              && r.value.table in columns
              && r.value.columns == columns[r.value.table]
              && |r.value.columns| > 0
  {
    if |tables| == 0 then Failure(NoTableToPreview)
    else if tables[0] !in columns || |columns[tables[0]]| == 0 then Failure(NoColumnToPreview)
    else Success(PreviewRequest(tables[0], columns[tables[0]]))
  }

  /** One run of `handlePreviewData` with the gateway answering `outcome`. */
  function PreviewRun(props: Props, outcome: PreviewOutcome): (es: seq<Effect>)
    // a refused preview only warns: no callback, no gateway request
    ensures CheckPreview(props.tables, props.columns).Failure? ==>
              es == [Warned(CheckPreview(props.tables, props.columns).error)]
    // an accepted preview tells the parent first, then asks for the first table
    ensures CheckPreview(props.tables, props.columns).Success? ==>
              && |es| >= 2
              && es[0] == PreviewNotified
              && es[1] == PreviewRequested(props.tables[0], props.columns[props.tables[0]])
    // the rows reach the parent unchanged, and only when the gateway returned them
    ensures forall i :: 0 <= i < |es| && es[i].DataFetched? ==>
              outcome == PreviewRows(es[i].rows) && i == |es| - 1
    ensures CheckPreview(props.tables, props.columns).Success? && outcome.PreviewRows? ==>
              es[|es| - 1] == DataFetched(outcome.rows)
    // and nothing else happens: the notice, the request, and the rows if any
    ensures CheckPreview(props.tables, props.columns).Success? ==>
              |es| == (if outcome.PreviewRows? then 3 else 2)
  {
    match CheckPreview(props.tables, props.columns)
    case Failure(w) => [Warned(w)]
    case Success(req) =>
      var asked := [PreviewNotified, PreviewRequested(req.table, req.columns)];
      match outcome
      case PreviewRows(rows) => asked + [DataFetched(rows)]
      case PreviewThrew => asked
  }

  /** The gateway is asked exactly once, for the first selected table, when
      both checks pass, and never otherwise. */
  lemma PreviewGatewayCalls(props: Props, outcome: PreviewOutcome)
    ensures var calls := GatewayCalls(PreviewRun(props, outcome));
      && (CheckPreview(props.tables, props.columns).Failure? ==> calls == [])
      && (CheckPreview(props.tables, props.columns).Success? ==>
            calls == [PreviewRequested(props.tables[0], props.columns[props.tables[0]])])
  {
    match CheckPreview(props.tables, props.columns)
    case Failure(w) =>
      OnlyCons(Warned(w), [], IsGatewayCall);
    case Success(req) =>
      var call := PreviewRequested(req.table, req.columns);
      var tail := if outcome.PreviewRows? then [DataFetched(outcome.rows)] else [];
      OnlyNone(tail, IsGatewayCall);
      assert PreviewRun(props, outcome) == [PreviewNotified] + ([call] + tail);
      OnlyCons(call, tail, IsGatewayCall);
      OnlyCons(PreviewNotified, [call] + tail, IsGatewayCall);
  }

  /** The preview keeps no cache: two runs on an unchanged selection make
      the same request twice and hand over whatever the gateway returned
      each time. */
  lemma PreviewIsNotCached(props: Props, first: seq<Row>, second: seq<Row>)
    requires CheckPreview(props.tables, props.columns).Success?
    ensures var run1 := PreviewRun(props, PreviewRows(first));
      var run2 := PreviewRun(props, PreviewRows(second));
      && run1[1] == run2[1]
      && run1[|run1| - 1] == DataFetched(first)
      && run2[|run2| - 1] == DataFetched(second)
  {
  }
}
