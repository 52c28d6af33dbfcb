/** The batch loop of the Markup AI node (`execute` in `nodes/Markupai/Markupai.node.ts`): one
    style request per input item, in order, one output record per item, and the whole batch
    given up on the first item that fails. What the service answers for item `i` is
    `servers[i]`; the report generator is an outside function that may throw. */
module MarkupAiNode {
  import opened Wrappers
  import opened Json
  import opened Errors
  import opened StyleApi
  import opened ReportCommon
  import opened ProcessItem
  import ApiTypes

  /** A record of the batch's output: the item's JSON and the index of its input item. */
  datatype OutputRecord = OutputRecord(json: Object, itemData: int)

  /** The `NodeApiError` the batch throws, wrapping the error of the failing item. */
  datatype NodeApiError = NodeApiError(cause: Error)

  /** The details the loop builds for an item: the same defaults as `processMarkupaiItem`, but
      the tone passed as it is, the sentinel included. */
  function ItemDetails(p: Parameters): (r: FormDataDetails)
    ensures r.tone == Some(p.tone)
    ensures r.content == p.content && r.styleGuide == p.styleGuide && r.dialect == p.dialect
    ensures r.documentName.None?
    ensures r.waitForCompletion == WaitForCompletion(p.additionalOptions)
    ensures r.pollingTimeout == PollingTimeout(p.additionalOptions)
  {
    FormDataDetails(p.content, p.dialect, Some(p.tone), p.styleGuide, None,
                    WaitForCompletion(p.additionalOptions), PollingTimeout(p.additionalOptions))
  }

  /** The loop keeps the sentinel tone that `processMarkupaiItem` leaves out; any other tone
      both send alike. */
  lemma SentinelOnlyFilteredPerItem(p: Parameters)
    ensures p.tone == NoneToneSentinel ==> BuildFormDataDetails(p).tone == None && ItemDetails(p).tone == Some(p.tone)
    ensures p.tone != NoneToneSentinel ==> BuildFormDataDetails(p) == ItemDetails(p)
  {
  }

  ghost predicate AllAdvance(servers: seq<Server>) {
    forall i | 0 <= i < |servers| :: ChecksAdvance(servers[i].clock)
  }

  /** One pass of the loop body for item `i`: it fails when the request fails or, for a caller
      who waits, when the report generator throws on the finished workflow. */
  function ExecuteItem(p: Parameters, i: int, server: Server, report: ReportGenerator)
    : (r: Result<OutputRecord, Error>)
    requires ChecksAdvance(server.clock)
    ensures r.Success? ==> r.value.itemData == i
    ensures var sr := StyleRequestResult(ItemDetails(p), i, server.posted, server.clock, server.bodies);
      r.Failure? <==>
        || sr.Failure?
        || (WaitForCompletion(p.additionalOptions) && report(sr.value[0].json, ExtendedInput(p.additionalOptions)).Failure?)
    ensures var sr := StyleRequestResult(ItemDetails(p), i, server.posted, server.clock, server.bodies);
      r.Failure? && sr.Success? ==> r.error == report(sr.value[0].json, ExtendedInput(p.additionalOptions)).error
  {
    var details := ItemDetails(p);
    match StyleRequestResult(details, i, server.posted, server.clock, server.bodies)
    case Failure(e) => Failure(e)
    case Success(result) =>
      var json := result[0].json;
      if details.waitForCompletion then
        match report(json, ExtendedInput(p.additionalOptions))
        case Failure(e) => Failure(e)
        case Success(page) => Success(OutputRecord(WithReport(json, page), i))
      else
        Success(OutputRecord(Spread(map[], json), i))
  }

  /** The loop over the first `n` items: the records of all of them, or the error of the first
      item that failed. */
  function RunPrefix(items: seq<Parameters>, servers: seq<Server>, report: ReportGenerator, n: nat)
    : (r: Result<seq<OutputRecord>, Error>)
    requires n <= |items| == |servers| && AllAdvance(servers)
    ensures r.Success? ==> |r.value| == n
    ensures r.Success? ==> forall k | 0 <= k < n :: ExecuteItem(items[k], k, servers[k], report) == Success(r.value[k])
    ensures r.Failure? ==> exists k | 0 <= k < n ::
      && ExecuteItem(items[k], k, servers[k], report) == Failure(r.error)
      && forall j | 0 <= j < k :: ExecuteItem(items[j], j, servers[j], report).Success?
  {
    if n == 0 then Success([])
    else
      match RunPrefix(items, servers, report, n - 1)
      case Failure(e) => Failure(e)
      case Success(out) =>
        match ExecuteItem(items[n - 1], n - 1, servers[n - 1], report)
        case Failure(e) => Failure(e)
        case Success(record) => Success(out + [record])
  }

  /** `execute`: the records of all items, or the first failure wrapped in a `NodeApiError`. */
  function Run(items: seq<Parameters>, servers: seq<Server>, report: ReportGenerator)
    : Result<seq<OutputRecord>, NodeApiError>
    requires |items| == |servers| && AllAdvance(servers)
  {
    match RunPrefix(items, servers, report, |items|)
    case Success(out) => Success(out)
    case Failure(e) => Failure(NodeApiError(e))
  }

  method Execute(items: seq<Parameters>, servers: seq<Server>, apiKey: string, baseUrl: string,
                 report: ReportGenerator)
    returns (r: Result<seq<OutputRecord>, NodeApiError>)
    requires |items| == |servers| && AllAdvance(servers)
    ensures r == Run(items, servers, report)
  {
    var returnData: seq<OutputRecord> := [];
    for i := 0 to |items|
      invariant RunPrefix(items, servers, report, i) == Success(returnData)
    {
      var details := ItemDetails(items[i]);
      var path := GetPath(items[i].operation);
      var result, sent := StyleRequest(details, path, i, apiKey, baseUrl, servers[i].posted, servers[i].clock, servers[i].bodies);
      if result.Failure? {
        FirstFailureIsFinal(items, servers, report, i);
        r := Failure(NodeApiError(result.error));
        return;
      }
      var json := result.value[0].json;
      var record;
      if details.waitForCompletion {
        var emailHTMLReport := report(json, ExtendedInput(items[i].additionalOptions));
        if emailHTMLReport.Failure? {
          FirstFailureIsFinal(items, servers, report, i);
          r := Failure(NodeApiError(emailHTMLReport.error));
          return;
        }
        record := OutputRecord(WithReport(json, emailHTMLReport.value), i);
      } else {
        record := OutputRecord(Spread(map[], json), i);
      }
      assert ExecuteItem(items[i], i, servers[i], report) == Success(record);
      returnData := returnData + [record];
    }
    r := Success(returnData);
  }

  /** Once item `i` fails after every earlier one succeeded, the batch ends with its error. */
  lemma FirstFailureIsFinal(items: seq<Parameters>, servers: seq<Server>, report: ReportGenerator, i: nat)
    requires i < |items| == |servers| && AllAdvance(servers)
    requires RunPrefix(items, servers, report, i).Success?
    requires ExecuteItem(items[i], i, servers[i], report).Failure?
    ensures RunPrefix(items, servers, report, |items|) == Failure(ExecuteItem(items[i], i, servers[i], report).error)
  {
    var whole := RunPrefix(items, servers, report, |items|);
    if whole.Failure? {
      var k :| 0 <= k < |items| && ExecuteItem(items[k], k, servers[k], report) == Failure(whole.error)
        && forall j | 0 <= j < k :: ExecuteItem(items[j], j, servers[j], report).Success?;
      assert k == i;
    }
  }

  /** A finished batch has one record per item, in input order, record `i` carrying index `i`. */
  lemma OneRecordPerItem(items: seq<Parameters>, servers: seq<Server>, report: ReportGenerator)
    requires |items| == |servers| && AllAdvance(servers)
    requires Run(items, servers, report).Success?
    ensures var out := Run(items, servers, report).value;
      |out| == |items| && forall i | 0 <= i < |items| :: out[i].itemData == i
  {
    var out := Run(items, servers, report).value;
    forall i | 0 <= i < |items| ensures out[i].itemData == i {
      assert ExecuteItem(items[i], i, servers[i], report) == Success(out[i]);
    }
  }

  /** The batch fails exactly when some item fails, and then with that item's error, no
      records at all. */
  lemma {:induction false} BatchSucceedsWhenEveryItemDoes(items: seq<Parameters>, servers: seq<Server>,
                                                           report: ReportGenerator, n: nat)
    requires n <= |items| == |servers| && AllAdvance(servers)
    ensures RunPrefix(items, servers, report, n).Success? <==>
      forall k | 0 <= k < n :: ExecuteItem(items[k], k, servers[k], report).Success?
  {
    if n > 0 {
      BatchSucceedsWhenEveryItemDoes(items, servers, report, n - 1);
    }
  }

  /** Run against the same answers, the batch loop and `processMarkupaiItem` (as meant to be
      called, and stopping on failure) agree on every item whose tone is not the sentinel:
      the same JSON, the same index, the same error text. */
  lemma BatchAgreesWithProcessItem(p: Parameters, i: int, server: Server, report: ReportGenerator)
    requires ChecksAdvance(server.clock)
    requires p.tone != NoneToneSentinel
    ensures var batch, single := ExecuteItem(p, i, server, report), ProcessMarkupaiItem(p, i, false, server, report);
      && batch.Success? == single.Success?
      && (batch.Success? ==> batch.value.json == single.value.json && batch.value.itemData == single.value.pairedItem)
      && (batch.Failure? ==> single.error == OperationError(Describe(batch.error), i))
  {
    SentinelOnlyFilteredPerItem(p);
  }

  /** An item whose workflow the POST reports running and the first poll reports completed,
      with no `workflow` object in either answer, reached after every earlier item succeeded:
      a report generator that throws on the unguarded reads ends the whole batch with its
      error, and no item's record comes out. */
  lemma CompletedWithoutWorkflowAbortsBatch(items: seq<Parameters>, servers: seq<Server>, report: ReportGenerator,
                                            i: nat, id: string)
    requires i < |items| == |servers| && AllAdvance(servers)
    requires RunPrefix(items, servers, report, i).Success?
    requires WaitForCompletion(items[i].additionalOptions)
    requires servers[i].posted == Success(map["status" := Str("running"), "workflow_id" := Str(id)])
    requires servers[i].clock(1) - servers[i].clock(0) <= PollingTimeout(items[i].additionalOptions)
    requires servers[i].bodies(0) == Success(map["status" := Str("completed")])
    requires forall json: Object, ext: ExtendedInputData | UnguardedReadThrows(json) :: report(json, ext).Failure?
    ensures Run(items, servers, report).Failure?
  {
    var initial, first := servers[i].posted.value, map["status" := Str("completed")];
    var finished := Overlay(initial, first);
    assert IsRunning(initial);
    assert HasStatus(finished, ApiTypes.Completed);
    CompletedOnFirstPoll(initial, PollingTimeout(items[i].additionalOptions), servers[i].clock, servers[i].bodies, first);
    assert "workflow" !in finished;
    assert UnguardedReadThrows(finished);
    assert ExecuteItem(items[i], i, servers[i], report).Failure?;
    FirstFailureIsFinal(items, servers, report, i);
  }
}
