/** Processing one input item of the Markup AI node (`nodes/Markupai/utils/process.item.ts`): the
    option defaults, the tone sentinel, the request to the style API, and the record or error
    the item ends with. The node parameters of the item are given as values; what the service
    answers for the item is a `Server`; the report generator is an outside function that either
    returns the page or throws. */
module ProcessItem {
  import opened Wrappers
  import opened Json
  import opened Errors
  import opened StyleApi
  import opened ReportCommon
  import ApiTypes
  import LoadOptions = MarkupAiLoadOptions

  /** The optional settings of an item; `None` is an option the user did not set. */
  datatype AdditionalOptions = AdditionalOptions(
    waitForCompletion: Option<bool>,
    pollingTimeout: Option<int>,
    documentName: Option<string>,
    documentOwner: Option<string>,
    documentLink: Option<string>)

  /** The node parameters of one item. */
  datatype Parameters = Parameters(
    operation: string,
    content: string,
    styleGuide: string,
    tone: string,
    dialect: string,
    additionalOptions: AdditionalOptions)

  /** The tone value that stands for "leave the tone alone"; it is compared case-sensitively. */
  const NoneToneSentinel := "None (keep tone unchanged)"

  const DefaultPollingTimeout := 60000

  /** `waitForCompletion ?? true`: only an option left unset becomes true; an explicit false stays. */
  function WaitForCompletion(o: AdditionalOptions): (r: bool)
    ensures !r <==> o.waitForCompletion == Some(false)
  {
    if o.waitForCompletion.Some? then o.waitForCompletion.value else true
  }

  /** `pollingTimeout || 60000`: an unset option and a 0 both become 60000. */
  function PollingTimeout(o: AdditionalOptions): (r: int)
    ensures r != 0
    ensures o.pollingTimeout.Some? && o.pollingTimeout.value != 0 ==> r == o.pollingTimeout.value
    ensures o.pollingTimeout.None? || o.pollingTimeout.value == 0 ==> r == DefaultPollingTimeout
  {
    if o.pollingTimeout.Some? && o.pollingTimeout.value != 0 then o.pollingTimeout.value else DefaultPollingTimeout
  }

  /** `buildFormDataDetails`: the tone is left out exactly when it is the sentinel; content,
      style guide and dialect pass through; no document name is ever set. */
  function BuildFormDataDetails(p: Parameters): (r: FormDataDetails)
    ensures r.content == p.content && r.styleGuide == p.styleGuide && r.dialect == p.dialect
    ensures r.tone.None? <==> p.tone == NoneToneSentinel
    ensures r.tone.Some? ==> r.tone.value == p.tone
    ensures r.documentName.None?
    ensures r.waitForCompletion == WaitForCompletion(p.additionalOptions)
    ensures r.pollingTimeout == PollingTimeout(p.additionalOptions)
  {
    FormDataDetails(
      p.content,
      p.dialect,
      if p.tone != NoneToneSentinel then Some(p.tone) else None,
      p.styleGuide,
      None,
      WaitForCompletion(p.additionalOptions),
      PollingTimeout(p.additionalOptions))
  }

  /** The "none" entry the tone drop-down offers differs from the sentinel in case, so choosing
      it sends it to the service as a tone. */
  lemma OfferedNoneToneIsSent(p: Parameters)
    requires p.tone == LoadOptions.NoneTone
    ensures BuildFormDataDetails(p).tone == Some(LoadOptions.NoneTone)
  {
    assert LoadOptions.NoneTone[6] != NoneToneSentinel[6];
  }

  function ExtendedInput(o: AdditionalOptions): ExtendedInputData {
    ExtendedInputData(o.documentName, o.documentOwner, o.documentLink)
  }

  /** What the service answers for one item: the POST, the clock and the status GETs. */
  datatype Server = Server(posted: Result<Object, Error>, clock: nat -> int, bodies: nat -> Result<Object, Error>)

  /** The record an item ends with, tied to its input item. */
  datatype NodeItem = NodeItem(json: Object, pairedItem: int)

  /** The `NodeOperationError` an item throws when the node does not continue on failure. */
  datatype OperationError = OperationError(description: string, itemIndex: int)

  /** The report generator: the page for a finished workflow and the document details, or the
      error it throws. */
  type ReportGenerator = (Object, ExtendedInputData) -> Result<string, Error>

  /** JavaScript's `v == null`: a property that is not there, or a JSON null. */
  predicate Nullish(v: Option<Value>) {
    v.None? || v.value.Null?
  }

  /** `v.key` on a value that is not null: only an object has the properties read here. */
  function Property(v: Value, key: string): (r: Option<Value>)
    ensures r.Some? <==> v.Obj? && key in v.fields
    ensures r.Some? ==> r.value == v.fields[key]
  {
    if v.Obj? then Get(v.fields, key) else None
  }

  /** The reads of the report generator that have no `?.` in front of the property they take:
      `result.workflow.id`, `result.original?.scores?.quality.…`, `….scores?.analysis.…` and
      `result.config?.style_guide.…`. Each throws a `TypeError` when what it reads through is
      missing or null. This is when a generator throws for certain, not every way it can. */
  predicate UnguardedReadThrows(json: Object) {
    var original := Get(json, "original");
    var scores := if Nullish(original) then None else Property(original.value, "scores");
    var config := Get(json, "config");
    || Nullish(Get(json, "workflow"))
    || (!Nullish(scores) && (Nullish(Property(scores.value, "quality")) || Nullish(Property(scores.value, "analysis"))))
    || (!Nullish(config) && Nullish(Property(config.value, "style_guide")))
  }

  /** `{...json, html_email: report}`: the report is added, replacing any earlier one. */
  function WithReport(json: Object, report: string): (r: Object)
    ensures r.Keys == json.Keys + {"html_email"}
    ensures r["html_email"] == Str(report)
    ensures forall k | k in json && k != "html_email" :: r[k] == json[k]
  {
    Spread(json, map["html_email" := Str(report)])
  }

  /** A value as it lands in a parameter of a JavaScript function: the host's executor object,
      a details object, a string, a number, or nothing at all. */
  datatype Argument = Executor | DetailsArg(details: FormDataDetails) | TextArg(text: string) | NumberArg(n: int) | Undefined

  /** What reading the credentials through a first argument that is not the executor throws. */
  const NotAnExecutorMessage := "functionsBase.getCredentials is not a function"
  const UndefinedExecutorMessage := "Cannot read properties of undefined (reading 'getCredentials')"

  /** `styleRequest(fn, formDataDetails, path, itemIndex)` with whatever lands in its four
      parameters. Its first act is to read the credentials through `fn`, which only the
      executor can do; with the executor it is the request of `StyleApi`. */
  function StyleRequestCall(fn: Argument, details: Argument, path: Argument, itemIndex: Argument, server: Server)
    : (r: Result<seq<ExecutionData>, Error>)
    requires ChecksAdvance(server.clock)
    requires fn.Executor? ==> details.DetailsArg? && path.TextArg? && itemIndex.NumberArg?
    ensures fn.Undefined? ==> r == Failure(PlainError(UndefinedExecutorMessage))
    ensures !fn.Executor? && !fn.Undefined? ==> r == Failure(PlainError(NotAnExecutorMessage))
    ensures fn.Executor? ==> r == StyleRequestResult(details.details, itemIndex.n, server.posted, server.clock, server.bodies)
  {
    match fn
    case Executor => StyleRequestResult(details.details, itemIndex.n, server.posted, server.clock, server.bodies)
    case Undefined => Failure(PlainError(UndefinedExecutorMessage))
    case _ => Failure(PlainError(NotAnExecutorMessage))
  }

  /** The catch block: the error's description (or message) as the record's JSON when the node
      continues on failure, otherwise thrown again with the item's index. */
  function FailedItem(e: Error, itemIndex: int, continueOnFail: bool): (r: Result<NodeItem, OperationError>)
    ensures continueOnFail ==> r == Success(NodeItem(map["error" := Str(Describe(e))], itemIndex))
    ensures !continueOnFail ==> r == Failure(OperationError(Describe(e), itemIndex))
  {
    if continueOnFail then Success(NodeItem(map["error" := Str(Describe(e))], itemIndex))
    else Failure(OperationError(Describe(e), itemIndex))
  }

  /** The item's record from the answer of `styleRequest`: the first record's JSON, with the
      report added when the caller waited. A report that throws lands in the catch block like
      a failed request. */
  function ShapeItem(outcome: Result<seq<ExecutionData>, Error>, wait: bool, ext: ExtendedInputData,
                     itemIndex: int, continueOnFail: bool, report: ReportGenerator)
    : (r: Result<NodeItem, OperationError>)
    requires outcome.Success? ==> |outcome.value| >= 1
    ensures r.Success? ==> r.value.pairedItem == itemIndex
    ensures r.Failure? ==> r.error.itemIndex == itemIndex && !continueOnFail
    ensures outcome.Failure? ==> r == FailedItem(outcome.error, itemIndex, continueOnFail)
    ensures outcome.Success? && wait && report(outcome.value[0].json, ext).Failure?
      ==> r == FailedItem(report(outcome.value[0].json, ext).error, itemIndex, continueOnFail)
    ensures outcome.Success? && wait && report(outcome.value[0].json, ext).Success?
      ==> r == Success(NodeItem(WithReport(outcome.value[0].json, report(outcome.value[0].json, ext).value), itemIndex))
  {
    match outcome
    case Failure(e) => FailedItem(e, itemIndex, continueOnFail)
    case Success(result) =>
      var json := result[0].json;
      if wait then
        match report(json, ext)
        case Failure(e) => FailedItem(e, itemIndex, continueOnFail)
        case Success(page) => Success(NodeItem(WithReport(json, page), itemIndex))
      else Success(NodeItem(Spread(map[], json), itemIndex))
  }

  /** `processMarkupaiItem` as written: `styleRequest.call(this, formDataDetails, path, itemIndex)`
      binds `this`, which `styleRequest` does not use, and hands the details to its `fn`
      parameter, the path to `formDataDetails` and the index to `path`. The credentials read
      then throws, whatever the item and whatever the service would have answered. */
  function ProcessMarkupaiItemAsWritten(p: Parameters, itemIndex: int, continueOnFail: bool, server: Server,
                                        report: ReportGenerator)
    : (r: Result<NodeItem, OperationError>)
    requires ChecksAdvance(server.clock)
    ensures r == FailedItem(PlainError(NotAnExecutorMessage), itemIndex, continueOnFail)
  {
    var details := BuildFormDataDetails(p);
    var outcome := StyleRequestCall(DetailsArg(details), TextArg(GetPath(p.operation)), NumberArg(itemIndex), Undefined, server);
    ShapeItem(outcome, details.waitForCompletion, ExtendedInput(p.additionalOptions), itemIndex, continueOnFail, report)
  }

  /** As written, no item ever reaches the service: two items that differ in everything the
      service answers end the same way, and a record never holds more than the error. */
  lemma AsWrittenNeverReachesService(p: Parameters, itemIndex: int, continueOnFail: bool, a: Server, b: Server,
                                     report: ReportGenerator)
    requires ChecksAdvance(a.clock) && ChecksAdvance(b.clock)
    ensures ProcessMarkupaiItemAsWritten(p, itemIndex, continueOnFail, a, report)
         == ProcessMarkupaiItemAsWritten(p, itemIndex, continueOnFail, b, report)
    ensures var r := ProcessMarkupaiItemAsWritten(p, itemIndex, continueOnFail, a, report);
      r.Success? ==> r.value.json.Keys == {"error"}
  {
  }

  /** A POST the service accepts, for a caller who does not wait, shows what is lost: the
      intended call returns the service's answer, the written one the error. */
  lemma AsWrittenLosesAcceptedPost(p: Parameters, itemIndex: int, server: Server,
                                   report: ReportGenerator, answer: Object)
    requires ChecksAdvance(server.clock)
    requires p.additionalOptions.waitForCompletion == Some(false) && server.posted == Success(answer)
    requires "error" !in answer
    ensures ProcessMarkupaiItem(p, itemIndex, true, server, report) == Success(NodeItem(answer, itemIndex))
    ensures ProcessMarkupaiItemAsWritten(p, itemIndex, true, server, report)
         == Success(NodeItem(map["error" := Str(NotAnExecutorMessage)], itemIndex))
    ensures ProcessMarkupaiItem(p, itemIndex, true, server, report)
         != ProcessMarkupaiItemAsWritten(p, itemIndex, true, server, report)
  {
    assert Spread(map[], answer) == answer;
  }

  /** `processMarkupaiItem` with `styleRequest(this, formDataDetails, path, itemIndex)`, the
      call the batch loop of the node makes. */
  function ProcessMarkupaiItem(p: Parameters, itemIndex: int, continueOnFail: bool, server: Server,
                               report: ReportGenerator)
    : (r: Result<NodeItem, OperationError>)
    requires ChecksAdvance(server.clock)
    ensures r.Success? ==> r.value.pairedItem == itemIndex
    ensures r.Failure? ==> r.error.itemIndex == itemIndex && !continueOnFail
    ensures var sr := StyleRequestResult(BuildFormDataDetails(p), itemIndex, server.posted, server.clock, server.bodies);
      sr.Failure? ==> r == FailedItem(sr.error, itemIndex, continueOnFail)
    ensures var sr := StyleRequestResult(BuildFormDataDetails(p), itemIndex, server.posted, server.clock, server.bodies);
      var ext := ExtendedInput(p.additionalOptions);
      (sr.Success? && WaitForCompletion(p.additionalOptions) && report(sr.value[0].json, ext).Failure?)
        ==> r == FailedItem(report(sr.value[0].json, ext).error, itemIndex, continueOnFail)
  {
    var details := BuildFormDataDetails(p);
    var outcome := StyleRequestCall(Executor, DetailsArg(details), TextArg(GetPath(p.operation)), NumberArg(itemIndex), server);
    ShapeItem(outcome, details.waitForCompletion, ExtendedInput(p.additionalOptions), itemIndex, continueOnFail, report)
  }

  /** Not waiting: the record is the answer to the POST, whatever the report would say. */
  lemma NoWaitReturnsPostAnswer(p: Parameters, itemIndex: int, continueOnFail: bool, server: Server,
                                report: ReportGenerator, other: ReportGenerator)
    requires ChecksAdvance(server.clock)
    requires p.additionalOptions.waitForCompletion == Some(false) && server.posted.Success?
    ensures ProcessMarkupaiItem(p, itemIndex, continueOnFail, server, report) == Success(NodeItem(server.posted.value, itemIndex))
    ensures ProcessMarkupaiItem(p, itemIndex, continueOnFail, server, report)
         == ProcessMarkupaiItem(p, itemIndex, continueOnFail, server, other)
  {
    assert Spread(map[], server.posted.value) == server.posted.value;
  }

  /** Waiting: the record is the finished workflow with its report under `html_email`, when the
      report generator returns a page for it. */
  lemma WaitAddsReport(p: Parameters, itemIndex: int, continueOnFail: bool, server: Server,
                       report: ReportGenerator)
    requires ChecksAdvance(server.clock)
    requires WaitForCompletion(p.additionalOptions) && server.posted.Success?
    requires Poll(server.posted.value, true, PollingTimeout(p.additionalOptions), server.clock, server.bodies).outcome.Success?
    requires var finished := Poll(server.posted.value, true, PollingTimeout(p.additionalOptions), server.clock, server.bodies).outcome.value;
      report(finished, ExtendedInput(p.additionalOptions)).Success?
    ensures var finished := Poll(server.posted.value, true, PollingTimeout(p.additionalOptions), server.clock, server.bodies).outcome.value;
      ProcessMarkupaiItem(p, itemIndex, continueOnFail, server, report)
        == Success(NodeItem(WithReport(finished, report(finished, ExtendedInput(p.additionalOptions)).value), itemIndex))
  {
  }

  /** Waiting, with a report generator that throws on the finished workflow: the item ends in
      the catch block with the generator's error, as if the request had failed. */
  lemma FailingReportFailsItem(p: Parameters, itemIndex: int, continueOnFail: bool, server: Server,
                               report: ReportGenerator)
    requires ChecksAdvance(server.clock)
    requires WaitForCompletion(p.additionalOptions) && server.posted.Success?
    requires Poll(server.posted.value, true, PollingTimeout(p.additionalOptions), server.clock, server.bodies).outcome.Success?
    requires var finished := Poll(server.posted.value, true, PollingTimeout(p.additionalOptions), server.clock, server.bodies).outcome.value;
      report(finished, ExtendedInput(p.additionalOptions)).Failure?
    ensures var finished := Poll(server.posted.value, true, PollingTimeout(p.additionalOptions), server.clock, server.bodies).outcome.value;
      ProcessMarkupaiItem(p, itemIndex, continueOnFail, server, report)
        == FailedItem(report(finished, ExtendedInput(p.additionalOptions)).error, itemIndex, continueOnFail)
  {
  }

  /** A workflow that the POST reports running and the first poll reports completed, with no
      `workflow` object in either answer: the record a waiting caller gets has the finished
      workflow's JSON, which has no `workflow`, so a generator that throws on the unguarded
      reads leaves only the error in a continuing node's record, and no report. */
  lemma CompletedWithoutWorkflowLosesReport(p: Parameters, itemIndex: int, server: Server, report: ReportGenerator,
                                            id: string, first: Object)
    requires ChecksAdvance(server.clock)
    requires WaitForCompletion(p.additionalOptions)
    requires server.posted == Success(map["status" := Str("running"), "workflow_id" := Str(id)])
    requires server.clock(1) - server.clock(0) <= PollingTimeout(p.additionalOptions)
    requires server.bodies(0) == Success(first) && first == map["status" := Str("completed")]
    requires forall json: Object, ext: ExtendedInputData | UnguardedReadThrows(json) :: report(json, ext).Failure?
    ensures var r := ProcessMarkupaiItem(p, itemIndex, true, server, report);
      r.Success? && r.value.json.Keys == {"error"} && r.value.pairedItem == itemIndex
  {
    var initial := server.posted.value;
    var finished := Overlay(initial, first);
    assert IsRunning(initial);
    assert HasStatus(finished, ApiTypes.Completed);
    CompletedOnFirstPoll(initial, PollingTimeout(p.additionalOptions), server.clock, server.bodies, first);
    assert "workflow" !in finished;
    assert UnguardedReadThrows(finished);
  }
}
