/** Submitting a text to the style API and waiting for the workflow it starts
    (`style.api.utils.ts`). The POST and each status GET are described as request values; what
    the server answers is supplied from outside: `posted` is the outcome of the POST, `bodies(k)`
    the outcome of the k-th status GET (a parsed body or the error the host raised), and
    `clock(0)`, `clock(1)`, ... are the successive readings of `Date.now()`. */
module StyleApi {
  import opened Wrappers
  import opened Json
  import opened Errors
  import ApiTypes

  const RewritesPath := "v1/style/rewrites"
  const ChecksPath := "v1/style/checks"

  /** The rewrite endpoint for exactly the operation `rewrite`, the check endpoint for any other. */
  function GetPath(operation: string): (r: string)
    ensures r == RewritesPath || r == ChecksPath
    ensures r == RewritesPath <==> operation == "rewrite"
  {
    if operation == "rewrite" then RewritesPath else ChecksPath
  }

  /** What a caller hands over for one submission. A `None` tone is a tone the caller left out. */
  datatype FormDataDetails = FormDataDetails(
    content: string,
    dialect: string,
    tone: Option<string>,
    styleGuide: string,
    documentName: Option<string>,
    waitForCompletion: bool,
    pollingTimeout: int)

  /** One part of a multipart form; a field whose value is `undefined` carries `None`. */
  datatype FormPart =
    | FilePart(field: string, data: string, filename: string, contentType: string)
    | FieldPart(field: string, value: Option<string>)

  function PartName(p: FormPart): string {
    match p
    case FilePart(f, _, _, _) => f
    case FieldPart(f, _) => f
  }

  datatype HttpRequest = HttpRequest(verb: string, url: string, headers: map<string, string>, form: seq<FormPart>)

  /** `documentName || 'content.txt'`: the document name unless it is missing or empty. */
  function UploadFilename(documentName: Option<string>): (r: string)
    ensures r != ""
    ensures documentName.Some? && documentName.value != "" ==> r == documentName.value
    ensures documentName.None? || documentName.value == "" ==> r == "content.txt"
  {
    if documentName.Some? && documentName.value != "" then documentName.value else "content.txt"
  }

  function AuthHeaders(apiKey: string): map<string, string> {
    map["Authorization" := "Bearer " + apiKey]
  }

  /** The submitting POST: the text goes up as a plain-text file part followed by the dialect,
      tone and style-guide fields. `baseUrl` is the base URL already in its string form. */
  function PostRequest(details: FormDataDetails, path: string, apiKey: string, baseUrl: string): (r: HttpRequest)
    ensures r.verb == "POST" && r.url == baseUrl + path
    ensures "Authorization" in r.headers && r.headers["Authorization"] == "Bearer " + apiKey
    ensures |r.form| == 4 && forall i | 0 <= i < 4 :: PartName(r.form[i]) == ["file_upload", "dialect", "tone", "style_guide"][i]
    ensures r.form[0].FilePart? && r.form[0].data == details.content && r.form[0].contentType == "text/plain"
    ensures r.form[0].filename == UploadFilename(details.documentName)
    ensures r.form[1].FieldPart? && r.form[1].value == Some(details.dialect)
    ensures r.form[2].FieldPart? && r.form[2].value == details.tone
    ensures r.form[3].FieldPart? && r.form[3].value == Some(details.styleGuide)
  {
    HttpRequest("POST", baseUrl + path, AuthHeaders(apiKey), [
      FilePart("file_upload", details.content, UploadFilename(details.documentName), "text/plain"),
      FieldPart("dialect", Some(details.dialect)),
      FieldPart("tone", details.tone),
      FieldPart("style_guide", Some(details.styleGuide))])
  }

  /** The status GET, always on the workflow id of the submitting answer. */
  function StatusRequest(baseUrl: string, path: string, apiKey: string, workflowId: Option<Value>): (r: HttpRequest)
    ensures r.verb == "GET" && r.form == []
    ensures r.url == baseUrl + path + "/" + DisplayField(workflowId)
    ensures "Authorization" in r.headers && r.headers["Authorization"] == "Bearer " + apiKey
  {
    HttpRequest("GET", baseUrl + path + "/" + DisplayField(workflowId), AuthHeaders(apiKey), [])
  }

  predicate HasStatus(o: Object, s: ApiTypes.WorkflowStatus) {
    Get(o, "status") == Some(Str(ApiTypes.StatusName(s)))
  }

  predicate IsRunning(o: Object) {
    HasStatus(o, ApiTypes.Running)
  }

  predicate IsFailed(o: Object) {
    HasStatus(o, ApiTypes.Failed)
  }

  /** `{workflow_id: original.workflow_id, ...body}`: the body wins, the original id fills in. */
  function Overlay(original: Object, body: Object): (r: Object)
    ensures forall k :: k in body ==> k in r && r[k] == body[k]
    ensures "workflow_id" !in body ==> Get(r, "workflow_id") == Get(original, "workflow_id")
    ensures r.Keys == body.Keys + (original.Keys * {"workflow_id"})
  {
    Spread(if "workflow_id" in original then map["workflow_id" := original["workflow_id"]] else map[], body)
  }

  function TimeoutMessage(timeout: int, workflowId: Option<Value>): string {
    "Workflow timeout after " + IntToDecimal(timeout) + "ms. Workflow ID: " + DisplayField(workflowId)
  }

  /** `Workflow failed: ${result.error || 'Unknown error'}` */
  function FailedMessage(result: Object): (r: string)
    ensures TruthyField(Get(result, "error")) ==> r == "Workflow failed: " + Display(result["error"])
    ensures !TruthyField(Get(result, "error")) ==> r == "Workflow failed: Unknown error"
  {
    "Workflow failed: " + if TruthyField(Get(result, "error")) then Display(result["error"]) else "Unknown error"
  }

  /** Each clock reading taken at a timeout check is later than the one before. */
  ghost predicate ChecksAdvance(clock: nat -> int) {
    forall k: nat :: 1 <= k ==> clock(k) < clock(k + 1)
  }

  /** What is left of the time budget at the check after `done` GETs; zero once it is spent. */
  function Budget(timeout: int, clock: nat -> int, done: nat): nat {
    if clock(done + 1) - clock(0) <= timeout then timeout - (clock(done + 1) - clock(0)) + 1 else 0
  }

  /** How a poll ends, and how many status GETs it issued on the way. */
  datatype PollRun = PollRun(outcome: Result<Object, Error>, gets: nat)

  /** The polling loop from the state where `done` GETs have been issued and `result` is the
      latest answer: while the status is `running`, check the elapsed time against the timeout,
      then GET the status and overlay the body; once it is not, raise a `failed` status. */
  function PollFrom(original: Object, result: Object, timeout: int, clock: nat -> int,
                    bodies: nat -> Result<Object, Error>, done: nat): (run: PollRun)
    requires ChecksAdvance(clock)
    ensures run.gets >= done
    decreases Budget(timeout, clock, done)
  {
    if !IsRunning(result) then
      PollRun(if IsFailed(result) then Failure(PlainError(FailedMessage(result))) else Success(result), done)
    else if clock(done + 1) - clock(0) > timeout then
      PollRun(Failure(PlainError(TimeoutMessage(timeout, Get(original, "workflow_id")))), done)
    else
      match bodies(done)
      case Failure(e) => PollRun(Failure(e), done + 1)
      case Success(body) => PollFrom(original, Overlay(original, body), timeout, clock, bodies, done + 1)
  }

  /** `pollResponse`: the loop runs only for a running workflow the caller waits for; otherwise
      the answer is handed back as it is, even a `failed` one. */
  function Poll(initial: Object, wait: bool, timeout: int, clock: nat -> int,
                bodies: nat -> Result<Object, Error>): PollRun
    requires ChecksAdvance(clock)
  {
    if IsRunning(initial) && wait then PollFrom(initial, initial, timeout, clock, bodies, 0)
    else PollRun(Success(initial), 0)
  }

  method PollResponse(initial: Object, wait: bool, timeout: int, path: string, apiKey: string, baseUrl: string,
                      clock: nat -> int, bodies: nat -> Result<Object, Error>)
    returns (outcome: Result<Object, Error>, requests: seq<HttpRequest>)
    requires ChecksAdvance(clock)
    ensures PollRun(outcome, |requests|) == Poll(initial, wait, timeout, clock, bodies)
    ensures forall i | 0 <= i < |requests| :: requests[i] == StatusRequest(baseUrl, path, apiKey, Get(initial, "workflow_id"))
  {
    var result := initial;
    requests := [];
    if IsRunning(result) && wait {
      var startTime := clock(0);
      var status := StatusRequest(baseUrl, path, apiKey, Get(initial, "workflow_id"));
      while IsRunning(result)
        invariant PollFrom(initial, result, timeout, clock, bodies, |requests|)
          == PollFrom(initial, initial, timeout, clock, bodies, 0)
        invariant forall i | 0 <= i < |requests| :: requests[i] == status
        decreases Budget(timeout, clock, |requests|)
      {
        if clock(|requests| + 1) - startTime > timeout {
          outcome := Failure(PlainError(TimeoutMessage(timeout, Get(initial, "workflow_id"))));
          return;
        }
        var answer := bodies(|requests|);
        requests := requests + [status];
        if answer.Failure? {
          outcome := Failure(answer.error);
          return;
        }
        result := Overlay(initial, answer.value);
      }
      if IsFailed(result) {
        outcome := Failure(PlainError(FailedMessage(result)));
        return;
      }
    }
    outcome := Success(result);
  }

  /** The loop is skipped for an answer that is not running or when the caller does not wait:
      no GET is issued and the answer is returned as it is, a `failed` one included. */
  lemma NotPolledReturnsAnswer(initial: Object, wait: bool, timeout: int, clock: nat -> int,
                               bodies: nat -> Result<Object, Error>)
    requires ChecksAdvance(clock)
    requires !IsRunning(initial) || !wait
    ensures Poll(initial, wait, timeout, clock, bodies) == PollRun(Success(initial), 0)
  {
  }

  /** A loop that ends without an error ends on a status that is neither `running` nor `failed`,
      holding the last polled body over the original workflow id. */
  lemma {:induction false} PollFromSuccess(original: Object, result: Object, timeout: int, clock: nat -> int,
                                           bodies: nat -> Result<Object, Error>, done: nat)
    requires ChecksAdvance(clock)
    requires PollFrom(original, result, timeout, clock, bodies, done).outcome.Success?
    ensures var run := PollFrom(original, result, timeout, clock, bodies, done);
      && !IsRunning(run.outcome.value) && !IsFailed(run.outcome.value)
      && (run.gets == done ==> run.outcome.value == result)
      && (run.gets > done ==>
            bodies(run.gets - 1).Success? && run.outcome.value == Overlay(original, bodies(run.gets - 1).value))
    decreases Budget(timeout, clock, done)
  {
    if IsRunning(result) && clock(done + 1) - clock(0) <= timeout && bodies(done).Success? {
      PollFromSuccess(original, Overlay(original, bodies(done).value), timeout, clock, bodies, done + 1);
    }
  }

  /** A loop that ends in an error ends in one of three ways: the time budget ran out, a status
      GET failed, or the last answer had the status `failed`. */
  lemma {:induction false} PollFromFailure(original: Object, result: Object, timeout: int, clock: nat -> int,
                                           bodies: nat -> Result<Object, Error>, done: nat)
    requires ChecksAdvance(clock)
    requires PollFrom(original, result, timeout, clock, bodies, done).outcome.Failure?
    ensures var run := PollFrom(original, result, timeout, clock, bodies, done);
      var e := run.outcome.error;
      || e == PlainError(TimeoutMessage(timeout, Get(original, "workflow_id")))
      || (run.gets > done && bodies(run.gets - 1) == Failure(e))
      || (run.gets > done && bodies(run.gets - 1).Success?
          && IsFailed(Overlay(original, bodies(run.gets - 1).value))
          && e == PlainError(FailedMessage(Overlay(original, bodies(run.gets - 1).value))))
      || (run.gets == done && IsFailed(result) && e == PlainError(FailedMessage(result)))
    decreases Budget(timeout, clock, done)
  {
    if IsRunning(result) && clock(done + 1) - clock(0) <= timeout && bodies(done).Success? {
      PollFromFailure(original, Overlay(original, bodies(done).value), timeout, clock, bodies, done + 1);
    }
  }

  /** How `pollResponse` ends without an error: with the answer itself when nothing was polled,
      otherwise with the last polled body over the original id; waiting never ends on `running`. */
  lemma PollSuccess(initial: Object, wait: bool, timeout: int, clock: nat -> int, bodies: nat -> Result<Object, Error>)
    requires ChecksAdvance(clock)
    requires Poll(initial, wait, timeout, clock, bodies).outcome.Success?
    ensures var run := Poll(initial, wait, timeout, clock, bodies);
      && (wait ==> !IsRunning(run.outcome.value))
      && (run.gets == 0 ==> run.outcome.value == initial)
      && (run.gets > 0 ==> !IsFailed(run.outcome.value) && bodies(run.gets - 1).Success?
                           && run.outcome.value == Overlay(initial, bodies(run.gets - 1).value))
  {
    if IsRunning(initial) && wait {
      PollFromSuccess(initial, initial, timeout, clock, bodies, 0);
    }
  }

  /** A workflow that keeps answering `running` ends in the timeout error. */
  lemma {:induction false} AlwaysRunningTimesOut(original: Object, result: Object, timeout: int, clock: nat -> int,
                                                 bodies: nat -> Result<Object, Error>, done: nat)
    requires ChecksAdvance(clock)
    requires IsRunning(result)
    requires forall k: nat :: bodies(k).Success? && IsRunning(Overlay(original, bodies(k).value))
    ensures PollFrom(original, result, timeout, clock, bodies, done).outcome
         == Failure(PlainError(TimeoutMessage(timeout, Get(original, "workflow_id"))))
    decreases Budget(timeout, clock, done)
  {
    if clock(done + 1) - clock(0) <= timeout {
      AlwaysRunningTimesOut(original, Overlay(original, bodies(done).value), timeout, clock, bodies, done + 1);
    }
  }

  /** The check compares with `>`: an elapsed time equal to the timeout still polls, one
      millisecond more raises the timeout before any GET. */
  lemma TimeoutBoundary(initial: Object, timeout: int, clock: nat -> int, bodies: nat -> Result<Object, Error>)
    requires ChecksAdvance(clock)
    requires IsRunning(initial)
    ensures clock(1) - clock(0) == timeout ==> Poll(initial, true, timeout, clock, bodies).gets >= 1
    ensures clock(1) - clock(0) == timeout + 1 ==>
      Poll(initial, true, timeout, clock, bodies)
        == PollRun(Failure(PlainError(TimeoutMessage(timeout, Get(initial, "workflow_id")))), 0)
  {
  }

  /** A workflow that answers `running` and then `completed` is polled twice. */
  lemma RunningThenCompleted(initial: Object, timeout: int, clock: nat -> int, bodies: nat -> Result<Object, Error>,
                             first: Object, second: Object)
    requires ChecksAdvance(clock)
    requires IsRunning(initial) && clock(2) - clock(0) <= timeout
    requires bodies(0) == Success(first) && IsRunning(Overlay(initial, first))
    requires bodies(1) == Success(second) && HasStatus(Overlay(initial, second), ApiTypes.Completed)
    ensures Poll(initial, true, timeout, clock, bodies) == PollRun(Success(Overlay(initial, second)), 2)
  {
    var middle, last := Overlay(initial, first), Overlay(initial, second);
    assert !IsRunning(last) && !IsFailed(last);
    assert PollFrom(initial, middle, timeout, clock, bodies, 1) == PollFrom(initial, last, timeout, clock, bodies, 2);
  }

  /** A workflow that answers `completed` on the first poll ends the loop after one GET, with
      that answer over the original id. */
  lemma CompletedOnFirstPoll(initial: Object, timeout: int, clock: nat -> int, bodies: nat -> Result<Object, Error>,
                             first: Object)
    requires ChecksAdvance(clock)
    requires IsRunning(initial) && clock(1) - clock(0) <= timeout
    requires bodies(0) == Success(first) && HasStatus(Overlay(initial, first), ApiTypes.Completed)
    ensures Poll(initial, true, timeout, clock, bodies) == PollRun(Success(Overlay(initial, first)), 1)
  {
    var last := Overlay(initial, first);
    assert !IsRunning(last) && !IsFailed(last);
    assert PollFrom(initial, initial, timeout, clock, bodies, 0) == PollFrom(initial, last, timeout, clock, bodies, 1);
  }

  /** A workflow that answers `failed` on the first poll raises its error after one GET. */
  lemma FailedOnFirstPoll(initial: Object, timeout: int, clock: nat -> int, bodies: nat -> Result<Object, Error>,
                          first: Object)
    requires ChecksAdvance(clock)
    requires IsRunning(initial) && clock(1) - clock(0) <= timeout
    requires bodies(0) == Success(first) && IsFailed(Overlay(initial, first))
    ensures Poll(initial, true, timeout, clock, bodies)
         == PollRun(Failure(PlainError(FailedMessage(Overlay(initial, first)))), 1)
  {
    var last := Overlay(initial, first);
    assert !IsRunning(last);
    assert PollFrom(initial, initial, timeout, clock, bodies, 0) == PollFrom(initial, last, timeout, clock, bodies, 1);
  }

  /** The clock readings of a check: the first at least `first` after the start, each later one
      at least `gap` after the one before. */
  ghost predicate ChecksSpaced(clock: nat -> int, first: int, gap: int) {
    && clock(0) + first <= clock(1)
    && forall k: nat :: 1 <= k ==> clock(k) + gap <= clock(k + 1)
  }

  lemma {:induction false} ClockFloor(clock: nat -> int, first: int, gap: int, k: nat)
    requires 1 <= k && ChecksSpaced(clock, first, gap)
    ensures clock(k) - clock(0) >= first + (k - 1) * gap
  {
    if k > 1 {
      ClockFloor(clock, first, gap, k - 1);
      assert (k - 1) * gap == (k - 2) * gap + gap;
    }
  }

  lemma {:induction false} PollFromGetsBound(original: Object, result: Object, timeout: int, clock: nat -> int,
                                             bodies: nat -> Result<Object, Error>, done: nat, first: int, gap: int)
    requires ChecksAdvance(clock) && ChecksSpaced(clock, first, gap)
    ensures var g := PollFrom(original, result, timeout, clock, bodies, done).gets;
      g == done || first + (g - 1) * gap <= timeout
    decreases Budget(timeout, clock, done)
  {
    if IsRunning(result) && clock(done + 1) - clock(0) <= timeout {
      ClockFloor(clock, first, gap, done + 1);
      if bodies(done).Success? {
        PollFromGetsBound(original, Overlay(original, bodies(done).value), timeout, clock, bodies, done + 1, first, gap);
      }
    }
  }

  /** When every clock reading is at least `gap` after the one before, at most `timeout / gap`
      status GETs are issued. */
  lemma PollGetsAtMost(initial: Object, wait: bool, timeout: int, clock: nat -> int,
                       bodies: nat -> Result<Object, Error>, gap: int)
    requires gap > 0 && ChecksSpaced(clock, gap, gap)
    ensures ChecksAdvance(clock)
    ensures Poll(initial, wait, timeout, clock, bodies).gets <= if timeout < 0 then 0 else timeout / gap
  {
    var g := Poll(initial, wait, timeout, clock, bodies).gets;
    if IsRunning(initial) && wait {
      PollFromGetsBound(initial, initial, timeout, clock, bodies, 0, gap, gap);
      if g > 0 {
        assert g * gap <= timeout by {
          assert gap + (g - 1) * gap == g * gap;
        }
        DivisionBound(g, gap, timeout);
      }
    }
  }

  /** The first check runs right after the start, and between two checks lie the two-second
      sleep and a GET: then at most `timeout / 2000 + 1` GETs are issued. */
  lemma PollGetsWithSleep(initial: Object, wait: bool, timeout: int, clock: nat -> int,
                          bodies: nat -> Result<Object, Error>)
    requires ChecksSpaced(clock, 0, 2000)
    ensures ChecksAdvance(clock)
    ensures Poll(initial, wait, timeout, clock, bodies).gets <= if timeout < 0 then 0 else timeout / 2000 + 1
  {
    var g := Poll(initial, wait, timeout, clock, bodies).gets;
    if IsRunning(initial) && wait {
      PollFromGetsBound(initial, initial, timeout, clock, bodies, 0, 0, 2000);
      if g > 0 {
        DivisionBound(g - 1, 2000, timeout);
      }
    }
  }

  lemma DivisionBound(g: nat, gap: int, timeout: int)
    requires gap > 0 && g * gap <= timeout
    ensures timeout >= 0 && g <= timeout / gap
  {
    var q := timeout / gap;
    assert q * gap + timeout % gap == timeout;
    assert g * gap < (q + 1) * gap;
    MulCancelLess(g, q + 1, gap);
  }

  lemma MulCancelLess(a: int, b: int, c: int)
    requires c > 0 && a * c < b * c
    ensures a < b
  {
  }

  /** One record of `styleRequest`'s answer: the item's JSON and its position in the batch. */
  datatype ExecutionData = ExecutionData(json: Object, itemData: int)

  /** `styleRequest`: one record for the item, holding the finished workflow when the caller
      waits and the answer to the POST when it does not; any error is passed on. */
  function StyleRequestResult(details: FormDataDetails, itemIndex: int, posted: Result<Object, Error>,
                              clock: nat -> int, bodies: nat -> Result<Object, Error>): (r: Result<seq<ExecutionData>, Error>)
    requires ChecksAdvance(clock)
    ensures r.Success? ==> |r.value| == 1 && r.value[0].itemData == itemIndex
    ensures r.Success? && !details.waitForCompletion ==> posted == Success(r.value[0].json)
    ensures r.Success? && details.waitForCompletion ==>
      posted.Success? && Poll(posted.value, true, details.pollingTimeout, clock, bodies).outcome == Success(r.value[0].json)
    ensures r.Failure? <==>
      posted.Failure? || (details.waitForCompletion && Poll(posted.value, true, details.pollingTimeout, clock, bodies).outcome.Failure?)
  {
    match posted
    case Failure(e) => Failure(e)
    case Success(answer) =>
      if details.waitForCompletion then
        match Poll(answer, true, details.pollingTimeout, clock, bodies).outcome
        case Failure(e) => Failure(e)
        case Success(finished) => Success([ExecutionData(finished, itemIndex)])
      else
        Success([ExecutionData(answer, itemIndex)])
  }

  method StyleRequest(details: FormDataDetails, path: string, itemIndex: int, apiKey: string, baseUrl: string,
                      posted: Result<Object, Error>, clock: nat -> int, bodies: nat -> Result<Object, Error>)
    returns (r: Result<seq<ExecutionData>, Error>, requests: seq<HttpRequest>)
    requires ChecksAdvance(clock)
    ensures r == StyleRequestResult(details, itemIndex, posted, clock, bodies)
    ensures |requests| >= 1 && requests[0] == PostRequest(details, path, apiKey, baseUrl)
    ensures posted.Failure? || !details.waitForCompletion ==> |requests| == 1
    ensures posted.Success? && details.waitForCompletion ==>
      && |requests| == 1 + Poll(posted.value, true, details.pollingTimeout, clock, bodies).gets
      && forall i | 1 <= i < |requests| :: requests[i] == StatusRequest(baseUrl, path, apiKey, Get(posted.value, "workflow_id"))
  {
    var returnData: seq<ExecutionData> := [];
    requests := [PostRequest(details, path, apiKey, baseUrl)];
    if posted.Failure? {
      r := Failure(posted.error);
      return;
    }
    var answer := posted.value;
    if details.waitForCompletion {
      var outcome, polls := PollResponse(answer, details.waitForCompletion, details.pollingTimeout, path, apiKey, baseUrl, clock, bodies);
      requests := requests + polls;
      assert forall i | 1 <= i < |requests| :: requests[i] == polls[i - 1];
      if outcome.Failure? {
        r := Failure(outcome.error);
        return;
      }
      returnData := returnData + [ExecutionData(outcome.value, itemIndex)];
      assert returnData == [ExecutionData(outcome.value, itemIndex)];
    } else {
      returnData := returnData + [ExecutionData(answer, itemIndex)];
      assert returnData == [ExecutionData(answer, itemIndex)];
    }
    r := Success(returnData);
  }
}
