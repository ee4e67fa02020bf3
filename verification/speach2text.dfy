/** The recognition client: upload, result polling and the `exec` pipeline.

    HTTP, JSON decoding and file access are left out. Each server answer is an
    input value that says which branch of the Python code it drives: the request raised,
    the body was not the expected JSON object, or the fields it holds. */
module Speach2TextXF {
  import opened Common
  import opened Transcript
  import opened RequestBodyXF

  /** Why a stage returned `None` (each case is one logged branch of the Python code). */
  datatype Reason =
    | FileMissing             // `_upload`: the path is not a file
    | UploadRequestFailed     // `_upload`: `requests.post` raised
    | NoOrderId               // `_upload`: `content.orderId` missing from the reply
    | QueryRequestFailed      // `_get_result`: `requests.post` raised
    | ServiceFailed(failType: int) // `_get_result`: status -1
    | RetriesExhausted        // `_get_result`: `try_time > max_try_time`

  /** An exception that escapes the stage and `exec` itself. */
  datatype Fault =
    | UnparsableReply                     // `response.json()` is not a JSON object
    | MissingField                        // KeyError on `orderResult` (status 4) or `failType` (status -1)
    | MalformedResult(error: ExtractError) // IndexError in `_result2sentence`

  /** What a stage does: returns a value, returns `None`, or raises. */
  datatype Outcome<+T> = Ok(value: T) | Fail(reason: Reason) | Raise(fault: Fault) {

    /** The Python return value of a stage that did not raise. */
    function Returned(): Option<T>
      requires !Raise?
    {
      if Ok? then Some(value) else None
    }
  }

  // ---------------------------------------------------------------------------
  // Upload.

  /** The local audio file: absent, or present with its base name and byte size. */
  datatype AudioFile = Missing | Present(name: string, size: nat)

  /** The server's answer to the upload request. */
  datatype UploadReply =
    | UploadRaised               // the request itself raised (timeout, connection)
    | UploadUnparsable           // the body is not a JSON object
    | UploadBody(orderId: Option<string>) // `content.orderId`, when present

  /** The query parameters of the upload request. */
  datatype UploadParams = UploadParams(
    appId: string, signa: string, ts: string, fileSize: nat, fileName: string, duration: string)

  /** What `_upload` sent (nothing when the file is missing) and what it returned. */
  datatype UploadCall = UploadCall(sent: Option<UploadParams>, outcome: Outcome<string>)

  /** The nominal duration field the upload always sends. */
  const UploadDuration := "200"

  /** `Speach2TextXF._upload`. */
  function Upload(rb: RequestBody, file: AudioFile, reply: UploadReply): (r: UploadCall)
    ensures file.Missing? <==> r.sent.None?
    ensures file.Missing? ==> r.outcome == Fail(FileMissing)
    ensures r.sent.Some? ==>
              r.sent.value == UploadParams(rb.appid, rb.signa, rb.ts, file.size, file.name, UploadDuration)
    ensures r.outcome.Ok? <==> file.Present? && reply.UploadBody? && reply.orderId.Some?
    ensures r.outcome.Ok? ==> r.outcome.value == reply.orderId.value
    ensures r.outcome.Raise? <==> file.Present? && reply.UploadUnparsable?
    ensures file.Present? && reply.UploadRaised? ==> r.outcome == Fail(UploadRequestFailed)
    ensures file.Present? && reply.UploadUnparsable? ==> r.outcome == Raise(UnparsableReply)
    ensures file.Present? && reply == UploadBody(None) ==> r.outcome == Fail(NoOrderId)
  {
    match file
    case Missing => UploadCall(None, Fail(FileMissing))
    case Present(name, size) =>
      var params := UploadParams(rb.appid, rb.signa, rb.ts, size, name, UploadDuration);
      match reply
      case UploadRaised => UploadCall(Some(params), Fail(UploadRequestFailed))
      case UploadUnparsable => UploadCall(Some(params), Raise(UnparsableReply))
      case UploadBody(orderId) =>
        match orderId
        case Some(id) => UploadCall(Some(params), Ok(id))
        case None => UploadCall(Some(params), Fail(NoOrderId))
  }

  // ---------------------------------------------------------------------------
  // Result polling.

  /** The server's answer to one result query. `orderResult` and `failType` are
      `None` when the key is absent. */
  datatype Reply =
    | QueryRaised                        // the request itself raised
    | QueryUnparsable                    // not a JSON object, or no `content.orderInfo.status`
    | Status(code: int, orderResult: Option<OrderResult>, failType: Option<int>)

  /** The query parameters of every result query. */
  datatype QueryParams = QueryParams(appId: string, signa: string, ts: string, orderId: string)

  /** The outcome of the poll and how many queries it sent. */
  datatype Poll = Poll(outcome: Outcome<OrderResult>, queries: nat)

  /** Status code of a finished order. */
  const StatusDone := 4
  /** Status code of a failed order. */
  const StatusFailed := -1

  /** The number of queries after which a still-processing order is given up:
      the counter is checked after it has been incremented, so at least one
      query is always sent. */
  function QueryBudget(maxTryTime: int): (n: nat)
    ensures n >= 1 && n > maxTryTime
    ensures maxTryTime >= 0 ==> n == maxTryTime + 1
    ensures maxTryTime < 0 ==> n == 1
  {
    if maxTryTime >= 0 then maxTryTime + 1 else 1
  }

  /** A reply after which the loop stops whatever its counter says. */
  predicate Terminal(reply: Reply) {
    !reply.Status? || reply.code == StatusDone || reply.code == StatusFailed
  }

  /** What a terminal reply makes the poll return. */
  function Classify(reply: Reply): Outcome<OrderResult>
    requires Terminal(reply)
  {
    if reply.QueryRaised? then Fail(QueryRequestFailed)
    else if reply.QueryUnparsable? then Raise(UnparsableReply)
    else if reply.code == StatusDone then
      (if reply.orderResult.Some? then Ok(reply.orderResult.value) else Raise(MissingField))
    else
      (if reply.failType.Some? then Fail(ServiceFailed(reply.failType.value)) else Raise(MissingField))
  }

  /** The `_get_result` loop after `tried` queries, reading the answer to query
      number `tried + 1` from `replies[tried]`. `replies` holds one answer for every
      query the loop may send. */
  function PollFrom(replies: seq<Reply>, tried: nat, maxTryTime: int): (r: Poll)
    requires tried < QueryBudget(maxTryTime) <= |replies|
    ensures tried < r.queries <= QueryBudget(maxTryTime)
    ensures forall k :: tried <= k < r.queries - 1 ==> !Terminal(replies[k])
    ensures Terminal(replies[r.queries - 1]) ==> r.outcome == Classify(replies[r.queries - 1])
    ensures !Terminal(replies[r.queries - 1]) ==>
              r.outcome == Fail(RetriesExhausted) && r.queries == QueryBudget(maxTryTime)
    decreases QueryBudget(maxTryTime) - tried
  {
    var tryTime := tried + 1;
    match replies[tried]
    case QueryRaised => Poll(Fail(QueryRequestFailed), tryTime)
    case QueryUnparsable => Poll(Raise(UnparsableReply), tryTime)
    case Status(status, orderResult, failType) =>
      if status == StatusDone then
        match orderResult
        case Some(res) => Poll(Ok(res), tryTime)
        case None => Poll(Raise(MissingField), tryTime)
      else if status == StatusFailed then
        match failType
        case Some(code) => Poll(Fail(ServiceFailed(code)), tryTime)
        case None => Poll(Raise(MissingField), tryTime)
      else if tryTime > maxTryTime then
        Poll(Fail(RetriesExhausted), tryTime)
      else
        PollFrom(replies, tryTime, maxTryTime)
  }

  /** `Speach2TextXF._get_result` as written: a `while True` loop over queries that
      all carry the parameter dictionary built once before the loop. */
  method GetResult(rb: RequestBody, orderId: string, replies: seq<Reply>, maxTryTime: int)
    returns (outcome: Outcome<OrderResult>, sent: seq<QueryParams>)
    requires QueryBudget(maxTryTime) <= |replies|
    ensures outcome == PollFrom(replies, 0, maxTryTime).outcome
    ensures |sent| == PollFrom(replies, 0, maxTryTime).queries
    ensures forall k :: 0 <= k < |sent| ==>
              sent[k] == QueryParams(rb.appid, rb.signa, rb.ts, orderId)
  {
    var params := QueryParams(rb.appid, rb.signa, rb.ts, orderId);
    sent := [];
    var tryTime := 0;
    while true
      invariant tryTime < QueryBudget(maxTryTime)
      invariant PollFrom(replies, tryTime, maxTryTime) == PollFrom(replies, 0, maxTryTime)
      invariant |sent| == tryTime
      invariant forall k :: 0 <= k < |sent| ==> sent[k] == params
      decreases QueryBudget(maxTryTime) - tryTime
    {
      var reply := replies[tryTime];
      tryTime := tryTime + 1;
      sent := sent + [params];
      if reply.QueryRaised? {
        return Fail(QueryRequestFailed), sent;
      }
      if reply.QueryUnparsable? {
        return Raise(UnparsableReply), sent;
      }
      var status := reply.code;
      if status == StatusDone {
        if reply.orderResult.None? {
          return Raise(MissingField), sent;
        }
        return Ok(reply.orderResult.value), sent;
      } else if status == StatusFailed {
        if reply.failType.None? {
          return Raise(MissingField), sent;
        }
        return Fail(ServiceFailed(reply.failType.value)), sent;
      }
      if tryTime > maxTryTime {
        return Fail(RetriesExhausted), sent;
      }
    }
  }

  /** If the k-th answer (counting from 0) is the first terminal one and the budget
      reaches it, the poll ends there with that answer's outcome after k + 1
      queries: a transport error or a -1 status is never retried. */
  lemma {:induction false} PollStopsAtFirstTerminal(replies: seq<Reply>, maxTryTime: int, k: nat)
    requires QueryBudget(maxTryTime) <= |replies|
    requires k < QueryBudget(maxTryTime)
    requires forall j :: 0 <= j < k ==> !Terminal(replies[j])
    requires Terminal(replies[k])
    ensures PollFrom(replies, 0, maxTryTime) == Poll(Classify(replies[k]), k + 1)
  {
    var p := PollFrom(replies, 0, maxTryTime);
    assert k >= p.queries - 1;
    assert Terminal(replies[p.queries - 1]);
  }

  /** The first status-4 answer with an `orderResult` is what the poll returns. */
  lemma PollReturnsFirstDone(replies: seq<Reply>, maxTryTime: int, k: nat, res: OrderResult)
    requires QueryBudget(maxTryTime) <= |replies|
    requires k < QueryBudget(maxTryTime)
    requires forall j :: 0 <= j < k ==> !Terminal(replies[j])
    requires replies[k].Status? && replies[k].code == StatusDone && replies[k].orderResult == Some(res)
    ensures PollFrom(replies, 0, maxTryTime) == Poll(Ok(res), k + 1)
  {
    PollStopsAtFirstTerminal(replies, maxTryTime, k);
  }

  /** A -1 status ends the poll at once with the reported failure code. */
  lemma PollGivesUpOnFailedStatus(replies: seq<Reply>, maxTryTime: int, k: nat, code: int)
    requires QueryBudget(maxTryTime) <= |replies|
    requires k < QueryBudget(maxTryTime)
    requires forall j :: 0 <= j < k ==> !Terminal(replies[j])
    requires replies[k].Status? && replies[k].code == StatusFailed && replies[k].failType == Some(code)
    ensures PollFrom(replies, 0, maxTryTime) == Poll(Fail(ServiceFailed(code)), k + 1)
    ensures PollFrom(replies, 0, maxTryTime).outcome.Returned() == None
  {
    PollStopsAtFirstTerminal(replies, maxTryTime, k);
  }

  /** A query whose request raises ends the poll at once, even with budget left. */
  lemma PollGivesUpOnTransportError(replies: seq<Reply>, maxTryTime: int, k: nat)
    requires QueryBudget(maxTryTime) <= |replies|
    requires k < QueryBudget(maxTryTime)
    requires forall j :: 0 <= j < k ==> !Terminal(replies[j])
    requires replies[k].QueryRaised?
    ensures PollFrom(replies, 0, maxTryTime) == Poll(Fail(QueryRequestFailed), k + 1)
  {
    PollStopsAtFirstTerminal(replies, maxTryTime, k);
  }

  /** While the order keeps processing, the poll sends exactly `QueryBudget`
      queries (`max_try_time + 1` when that is not negative) and gives up. */
  lemma {:induction false} PollExhaustsBudget(replies: seq<Reply>, maxTryTime: int)
    requires QueryBudget(maxTryTime) <= |replies|
    requires forall j :: 0 <= j < QueryBudget(maxTryTime) ==> !Terminal(replies[j])
    ensures PollFrom(replies, 0, maxTryTime) == Poll(Fail(RetriesExhausted), QueryBudget(maxTryTime))
  {
    var p := PollFrom(replies, 0, maxTryTime);
    assert !Terminal(replies[p.queries - 1]);
  }

  // ---------------------------------------------------------------------------
  // The pipeline.

  /** Everything one `exec` call sends and what it returns. */
  datatype ExecRun = ExecRun(outcome: Outcome<string>, upload: Option<UploadParams>, queries: seq<QueryParams>)

  /** Every request of a run carries `appid`, `ts` and the signature of that pair. */
  predicate AllSigned(run: ExecRun, sign: Signer, appid: string, secretKey: string, ts: string) {
    && (run.upload.Some? ==>
          run.upload.value.appId == appid && run.upload.value.ts == ts
          && run.upload.value.signa == sign(appid, secretKey, ts))
    && forall k :: 0 <= k < |run.queries| ==>
          run.queries[k].appId == appid && run.queries[k].ts == ts
          && run.queries[k].signa == sign(appid, secretKey, ts)
  }

  /** `Speach2TextXF.exec`: sign once, upload, poll, extract; stop at the first
      stage that returns `None` or raises. */
  function Exec(sign: Signer, appid: string, secretKey: string, ts: string,
                file: AudioFile, uploadReply: UploadReply, replies: seq<Reply>, maxTryTime: int)
    : (r: ExecRun)
    requires QueryBudget(maxTryTime) <= |replies|
    ensures AllSigned(r, sign, appid, secretKey, ts)
    ensures r.upload == Upload(Make(sign, appid, secretKey, ts), file, uploadReply).sent
    ensures var up := Upload(Make(sign, appid, secretKey, ts), file, uploadReply).outcome;
            !up.Ok? ==> r.queries == [] && r.outcome == up
    ensures var up := Upload(Make(sign, appid, secretKey, ts), file, uploadReply).outcome;
            up.Ok? ==> forall k :: 0 <= k < |r.queries| ==> r.queries[k].orderId == up.value
    ensures var up := Upload(Make(sign, appid, secretKey, ts), file, uploadReply).outcome;
            var poll := PollFrom(replies, 0, maxTryTime);
            up.Ok? ==>
              && |r.queries| == poll.queries
              && (poll.outcome.Fail? ==> r.outcome == Fail(poll.outcome.reason))
              && (poll.outcome.Raise? ==> r.outcome == Raise(poll.outcome.fault))
    ensures r.outcome.Ok? ==>
              exists tree :: PollFrom(replies, 0, maxTryTime).outcome == Ok(tree)
                             && Result2Sentence(tree) == Success(r.outcome.value)
  {
    var rb := Make(sign, appid, secretKey, ts);
    var up := Upload(rb, file, uploadReply);
    match up.outcome
    case Fail(f) => ExecRun(Fail(f), up.sent, [])
    case Raise(e) => ExecRun(Raise(e), up.sent, [])
    case Ok(orderId) =>
      var params := QueryParams(rb.appid, rb.signa, rb.ts, orderId);
      var poll := PollFrom(replies, 0, maxTryTime);
      var queries := seq(poll.queries, _ => params);
      match poll.outcome
      case Fail(f) => ExecRun(Fail(f), up.sent, queries)
      case Raise(e) => ExecRun(Raise(e), up.sent, queries)
      case Ok(tree) =>
        match Result2Sentence(tree)
        case Success(text) => ExecRun(Ok(text), up.sent, queries)
        case Failure(e) => ExecRun(Raise(MalformedResult(e)), up.sent, queries)
  }

  /** When the upload yields no order id, `exec` never polls: it returns `None`
      with the upload's reason, or raises the upload's exception. */
  lemma ExecStopsAfterFailedUpload(sign: Signer, appid: string, secretKey: string, ts: string,
                                   file: AudioFile, uploadReply: UploadReply,
                                   replies: seq<Reply>, maxTryTime: int)
    requires QueryBudget(maxTryTime) <= |replies|
    requires !(file.Present? && uploadReply.UploadBody? && uploadReply.orderId.Some?)
    ensures Exec(sign, appid, secretKey, ts, file, uploadReply, replies, maxTryTime).queries == []
    ensures Exec(sign, appid, secretKey, ts, file, uploadReply, replies, maxTryTime).outcome
            == Upload(Make(sign, appid, secretKey, ts), file, uploadReply).outcome
    ensures !Exec(sign, appid, secretKey, ts, file, uploadReply, replies, maxTryTime).outcome.Ok?
  {
  }

  /** After a successful upload, a poll that returns `None` makes `exec` return
      `None` with the same reason, and a poll that raises makes `exec` raise the
      same exception; either way exactly the poll's queries were sent. */
  lemma ExecStopsAfterFailedPoll(sign: Signer, appid: string, secretKey: string, ts: string,
                                 name: string, size: nat, id: string,
                                 replies: seq<Reply>, maxTryTime: int)
    requires QueryBudget(maxTryTime) <= |replies|
    requires !PollFrom(replies, 0, maxTryTime).outcome.Ok?
    ensures var r := Exec(sign, appid, secretKey, ts, Present(name, size), UploadBody(Some(id)), replies, maxTryTime);
            var poll := PollFrom(replies, 0, maxTryTime);
            && (poll.outcome.Fail? ==> r.outcome == Fail(poll.outcome.reason) && r.outcome.Returned() == None)
            && (poll.outcome.Raise? ==> r.outcome == Raise(poll.outcome.fault))
            && |r.queries| == poll.queries
  {
  }

  /** After a successful upload and poll, `exec` returns the transcript of the
      order result, or raises when the result lacks a path or candidate. */
  lemma ExecReturnsTranscript(sign: Signer, appid: string, secretKey: string, ts: string,
                              name: string, size: nat, id: string,
                              replies: seq<Reply>, maxTryTime: int, tree: OrderResult)
    requires QueryBudget(maxTryTime) <= |replies|
    requires PollFrom(replies, 0, maxTryTime).outcome == Ok(tree)
    ensures var r := Exec(sign, appid, secretKey, ts, Present(name, size), UploadBody(Some(id)), replies, maxTryTime);
            && (WellFormed(tree) ==> r.outcome == Ok(Sentence(tree)))
            && (!WellFormed(tree) ==> r.outcome.Raise? && r.outcome.fault.MalformedResult?)
            && |r.queries| == PollFrom(replies, 0, maxTryTime).queries
            && forall k :: 0 <= k < |r.queries| ==> r.queries[k].orderId == id
  {
  }
}
