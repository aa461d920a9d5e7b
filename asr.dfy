/** The speech-recognition service (asr.js): submitting a recognition task,
    polling its status until it settles, and the `/recognize` handler.
    The cloud SDK is replaced by the replies it gives: one reply for the
    task submission and a sequence of replies for the successive status
    queries. */
module Asr {
  import opened Js
  import opened Envelope

  // ---------------------------------------------------------------------------
  // Task submission (createRecTask)
  // ---------------------------------------------------------------------------

  /** The parameters of a CreateRecTask request. */
  datatype RecTaskParams = RecTaskParams(
    engineModelType: string,
    channelNum: int,
    resTextFormat: int,
    sourceType: int,
    url: string)

  /** The request is fixed but for the media URL: the 16 kHz Mandarin engine,
      one channel, plain-text result format, source given by URL. */
  function RecTaskRequest(url: string): RecTaskParams {
    RecTaskParams("16k_zh", 1, 0, 0, url)
  }

  /** `result.Data`; `taskId` is absent or a number (0 is falsy). */
  datatype CreateData = CreateData(taskId: Option<int>)
  datatype CreateResponse = CreateResponse(data: Option<CreateData>)

  /** What the SDK's CreateRecTask call settles with. A resolved reply may be
      falsy (`response == None`); `json` is its `JSON.stringify` rendering. */
  datatype CreateReply =
    | CreateThrew(message: string)
    | CreateReturned(response: Option<CreateResponse>, json: string)

  const CreateFormatError := "创建任务响应格式错误: "

  /** `result && result.Data && result.Data.TaskId` is truthy. */
  predicate HasTaskId(reply: CreateReply) {
    && reply.CreateReturned?
    && reply.response.Some?
    && reply.response.value.data.Some?
    && reply.response.value.data.value.taskId.Some?
    && reply.response.value.data.value.taskId.value != 0
  }

  /** createRecTask: the task id when the reply carries a truthy one; the
      SDK's own error when the call threw; a format error quoting the reply
      otherwise. */
  function CreateRecTask(reply: CreateReply): (r: Result<int>)
    ensures r.Ok? <==> HasTaskId(reply)
    ensures r.Ok? ==> r.value != 0 && reply.response.value.data.value.taskId == Some(r.value)
    ensures reply.CreateThrew? ==> r == Err(reply.message)
    ensures reply.CreateReturned? && r.Err? ==> r.message == CreateFormatError + reply.json
  {
    match reply
    case CreateThrew(message) => Err(message)
    case CreateReturned(response, json) =>
      if response.None? || response.value.data.None? then Err(CreateFormatError + json)
      else
        var taskId := response.value.data.value.taskId;
        if taskId.None? || taskId.value == 0 then Err(CreateFormatError + json)
        else Ok(taskId.value)
  }

  // ---------------------------------------------------------------------------
  // Status queries (getRecTaskResult) and their outcomes
  // ---------------------------------------------------------------------------

  /** `result.Data` of a DescribeTaskStatus reply. */
  datatype TaskStatus = TaskStatus(status: int, result: Option<string>, errorMsg: Option<string>)
  datatype StatusResponse = StatusResponse(data: Option<TaskStatus>)

  /** What one DescribeTaskStatus call settles with; `json` renders a falsy
      reply as `JSON.stringify` does. */
  datatype StatusReply =
    | QueryThrew(message: string)
    | QueryReturned(response: Option<StatusResponse>, json: string)

  const QueryFormatError := "查询任务响应格式错误: "
  /** The TypeError that reading `result.Data.Status` raises when `Data` is
      missing (`undefined`); a `null` `Data` is not told apart. */
  const MissingDataError := "Cannot read properties of undefined (reading 'Status')"

  /** The error a status query raises inside the poller's `try`, if any. */
  function QueryFailure(reply: StatusReply): (r: Option<string>)
    ensures r.None? <==> reply.QueryReturned? && reply.response.Some? && reply.response.value.data.Some?
    ensures reply.QueryThrew? ==> r == Some(reply.message)
    ensures reply.QueryReturned? && reply.response.None? ==> r == Some(QueryFormatError + reply.json)
    ensures reply.QueryReturned? && reply.response.Some? && reply.response.value.data.None? ==>
      r == Some(MissingDataError)
  {
    match reply
    case QueryThrew(message) => Some(message)
    case QueryReturned(response, json) =>
      if response.None? then Some(QueryFormatError + json)
      else if response.value.data.None? then Some(MissingDataError)
      else None
  }

  /** How the polling promise settles. */
  datatype PollOutcome =
    | Succeeded(data: TaskStatus)
    | Failed(message: string)
    | TimedOut
    | QueryFailed(message: string)

  const DefaultMaxAttempts := 60
  const TaskFailedPrefix := "识别任务失败: "
  const UnknownError := "未知错误"
  const TimeoutMessage := "任务超时"

  function FailureMessage(errorMsg: Option<string>): string {
    TaskFailedPrefix + OrElse(errorMsg, UnknownError)
  }

  /** The message of the Error a rejected polling promise carries. */
  function RejectionMessage(o: PollOutcome): string
    requires !o.Succeeded?
  {
    match o
    case Failed(message) => message
    case TimedOut => TimeoutMessage
    case QueryFailed(message) => message
  }

  /** The outcome one reply settles the poller on by itself, if any: a query
      error, status 2 (success) or status 3 (failure). */
  function Settles(reply: StatusReply): (r: Option<PollOutcome>)
    ensures QueryFailure(reply).Some? ==> r == Some(QueryFailed(QueryFailure(reply).value))
    ensures QueryFailure(reply).None? ==>
      var data := reply.response.value.data.value;
      && (data.status == 2 ==> r == Some(Succeeded(data)))
      && (data.status == 3 ==> r == Some(Failed(FailureMessage(data.errorMsg))))
      && (data.status != 2 && data.status != 3 ==> r.None?)
    ensures r.Some? ==> !r.value.TimedOut?
  {
    var failure := QueryFailure(reply);
    if failure.Some? then Some(QueryFailed(failure.value))
    else
      var data := reply.response.value.data.value;
      if data.status == 2 then Some(Succeeded(data))
      else if data.status == 3 then Some(Failed(FailureMessage(data.errorMsg)))
      else None
  }

  predicate Pending(reply: StatusReply) {
    Settles(reply).None?
  }

  // ---------------------------------------------------------------------------
  // The poller (pollTaskResult)
  // ---------------------------------------------------------------------------

  /** The number of queries that may be made: the attempt check follows the
      first query, so at least one is always made. */
  function Limit(maxAttempts: int): nat {
    if maxAttempts < 1 then 1 else maxAttempts
  }

  /** The settled outcome and the number of status queries issued. */
  datatype PollRun = PollRun(outcome: PollOutcome, queries: nat)

  /** The poller's behaviour from its (i+1)-th query on. */
  function PollFrom(replies: seq<StatusReply>, maxAttempts: int, i: nat): (r: PollRun)
    requires i < Limit(maxAttempts) <= |replies|
    ensures i < r.queries <= Limit(maxAttempts)
    decreases Limit(maxAttempts) - i
  {
    match Settles(replies[i])
    case Some(o) => PollRun(o, i + 1)
    case None =>
      if i + 1 >= maxAttempts then PollRun(TimedOut, i + 1)
      else PollFrom(replies, maxAttempts, i + 1)
  }

  /** The reference behaviour of the poller over the replies the SDK gives to
      its successive status queries. */
  function Poll(replies: seq<StatusReply>, maxAttempts: int): PollRun
    requires Limit(maxAttempts) <= |replies|
  {
    PollFrom(replies, maxAttempts, 0)
  }

  /** `resolve`/`reject` of a promise: only the first call has an effect. */
  function SettleOnce(settled: Option<PollOutcome>, o: PollOutcome): Option<PollOutcome> {
    if settled.Some? then settled else Some(o)
  }

  /** pollTaskResult: each loop iteration is one interval tick, whose query is
      answered by the next reply. `cleared` is the interval being cleared and
      `settled` the promise's state. The replies must cover every query the
      poller may make. */
  method PollTaskResult(replies: seq<StatusReply>, maxAttempts: int := DefaultMaxAttempts)
    returns (outcome: PollOutcome, queries: nat)
    requires Limit(maxAttempts) <= |replies|
    ensures PollRun(outcome, queries) == Poll(replies, maxAttempts)
  {
    var attempts := 0;
    var cleared := false;
    var settled: Option<PollOutcome> := None;
    queries := 0;
    while !cleared
      invariant attempts == queries || (cleared && attempts + 1 == queries)
      invariant queries <= Limit(maxAttempts)
      invariant !cleared ==> settled.None? && queries < Limit(maxAttempts)
      invariant !cleared ==> Poll(replies, maxAttempts) == PollFrom(replies, maxAttempts, queries)
      invariant cleared ==> settled.Some? && Poll(replies, maxAttempts) == PollRun(settled.value, queries)
      decreases Limit(maxAttempts) - queries
    {
      var reply := replies[queries];
      queries := queries + 1;
      var failure := QueryFailure(reply);
      if failure.Some? {
        // catch: clearInterval, reject(error)
        cleared := true;
        settled := SettleOnce(settled, QueryFailed(failure.value));
      } else {
        var data := reply.response.value.data.value;
        if data.status == 2 {
          cleared := true;
          settled := SettleOnce(settled, Succeeded(data));
        } else if data.status == 3 {
          cleared := true;
          settled := SettleOnce(settled, Failed(FailureMessage(data.errorMsg)));
        }
        attempts := attempts + 1;
        if attempts >= maxAttempts {
          cleared := true;
          settled := SettleOnce(settled, TimedOut);
        }
      }
    }
    outcome := settled.value;
  }

  // ---------------------------------------------------------------------------
  // Properties of the poller
  // ---------------------------------------------------------------------------

  lemma {:induction false} PollFromSettlesAt(replies: seq<StatusReply>, maxAttempts: int, i: nat, k: nat)
    requires i <= k < Limit(maxAttempts) <= |replies|
    requires forall j :: i <= j < k ==> Pending(replies[j])
    requires Settles(replies[k]).Some?
    ensures PollFrom(replies, maxAttempts, i) == PollRun(Settles(replies[k]).value, k + 1)
    decreases k - i
  {
    if i < k {
      assert Pending(replies[i]);
      PollFromSettlesAt(replies, maxAttempts, i + 1, k);
    }
  }

  /** The first reply that settles the poller decides the outcome, after
      exactly as many queries as its position; this holds on the last
      allowed attempt too, ahead of the timeout. */
  lemma FirstSettlingReplyWins(replies: seq<StatusReply>, maxAttempts: int, k: nat)
    requires Limit(maxAttempts) <= |replies| && k < Limit(maxAttempts)
    requires forall j :: 0 <= j < k ==> Pending(replies[j])
    requires Settles(replies[k]).Some?
    ensures Poll(replies, maxAttempts) == PollRun(Settles(replies[k]).value, k + 1)
  {
    PollFromSettlesAt(replies, maxAttempts, 0, k);
  }

  /** Status 2 at the first settling position k resolves with that reply's
      `Data` after exactly k+1 queries. */
  lemma SuccessAtFirstTerminal(replies: seq<StatusReply>, maxAttempts: int, k: nat, data: TaskStatus)
    requires Limit(maxAttempts) <= |replies| && k < Limit(maxAttempts)
    requires forall j :: 0 <= j < k ==> Pending(replies[j])
    requires replies[k].QueryReturned? && replies[k].response == Some(StatusResponse(Some(data)))
    requires data.status == 2
    ensures Poll(replies, maxAttempts) == PollRun(Succeeded(data), k + 1)
  {
    FirstSettlingReplyWins(replies, maxAttempts, k);
  }

  /** Status 3 at the first settling position rejects with the provider's
      message, or the generic one when it is missing or empty. */
  lemma FailureAtFirstTerminal(replies: seq<StatusReply>, maxAttempts: int, k: nat, data: TaskStatus)
    requires Limit(maxAttempts) <= |replies| && k < Limit(maxAttempts)
    requires forall j :: 0 <= j < k ==> Pending(replies[j])
    requires replies[k].QueryReturned? && replies[k].response == Some(StatusResponse(Some(data)))
    requires data.status == 3
    ensures Truthy(data.errorMsg) ==>
      Poll(replies, maxAttempts) == PollRun(Failed(TaskFailedPrefix + data.errorMsg.value), k + 1)
    ensures !Truthy(data.errorMsg) ==>
      Poll(replies, maxAttempts) == PollRun(Failed(TaskFailedPrefix + UnknownError), k + 1)
  {
    FirstSettlingReplyWins(replies, maxAttempts, k);
  }

  /** A failing query (the SDK throws, the reply is falsy or has no `Data`)
      stops polling at once with that error. */
  lemma QueryErrorStopsPolling(replies: seq<StatusReply>, maxAttempts: int, k: nat)
    requires Limit(maxAttempts) <= |replies| && k < Limit(maxAttempts)
    requires forall j :: 0 <= j < k ==> Pending(replies[j])
    requires QueryFailure(replies[k]).Some?
    ensures Poll(replies, maxAttempts) == PollRun(QueryFailed(QueryFailure(replies[k]).value), k + 1)
  {
    FirstSettlingReplyWins(replies, maxAttempts, k);
  }

  lemma {:induction false} PollFromTimesOut(replies: seq<StatusReply>, maxAttempts: int, i: nat)
    requires i < Limit(maxAttempts) <= |replies|
    requires forall j :: i <= j < Limit(maxAttempts) ==> Pending(replies[j])
    ensures PollFrom(replies, maxAttempts, i) == PollRun(TimedOut, Limit(maxAttempts))
    decreases Limit(maxAttempts) - i
  {
    assert Pending(replies[i]);
    if i + 1 < maxAttempts {
      PollFromTimesOut(replies, maxAttempts, i + 1);
    }
  }

  /** When no allowed query settles it, the poller times out after exactly
      the maximum number of queries. */
  lemma TimesOutAfterMaxAttempts(replies: seq<StatusReply>, maxAttempts: int)
    requires Limit(maxAttempts) <= |replies|
    requires forall j :: 0 <= j < Limit(maxAttempts) ==> Pending(replies[j])
    ensures Poll(replies, maxAttempts) == PollRun(TimedOut, Limit(maxAttempts))
  {
    PollFromTimesOut(replies, maxAttempts, 0);
  }

  lemma {:induction false} PollFromShape(replies: seq<StatusReply>, maxAttempts: int, i: nat)
    requires i < Limit(maxAttempts) <= |replies|
    ensures var r := PollFrom(replies, maxAttempts, i);
      && (forall j :: i <= j < r.queries - 1 ==> Pending(replies[j]))
      && (r.outcome.TimedOut? ==> r.queries == Limit(maxAttempts) && Pending(replies[r.queries - 1]))
      && (!r.outcome.TimedOut? ==> Settles(replies[r.queries - 1]) == Some(r.outcome))
    decreases Limit(maxAttempts) - i
  {
    if Pending(replies[i]) && i + 1 < maxAttempts {
      PollFromShape(replies, maxAttempts, i + 1);
    }
  }

  /** Every run of the poller has this shape: between one and the maximum
      number of queries, all but the last of them pending; the last settles
      the outcome, or the poller timed out on the last allowed query. */
  lemma PollOutcomeCharacterized(replies: seq<StatusReply>, maxAttempts: int)
    requires Limit(maxAttempts) <= |replies|
    ensures var r := Poll(replies, maxAttempts);
      && 1 <= r.queries <= Limit(maxAttempts)
      && (forall j :: 0 <= j < r.queries - 1 ==> Pending(replies[j]))
      && (r.outcome.TimedOut? <==> r.queries == Limit(maxAttempts) && Pending(replies[r.queries - 1]))
      && (!r.outcome.TimedOut? ==> Settles(replies[r.queries - 1]) == Some(r.outcome))
  {
    PollFromShape(replies, maxAttempts, 0);
  }

  lemma {:induction false} PollFromReadsOnlyItsQueries(a: seq<StatusReply>, b: seq<StatusReply>, maxAttempts: int, i: nat)
    requires i < Limit(maxAttempts) <= |a| && Limit(maxAttempts) <= |b|
    requires forall j :: i <= j < PollFrom(a, maxAttempts, i).queries ==> a[j] == b[j]
    ensures PollFrom(b, maxAttempts, i) == PollFrom(a, maxAttempts, i)
    decreases Limit(maxAttempts) - i
  {
    assert a[i] == b[i];
    if Pending(a[i]) && i + 1 < maxAttempts {
      PollFromReadsOnlyItsQueries(a, b, maxAttempts, i + 1);
    }
  }

  /** Polling stops once the promise settles: replies beyond the queries
      issued cannot influence the result. */
  lemma NoQueriesAfterSettling(a: seq<StatusReply>, b: seq<StatusReply>, maxAttempts: int)
    requires Limit(maxAttempts) <= |a| && Limit(maxAttempts) <= |b|
    requires a[..Poll(a, maxAttempts).queries] == b[..Poll(a, maxAttempts).queries]
    ensures Poll(b, maxAttempts) == Poll(a, maxAttempts)
  {
    var n := Poll(a, maxAttempts).queries;
    forall j | 0 <= j < n ensures a[j] == b[j] {
      assert a[..n][j] == b[..n][j];
    }
    PollFromReadsOnlyItsQueries(a, b, maxAttempts, 0);
  }

  // ---------------------------------------------------------------------------
  // The /recognize handler
  // ---------------------------------------------------------------------------

  /** The reply, the task submitted (if any) and the number of status
      queries made. */
  datatype RecognizeRun = RecognizeRun(reply: HttpReply, submitted: Option<RecTaskParams>, queries: nat)

  const RecognizedThoughts := "视频音频转文字完成"
  const NoResultText := "无识别结果"

  /** POST /recognize with body field `videoUrl`, given the submission reply
      and the replies to the status queries of the task (the default of 60
      attempts applies). */
  function Recognize(videoUrl: Option<string>, create: CreateReply, replies: seq<StatusReply>): (run: RecognizeRun)
    requires DefaultMaxAttempts <= |replies|
    ensures run.reply.status == 400 <==> !Truthy(videoUrl)
    ensures run.reply.status == 400 ==>
      && run.reply.toolCalls == [] && run.reply.thoughts == MissingUrlThoughts && run.reply.error == None
      && run.submitted == None && run.queries == 0
    ensures Truthy(videoUrl) ==> run.submitted == Some(RecTaskRequest(videoUrl.value))
    ensures run.reply.status == 200 || run.reply.status == 400 || run.reply.status == 500
    ensures run.reply.status == 500 ==> run.reply.error.Some? && run.reply.toolCalls == []
    ensures Truthy(videoUrl) && CreateRecTask(create).Err? ==>
      run.reply == FailureReply(CreateRecTask(create).message)
    ensures Truthy(videoUrl) && CreateRecTask(create).Ok? && !Poll(replies, DefaultMaxAttempts).outcome.Succeeded? ==>
      run.reply == FailureReply(RejectionMessage(Poll(replies, DefaultMaxAttempts).outcome))
    ensures run.reply.status == 200 ==>
      && run.reply.thoughts == RecognizedThoughts && run.reply.error == None
      && |run.reply.toolCalls| == 1
      && run.reply.toolCalls[0].TextCall?
      && run.reply.toolCalls[0].recognitionStatus == "success"
      && CreateRecTask(create) == Ok(run.reply.toolCalls[0].taskId)
    ensures run.queries <= DefaultMaxAttempts
    ensures !CreateRecTask(create).Ok? ==> run.queries == 0
    ensures Truthy(videoUrl) && CreateRecTask(create).Ok? ==> run.queries == Poll(replies, DefaultMaxAttempts).queries
  {
    if !Truthy(videoUrl) then
      RecognizeRun(HttpReply(400, MissingUrlThoughts, None, []), None, 0)
    else
      var params := RecTaskRequest(videoUrl.value);
      match CreateRecTask(create)
      case Err(message) => RecognizeRun(FailureReply(message), Some(params), 0)
      case Ok(taskId) =>
        var poll := Poll(replies, DefaultMaxAttempts);
        match poll.outcome
        case Succeeded(data) =>
          var text := TextCall(OrElse(data.result, NoResultText), "success", taskId);
          RecognizeRun(HttpReply(200, RecognizedThoughts, None, [text]), Some(params), poll.queries)
        case _ => RecognizeRun(FailureReply(RejectionMessage(poll.outcome)), Some(params), poll.queries)
  }

  /** A successful recognition reports the transcript (or the placeholder
      when it is missing or empty) of the first reply with status 2. */
  lemma RecognizeSuccess(videoUrl: Option<string>, create: CreateReply, replies: seq<StatusReply>)
    requires DefaultMaxAttempts <= |replies|
    ensures var run := Recognize(videoUrl, create, replies);
      run.reply.status == 200 <==>
        Truthy(videoUrl) && CreateRecTask(create).Ok? && Poll(replies, DefaultMaxAttempts).outcome.Succeeded?
    ensures var run := Recognize(videoUrl, create, replies);
      run.reply.status == 200 ==>
        exists k, data :: 0 <= k < run.queries && k < |replies| &&
          Settles(replies[k]) == Some(Succeeded(data)) &&
          run.reply.toolCalls[0].content == OrElse(data.result, NoResultText)
  {
    var run := Recognize(videoUrl, create, replies);
    if run.reply.status == 200 {
      PollOutcomeCharacterized(replies, DefaultMaxAttempts);
      var k := Poll(replies, DefaultMaxAttempts).queries - 1;
      assert Settles(replies[k]) == Some(Succeeded(Poll(replies, DefaultMaxAttempts).outcome.data));
    }
  }

  /** The provider answers the first status query with status 3 and
      `ErrorMsg: "bad audio"`: the handler answers 500 quoting it, after one
      query. */
  lemma RecognizeReportsProviderFailure(url: string, create: CreateReply, replies: seq<StatusReply>, result: Option<string>)
    requires url != "" && HasTaskId(create) && DefaultMaxAttempts <= |replies|
    requires replies[0] == QueryReturned(Some(StatusResponse(Some(TaskStatus(3, result, Some("bad audio"))))), "")
    ensures Recognize(Some(url), create, replies).reply == FailureReply("识别任务失败: bad audio")
    ensures Recognize(Some(url), create, replies).queries == 1
  {
    FailureAtFirstTerminal(replies, DefaultMaxAttempts, 0, TaskStatus(3, result, Some("bad audio")));
    assert TaskFailedPrefix + "bad audio" == "识别任务失败: bad audio";
  }
}
