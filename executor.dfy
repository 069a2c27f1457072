/**
 * The retry loop of `SyncAPIClient._request` / `_retry_request` and of
 * their async counterparts, stated as a function of a scripted transport.
 * The transport's outcome and the random draw of each attempt are given by
 * the attempt's number; sleeping is recorded as the requested delay. The
 * loop itself only decides how a call ends; `Surface` then turns that
 * ending into the value returned or the exception raised.
 */
module Executor {
  import opened Wrappers
  import opened Http
  import opened Errors
  import opened RetryPolicy
  import opened Decode
  import opened Build

  /** What sending one request produced. `StatusErr` is a 4xx/5xx response (`raise_for_status` raised). */
  datatype Outcome =
    | Received(response: HttpResponse)
    | StatusErr(response: HttpResponse)
    | ConnectTimeout
    | ReadTimeout
    | OtherTimeout        // any other `httpx.TimeoutException`
    | OtherFailure        // any other exception from the transport

  /** The two executors differ only in how they treat a read timeout. */
  datatype Variant = Sync | Async

  /**
   * The transport script and the random draws, one per attempt: the
   * `random()` value for the retry delay and the `uuid4()` value
   * `_idempotency_key` would use if the options held no key.
   */
  datatype Env = Env(transport: nat -> Outcome, jitter: nat -> real, uuid: nat -> string)

  ghost predicate ValidEnv(env: Env)
  {
    forall i: nat :: 0.0 <= env.jitter(i) < 1.0
  }

  /**
   * One call's fixed arguments: the result type, whether to stream, whether
   * an explicit stream class was given, and the call's maximum retries
   * (`options.get_max_retries(self.max_retries)`).
   */
  datatype Call = Call(castTo: ResultType, stream: bool, hasStreamClass: bool, maxRetries: int)

  /** How a call ended, before it is turned into a value or an exception. */
  datatype Ending =
    | NotBuilt(buildError: BuildError)        // `_build_request` raised
    | Responded(response: HttpResponse)       // a successful send
    | StatusFailure(response: HttpResponse)   // a status error not retried
    | TimedOut                                // a timeout not retried
    | ConnectionFailed                        // another transport failure not retried
    | ReadTimedOut                            // async only: a read timeout, never retried

  datatype ApiError =
    | BuildFailed(buildError: BuildError)     // raised by `_build_request`
    | APIStatus(statusError: StatusError)     // `_make_status_error_from_response`
    | APITimeout
    | APIConnection
    | ReadTimeoutRaised                       // async only: `httpx.ReadTimeout` re-raised
    | MissingStreamClass
    | ResponseValidation                      // `APIResponseValidationError`
    | DecodeFailed(decodeError: DecodeError)  // any other error out of `_process_response`

  datatype Returned = StreamOf(response: HttpResponse) | Value(decoded: Decoded)

  /** What one attempt decides: retry (with the response headers, if any) or end. */
  datatype Step = Retry(headers: Option<map<string, string>>) | Finish(ending: Ending)

  /** The exception handlers of `_request`, given the retries left. */
  function Decide(v: Variant, outcome: Outcome, retries: int): (s: Step)
    ensures s.Retry? ==> retries > 0
    ensures outcome.Received? ==> s == Finish(Responded(outcome.response))
    ensures outcome.StatusErr? ==>
      && (s.Retry? <==> retries > 0 && ShouldRetry(outcome.response))
      && (s.Retry? ==> s.headers == Some(outcome.response.headers))
      && (s.Finish? ==> s.ending == StatusFailure(outcome.response))
    ensures outcome.ReadTimeout? && v == Async ==> s == Finish(ReadTimedOut)
    ensures (outcome.ConnectTimeout? || outcome.OtherTimeout? || (outcome.ReadTimeout? && v == Sync)) ==>
      s == if retries > 0 then Retry(None) else Finish(TimedOut)
    ensures outcome.OtherFailure? ==> s == if retries > 0 then Retry(None) else Finish(ConnectionFailed)
  {
    match outcome
    case Received(response) => Finish(Responded(response))
    case StatusErr(response) =>
      if retries > 0 && ShouldRetry(response) then Retry(Some(response.headers)) else Finish(StatusFailure(response))
    case ReadTimeout =>
      if v == Async then Finish(ReadTimedOut)
      else if retries > 0 then Retry(None) else Finish(TimedOut)
    case ConnectTimeout => if retries > 0 then Retry(None) else Finish(TimedOut)
    case OtherTimeout => if retries > 0 then Retry(None) else Finish(TimedOut)
    case OtherFailure => if retries > 0 then Retry(None) else Finish(ConnectionFailed)
  }

  /** The result of a successful send: a stream, or the processed response. */
  function Success(cfg: ClientConfig, call: Call, response: HttpResponse): (r: Result<Returned, ApiError>)
    ensures call.stream ==> (r.Ok? <==> call.hasStreamClass || cfg.hasDefaultStreamClass)
    ensures call.stream && r.Ok? ==> r.value == StreamOf(response)
    ensures call.stream && r.Err? ==> r.error == MissingStreamClass
    ensures !call.stream ==>
      var p := ProcessResponse(call.castTo, response, cfg.strictResponseValidation, cfg.decoders);
      && (p.Ok? ==> r == Ok(Value(p.value)))
      && (p == Err(ValidationFailed) ==> r == Err(ResponseValidation))
      && (p.Err? && p.error != ValidationFailed ==> r == Err(DecodeFailed(p.error)))
  {
    if call.stream then
      if call.hasStreamClass || cfg.hasDefaultStreamClass then Ok(StreamOf(response)) else Err(MissingStreamClass)
    else
      match ProcessResponse(call.castTo, response, cfg.strictResponseValidation, cfg.decoders)
      case Ok(d) => Ok(Value(d))
      case Err(ValidationFailed) => Err(ResponseValidation)
      case Err(e) => Err(DecodeFailed(e))
  }

  /** What `_request` returns or raises for each way a call can end. */
  function Surface(cfg: ClientConfig, call: Call, ending: Ending): (r: Result<Returned, ApiError>)
    ensures ending.Responded? ==> r == Success(cfg, call, ending.response)
    ensures ending.StatusFailure? ==>
      && r == Err(APIStatus(MakeStatusErrorFromResponse(ending.response, cfg.decoders.parseJson)))
      && r.error.statusError.kind == MakeStatusError(ending.response.status)
    ensures r == Err(APITimeout) <==> ending == TimedOut
    ensures r == Err(APIConnection) <==> ending == ConnectionFailed
    ensures r == Err(ReadTimeoutRaised) <==> ending == ReadTimedOut
    ensures (r.Err? && r.error.BuildFailed?) <==> ending.NotBuilt?
    ensures ending.NotBuilt? ==> r == Err(BuildFailed(ending.buildError))
  {
    match ending
    case NotBuilt(e) => Err(BuildFailed(e))
    case Responded(response) => Success(cfg, call, response)
    case StatusFailure(response) => Err(APIStatus(MakeStatusErrorFromResponse(response, cfg.decoders.parseJson)))
    case TimedOut => Err(APITimeout)
    case ConnectionFailed => Err(APIConnection)
    case ReadTimedOut => Err(ReadTimeoutRaised)
  }

  /**
   * What a call did: how it ended, every request handed to the transport,
   * every delay slept, and the idempotency key the options hold at the end.
   */
  datatype Trace = Trace(ending: Ending, sent: seq<WireRequest>, sleeps: seq<real>, key: Option<string>)

  /**
   * `_request` with `retries` left, from attempt number `attempt`: build the
   * request (caching the key in the options), send it, and either end or
   * sleep and go again with one retry fewer.
   */
  function Run(v: Variant, cfg: ClientConfig, o: Options, retries: int, call: Call, env: Env, attempt: nat): (t: Trace)
    requires ValidEnv(env)
    decreases if retries > 0 then retries else 0
  {
    var b := BuiltRequest(cfg, o, IdempotencyKey(env.uuid(attempt)));
    match b.request
    case Err(e) => Trace(NotBuilt(e), [], [], b.key)
    case Ok(request) =>
      match Decide(v, env.transport(attempt), retries)
      case Finish(ending) => Trace(ending, [request], [], b.key)
      case Retry(headers) =>
        var delay := RetryDelay(call.maxRetries, retries - 1, headers, env.jitter(attempt));
        var rest := Run(v, cfg, o.(idempotencyKey := b.key), retries - 1, call, env, attempt + 1);
        Trace(rest.ending, [request] + rest.sent, [delay] + rest.sleeps, rest.key)
  }

  /** A whole call: `_remaining_retries` settles the budget, then attempt 0. */
  function Execute(v: Variant, cfg: ClientConfig, o: Options, remainingRetries: Option<int>, call: Call, env: Env): (t: Trace)
    requires ValidEnv(env)
    ensures var budget := RemainingRetries(remainingRetries, call.maxRetries);
      && |t.sent| <= (if budget > 0 then budget else 0) + 1
      && (t.sent != [] ==> |t.sleeps| + 1 == |t.sent|)
      && (forall d :: d in t.sleeps ==> 0.0 <= d <= 60.0)
  {
    var budget := RemainingRetries(remainingRetries, call.maxRetries);
    SendsBounded(v, cfg, o, budget, call, env, 0);
    SleepsBounded(v, cfg, o, budget, call, env, 0);
    Run(v, cfg, o, budget, call, env, 0)
  }

  /** A run whose first attempt fails to build, or ends, stops there. */
  lemma RunStops(v: Variant, cfg: ClientConfig, o: Options, retries: int, call: Call, env: Env, attempt: nat)
    requires ValidEnv(env)
    ensures var b := BuiltRequest(cfg, o, IdempotencyKey(env.uuid(attempt)));
      var t := Run(v, cfg, o, retries, call, env, attempt);
      var s := Decide(v, env.transport(attempt), retries);
      && (b.request.Err? ==> t == Trace(NotBuilt(b.request.error), [], [], b.key))
      && (b.request.Ok? && s.Finish? ==> t == Trace(s.ending, [b.request.value], [], b.key))
  {
  }

  /**
   * A run whose first attempt retries is that attempt's send and sleep
   * followed by the run from the next attempt, after any earlier history.
   */
  lemma RunContinues(v: Variant, cfg: ClientConfig, o: Options, retries: int, call: Call, env: Env, attempt: nat,
                     sentBefore: seq<WireRequest>, sleptBefore: seq<real>)
    requires ValidEnv(env)
    requires BuiltRequest(cfg, o, IdempotencyKey(env.uuid(attempt))).request.Ok?
    requires Decide(v, env.transport(attempt), retries).Retry?
    ensures var b := BuiltRequest(cfg, o, IdempotencyKey(env.uuid(attempt)));
      var s := Decide(v, env.transport(attempt), retries);
      var t := Run(v, cfg, o, retries, call, env, attempt);
      var rest := Run(v, cfg, o.(idempotencyKey := b.key), retries - 1, call, env, attempt + 1);
      && t.ending == rest.ending && t.key == rest.key
      && sentBefore + t.sent == (sentBefore + [b.request.value]) + rest.sent
      && sleptBefore + t.sleeps == (sleptBefore + [RetryDelay(call.maxRetries, retries - 1, s.headers, env.jitter(attempt))]) + rest.sleeps
  {
    var b := BuiltRequest(cfg, o, IdempotencyKey(env.uuid(attempt)));
    var s := Decide(v, env.transport(attempt), retries);
    var rest := Run(v, cfg, o.(idempotencyKey := b.key), retries - 1, call, env, attempt + 1);
    var delay := RetryDelay(call.maxRetries, retries - 1, s.headers, env.jitter(attempt));
    assert Run(v, cfg, o, retries, call, env, attempt) == Trace(rest.ending, [b.request.value] + rest.sent, [delay] + rest.sleeps, rest.key);
    assert sentBefore + ([b.request.value] + rest.sent) == (sentBefore + [b.request.value]) + rest.sent;
    assert sleptBefore + ([delay] + rest.sleeps) == (sleptBefore + [delay]) + rest.sleeps;
  }

  /** The budget bounds the sends: at most `retries + 1`, one sleep between consecutive sends, none after the last. */
  lemma {:induction false} SendsBounded(v: Variant, cfg: ClientConfig, o: Options, retries: int, call: Call, env: Env, attempt: nat)
    requires ValidEnv(env)
    ensures var t := Run(v, cfg, o, retries, call, env, attempt);
      && |t.sent| <= (if retries > 0 then retries else 0) + 1
      && (t.ending.NotBuilt? ==> t.sent == [] && t.sleeps == [])
      && (t.sent != [] ==> |t.sleeps| + 1 == |t.sent|)
    decreases if retries > 0 then retries else 0
  {
    var b := BuiltRequest(cfg, o, IdempotencyKey(env.uuid(attempt)));
    if b.request.Ok? && Decide(v, env.transport(attempt), retries).Retry? {
      var o' := o.(idempotencyKey := b.key);
      SendsBounded(v, cfg, o', retries - 1, call, env, attempt + 1);
      RebuiltRequestIsSame(cfg, o, IdempotencyKey(env.uuid(attempt)), IdempotencyKey(env.uuid(attempt + 1)));
    }
  }

  /**
   * Every retry sends the very request of the first attempt, idempotency key
   * included, and the options end up holding that key.
   */
  lemma {:induction false} RetriesResendSameRequest(v: Variant, cfg: ClientConfig, o: Options, retries: int, call: Call, env: Env, attempt: nat)
    requires ValidEnv(env)
    ensures var b := BuiltRequest(cfg, o, IdempotencyKey(env.uuid(attempt)));
      var t := Run(v, cfg, o, retries, call, env, attempt);
      && t.key == b.key
      && forall i :: 0 <= i < |t.sent| ==> b.request == Ok(t.sent[i])
    decreases if retries > 0 then retries else 0
  {
    var b := BuiltRequest(cfg, o, IdempotencyKey(env.uuid(attempt)));
    if b.request.Ok? && Decide(v, env.transport(attempt), retries).Retry? {
      var o' := o.(idempotencyKey := b.key);
      RebuiltRequestIsSame(cfg, o, IdempotencyKey(env.uuid(attempt)), IdempotencyKey(env.uuid(attempt + 1)));
      RetriesResendSameRequest(v, cfg, o', retries - 1, call, env, attempt + 1);
    }
  }

  /** A status error that is not retried, or met with no budget left, surfaces classified after a single send. */
  lemma StatusErrorSurfaces(v: Variant, cfg: ClientConfig, o: Options, retries: int, call: Call, env: Env, attempt: nat)
    requires ValidEnv(env)
    requires BuiltRequest(cfg, o, IdempotencyKey(env.uuid(attempt))).request.Ok?
    requires env.transport(attempt).StatusErr?
    requires retries <= 0 || !ShouldRetry(env.transport(attempt).response)
    ensures var response := env.transport(attempt).response;
      var t := Run(v, cfg, o, retries, call, env, attempt);
      && Surface(cfg, call, t.ending) == Err(APIStatus(MakeStatusErrorFromResponse(response, cfg.decoders.parseJson)))
      && |t.sent| == 1 && t.sleeps == []
  {
  }

  /** The async executor never retries a read timeout; the sync one retries it while budget remains. */
  lemma ReadTimeoutHandling(cfg: ClientConfig, o: Options, retries: int, call: Call, env: Env, attempt: nat)
    requires ValidEnv(env)
    requires BuiltRequest(cfg, o, IdempotencyKey(env.uuid(attempt))).request.Ok?
    requires env.transport(attempt) == ReadTimeout
    ensures var t := Run(Async, cfg, o, retries, call, env, attempt);
      Surface(cfg, call, t.ending) == Err(ReadTimeoutRaised) && |t.sent| == 1 && t.sleeps == []
    ensures var t := Run(Sync, cfg, o, retries, call, env, attempt);
      && (retries <= 0 ==> Surface(cfg, call, t.ending) == Err(APITimeout) && |t.sent| == 1)
      && (retries > 0 ==> |t.sleeps| >= 1 && |t.sent| >= 2)
  {
    if retries > 0 {
      var b := BuiltRequest(cfg, o, IdempotencyKey(env.uuid(attempt)));
      RebuiltRequestIsSame(cfg, o, IdempotencyKey(env.uuid(attempt)), IdempotencyKey(env.uuid(attempt + 1)));
      assert BuiltRequest(cfg, o.(idempotencyKey := b.key), IdempotencyKey(env.uuid(attempt + 1))).request.Ok?;
    }
  }

  /** Without read timeouts the two executors behave identically. */
  lemma {:induction false} VariantsAgree(cfg: ClientConfig, o: Options, retries: int, call: Call, env: Env, attempt: nat)
    requires ValidEnv(env)
    requires forall i: nat :: env.transport(i) != ReadTimeout
    ensures Run(Sync, cfg, o, retries, call, env, attempt) == Run(Async, cfg, o, retries, call, env, attempt)
    decreases if retries > 0 then retries else 0
  {
    var b := BuiltRequest(cfg, o, IdempotencyKey(env.uuid(attempt)));
    var outcome := env.transport(attempt);
    assert outcome != ReadTimeout;
    assert Decide(Sync, outcome, retries) == Decide(Async, outcome, retries);
    if b.request.Ok? && Decide(Sync, outcome, retries).Retry? {
      VariantsAgree(cfg, o.(idempotencyKey := b.key), retries - 1, call, env, attempt + 1);
    }
  }

  /** Every delay slept is the server's own `retry-after` of at most 60 seconds, or a backoff under 2.5 seconds. */
  lemma {:induction false} SleepsBounded(v: Variant, cfg: ClientConfig, o: Options, retries: int, call: Call, env: Env, attempt: nat)
    requires ValidEnv(env)
    ensures forall d :: d in Run(v, cfg, o, retries, call, env, attempt).sleeps ==> 0.0 <= d <= 60.0
    decreases if retries > 0 then retries else 0
  {
    var b := BuiltRequest(cfg, o, IdempotencyKey(env.uuid(attempt)));
    var s := Decide(v, env.transport(attempt), retries);
    if b.request.Ok? && s.Retry? {
      var o' := o.(idempotencyKey := b.key);
      SleepsBounded(v, cfg, o', retries - 1, call, env, attempt + 1);
      var delay := RetryDelay(call.maxRetries, retries - 1, s.headers, env.jitter(attempt));
      assert Run(v, cfg, o, retries, call, env, attempt).sleeps == [delay] + Run(v, cfg, o', retries - 1, call, env, attempt + 1).sleeps;
    }
  }

  /** A transport that only ever times out exhausts the budget exactly: `retries + 1` sends, then a timeout error. */
  lemma {:induction false} TimeoutsExhaustBudget(v: Variant, cfg: ClientConfig, o: Options, retries: nat, call: Call, env: Env, attempt: nat)
    requires ValidEnv(env)
    requires BuiltRequest(cfg, o, IdempotencyKey(env.uuid(attempt))).request.Ok?
    requires forall i: nat :: env.transport(i) == ConnectTimeout
    ensures var t := Run(v, cfg, o, retries, call, env, attempt);
      Surface(cfg, call, t.ending) == Err(APITimeout) && |t.sent| == retries + 1 && |t.sleeps| == retries
    decreases retries
  {
    if retries > 0 {
      var b := BuiltRequest(cfg, o, IdempotencyKey(env.uuid(attempt)));
      RebuiltRequestIsSame(cfg, o, IdempotencyKey(env.uuid(attempt)), IdempotencyKey(env.uuid(attempt + 1)));
      TimeoutsExhaustBudget(v, cfg, o.(idempotencyKey := b.key), retries - 1, call, env, attempt + 1);
    }
  }

  /**
   * A connect timeout followed by a successful response: the call succeeds
   * after two sends and one backoff sleep computed without response headers.
   */
  lemma ConnectTimeoutThenSuccess(v: Variant, cfg: ClientConfig, o: Options, retries: int, call: Call, env: Env, response: HttpResponse)
    requires ValidEnv(env)
    requires retries >= 1
    requires BuiltRequest(cfg, o, IdempotencyKey(env.uuid(0))).request.Ok?
    requires env.transport(0) == ConnectTimeout && env.transport(1) == Received(response)
    ensures var t := Run(v, cfg, o, retries, call, env, 0);
      && Surface(cfg, call, t.ending) == Success(cfg, call, response)
      && |t.sent| == 2
      && t.sleeps == [RetryDelay(call.maxRetries, retries - 1, None, env.jitter(0))]
      && 0.0 <= t.sleeps[0] < 2.5
  {
    var b := BuiltRequest(cfg, o, IdempotencyKey(env.uuid(0)));
    RebuiltRequestIsSame(cfg, o, IdempotencyKey(env.uuid(0)), IdempotencyKey(env.uuid(1)));
    NoHeadersMeansBackoff(call.maxRetries, retries - 1, env.jitter(0));
  }

  /** An explicit remaining-retries count of zero means exactly one send and no sleep. */
  lemma NoRetriesLeftSendsOnce(v: Variant, cfg: ClientConfig, o: Options, call: Call, env: Env)
    requires ValidEnv(env)
    requires BuiltRequest(cfg, o, IdempotencyKey(env.uuid(0))).request.Ok?
    ensures var t := Execute(v, cfg, o, Some(0), call, env);
      |t.sent| == 1 && t.sleeps == []
  {
  }
}
