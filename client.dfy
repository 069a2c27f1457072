/**
 * The client object: building requests against its configuration (caching
 * the idempotency key in the options object) and running the retry loop,
 * recording what it sends and how long it sleeps. One class serves both
 * `SyncAPIClient` and `AsyncAPIClient`; `variant` says which.
 */
module Client {
  import opened Wrappers
  import opened Text
  import opened Mappings
  import opened Http
  import opened RetryPolicy
  import opened Build
  import opened Executor

  class APIClient {
    const variant: Variant
    const config: ClientConfig
    /** Every request handed to the transport, in order. */
    var sent: seq<WireRequest>
    /** Every delay passed to `sleep`, in order. */
    var sleeps: seq<real>

    constructor (variant: Variant, config: ClientConfig)
      ensures this.variant == variant && this.config == config
      ensures sent == [] && sleeps == []
    {
      this.variant := variant;
      this.config := config;
      sent := [];
      sleeps := [];
    }

    /** `_build_headers`: may cache a fresh key (from `uuid`) in `options`. */
    method BuildHeaders(options: RequestOptions, uuid: string) returns (headers: map<string, string>)
      modifies options
      ensures var b := BuiltHeaders(config, old(options.Value()), IdempotencyKey(uuid));
        headers == b.headers && options.Value() == old(options.Value()).(idempotencyKey := b.key)
    {
      headers := MergeMappings(config.defaultHeaders, options.headers);
      var header := config.idempotencyHeader;
      if header.Some? && header.value != "" && Lower(options.httpMethod) != "get" && header.value !in headers {
        if options.idempotencyKey.None? || options.idempotencyKey.value == "" {
          options.idempotencyKey := Some(IdempotencyKey(uuid));
        }
        headers := headers[header.value := options.idempotencyKey.value];
      }
    }

    /** `_serialize_multipartform` on the flattened body. */
    method SerializeMultipartForm(data: map<string, Json>) returns (r: Result<map<string, string>, BuildError>)
      ensures r == SerializedForm(config.stringifyItems(data))
    {
      var items := config.stringifyItems(data);
      var serialized: map<string, string> := map[];
      var i := 0;
      while i < |items|
        invariant 0 <= i <= |items|
        invariant SerializedForm(items[..i]) == Ok(serialized)
      {
        var (key, value) := items[i];
        SerializedFormStep(items, i);
        if key in serialized {
          SerializedFormErrorSticks(items, i + 1);
          return Err(DuplicateKey(key));
        }
        serialized := serialized[key := value];
        i := i + 1;
      }
      assert items[..i] == items;
      return Ok(serialized);
    }

    /** `_build_request`: the wire request, or the error raised while building it. */
    method BuildRequest(options: RequestOptions, uuid: string) returns (r: Result<WireRequest, BuildError>)
      modifies options
      ensures var b := BuiltRequest(config, old(options.Value()), IdempotencyKey(uuid));
        r == b.request && options.Value() == old(options.Value()).(idempotencyKey := b.key)
    {
      var headers := BuildHeaders(options, uuid);
      var body := MergeBody(options.jsonData, options.extraJson);
      if body.Err? {
        return Err(body.error);
      }
      var json := body.value;
      var params := MergeMappings(Lift(config.customQuery), Lift(options.params));
      var data: Option<map<string, string>> := None;
      if "Content-Type" in headers && headers["Content-Type"] == "multipart/form-data" {
        headers := headers - {"Content-Type"};
        if json.Some? && Truthy(json.value) {
          if !json.value.JObject? {
            return Err(MultipartBodyNotDict);
          }
          var form := SerializeMultipartForm(json.value.fields);
          if form.Err? {
            return Err(form.error);
          }
          data := Some(form.value);
        }
      }
      var timeout := if options.timeout.NotGiven? then config.timeout else options.timeout;
      return Ok(WireRequest(options.httpMethod, options.url, headers, params, json, data, timeout));
    }

    /**
     * One pass of `_request`: build the request (caching the key in
     * `options`), send it, and handle the outcome; a retried failure ends
     * with the `_retry_request` sleep and `done` false.
     */
    method Attempt(options: RequestOptions, retries: int, call: Call, env: Env, attempt: nat)
      returns (done: bool, ending: Ending)
      requires ValidEnv(env)
      modifies this, options
      ensures var b := BuiltRequest(config, old(options.Value()), IdempotencyKey(env.uuid(attempt)));
        && options.Value() == old(options.Value()).(idempotencyKey := b.key)
        && (b.request.Err? ==> done && ending == NotBuilt(b.request.error) && sent == old(sent) && sleeps == old(sleeps))
        && (b.request.Ok? ==>
              var s := Decide(variant, env.transport(attempt), retries);
              && sent == old(sent) + [b.request.value]
              && (done <==> s.Finish?)
              && (s.Finish? ==> ending == s.ending && sleeps == old(sleeps))
              && (s.Retry? ==> sleeps == old(sleeps) + [RetryDelay(call.maxRetries, retries - 1, s.headers, env.jitter(attempt))]))
    {
      var request := BuildRequest(options, env.uuid(attempt));
      if request.Err? {
        return true, NotBuilt(request.error);
      }
      sent := sent + [request.value];
      var step := Decide(variant, env.transport(attempt), retries);
      if step.Finish? {
        return true, step.ending;
      }
      sleeps := sleeps + [RetryDelay(call.maxRetries, retries - 1, step.headers, env.jitter(attempt))];
      return false, ConnectionFailed;
    }

    /**
     * `_request` with its `_retry_request` recursion as a loop over the
     * attempts, each with one retry fewer than the last.
     */
    method Request(options: RequestOptions, remainingRetries: Option<int>, call: Call, env: Env)
      returns (result: Result<Returned, ApiError>)
      requires ValidEnv(env)
      modifies this, options
      ensures var t := Execute(variant, config, old(options.Value()), remainingRetries, call, env);
        && result == Surface(config, call, t.ending)
        && sent == old(sent) + t.sent && sleeps == old(sleeps) + t.sleeps
        && options.Value() == old(options.Value()).(idempotencyKey := t.key)
    {
      ghost var whole := Execute(variant, config, options.Value(), remainingRetries, call, env);
      ghost var start := options.Value();
      var retries := RemainingRetries(remainingRetries, call.maxRetries);
      var attempt: nat := 0;
      while true
        invariant options.Value() == start.(idempotencyKey := options.idempotencyKey)
        invariant var rest := Run(variant, config, options.Value(), retries, call, env, attempt);
          && whole.ending == rest.ending && whole.key == rest.key
          && old(sent) + whole.sent == sent + rest.sent
          && old(sleeps) + whole.sleeps == sleeps + rest.sleeps
        decreases if retries > 0 then retries else 0
      {
        ghost var before, sentBefore, sleptBefore := options.Value(), sent, sleeps;
        var done, ending := Attempt(options, retries, call, env, attempt);
        if done {
          RunStops(variant, config, before, retries, call, env, attempt);
          return Surface(config, call, ending);
        }
        RunContinues(variant, config, before, retries, call, env, attempt, sentBefore, sleptBefore);
        retries := retries - 1;
        attempt := attempt + 1;
      }
    }
  }
}
