/**
 * Building a wire request from request options (`_build_headers`,
 * `_build_request`, `_serialize_multipartform`), stated as functions of the
 * client configuration and the options' value. The client methods that
 * run these steps are in module Client.
 */
module Build {
  import opened Wrappers
  import opened Text
  import opened Mappings
  import opened Http
  import opened Platform
  import opened Decode

  /**
   * The client's read-only configuration. `stringifyItems` is
   * `Querystring.stringify_items(..., array_format="brackets")`, the
   * flattening of a multipart body into key/value pairs.
   */
  datatype ClientConfig = ClientConfig(
    defaultHeaders: map<string, Slot<string>>,
    customQuery: map<string, string>,
    timeout: Timeout,
    idempotencyHeader: Option<string>,
    strictResponseValidation: bool,
    hasDefaultStreamClass: bool,
    stringifyItems: map<string, Json> -> seq<(string, string)>,
    decoders: Decoders)

  /** `user_agent`: `{class name}/Python {version}`. */
  function UserAgent(className: string, version: string): (u: string)
    ensures |u| == |className| + |"/Python "| + |version|
    ensures u[..|className|] == className && u[|u| - |version|..] == version
    ensures u[|className|..|u| - |version|] == "/Python "
  {
    className + "/Python " + version
  }

  /** `platform_headers()`, given the classified platform and the runtime's name and version. */
  function PlatformHeaders(version: string, os: OperatingSystem, arch: Arch, runtime: string, runtimeVersion: string): (h: map<string, string>)
    ensures "X-Stainless-OS" in h && h["X-Stainless-OS"] == PlatformName(os)
    ensures "X-Stainless-Arch" in h && h["X-Stainless-Arch"] == ArchName(arch)
    ensures "X-Stainless-Lang" in h && h["X-Stainless-Lang"] == "python"
    ensures "X-Stainless-Package-Version" in h && h["X-Stainless-Package-Version"] == version
    ensures "X-Stainless-Runtime" in h && h["X-Stainless-Runtime"] == runtime
    ensures "X-Stainless-Runtime-Version" in h && h["X-Stainless-Runtime-Version"] == runtimeVersion
    ensures h.Keys == {"X-Stainless-Lang", "X-Stainless-Package-Version", "X-Stainless-OS", "X-Stainless-Arch",
                       "X-Stainless-Runtime", "X-Stainless-Runtime-Version"}
  {
    map[
      "X-Stainless-Lang" := "python",
      "X-Stainless-Package-Version" := version,
      "X-Stainless-OS" := PlatformName(os),
      "X-Stainless-Arch" := ArchName(arch),
      "X-Stainless-Runtime" := runtime,
      "X-Stainless-Runtime-Version" := runtimeVersion]
  }

  /**
   * `default_headers`: the JSON content type and the user agent, then the
   * platform headers, the auth headers and the client's custom headers,
   * each layer overriding the ones before it.
   */
  function DefaultHeaders(userAgent: string, platform: map<string, string>, auth: map<string, string>, custom: map<string, Slot<string>>): (h: map<string, Slot<string>>)
    ensures h.Keys == {"Content-Type", "User-Agent"} + platform.Keys + auth.Keys + custom.Keys
    ensures forall k :: k in custom ==> h[k] == custom[k]
    ensures forall k :: k in auth && k !in custom ==> h[k] == Given(auth[k])
    ensures forall k :: k in platform && k !in auth && k !in custom ==> h[k] == Given(platform[k])
    ensures "Content-Type" !in platform + auth && "Content-Type" !in custom ==> h["Content-Type"] == Given("application/json")
    ensures "User-Agent" !in platform + auth && "User-Agent" !in custom ==> h["User-Agent"] == Given(userAgent)
  {
    map["Content-Type" := Given("application/json"), "User-Agent" := Given(userAgent)]
      + Lift(platform) + Lift(auth) + custom
  }

  const IdempotencyKeyPrefix := "stainless-python-retry-"

  /** `_idempotency_key`: a fresh key built from a random UUID. */
  function IdempotencyKey(uuid: string): (k: string)
    ensures |k| > |uuid| && k[|k| - |uuid|..] == uuid
    ensures k[..|k| - |uuid|] == IdempotencyKeyPrefix
  {
    IdempotencyKeyPrefix + uuid
  }

  /** A key counts as missing when it is `None` or empty (`not options.idempotency_key`). */
  predicate KeyMissing(key: Option<string>)
  {
    key.None? || key.value == ""
  }

  /** Whether `_build_headers` adds an idempotency header to `merged` for this request. */
  predicate NeedsIdempotencyKey(cfg: ClientConfig, o: Options, merged: map<string, string>)
  {
    && cfg.idempotencyHeader.Some? && cfg.idempotencyHeader.value != ""
    && Lower(o.httpMethod) != "get"
    && cfg.idempotencyHeader.value !in merged
  }

  /** The headers of a request, and the idempotency key the options hold afterwards. */
  datatype HeaderBuild = HeaderBuild(headers: map<string, string>, key: Option<string>)

  /**
   * `_build_headers`: the defaults merged with the per-call headers; for a
   * non-GET request whose configured idempotency header is absent, the key
   * cached in the options (or `freshKey`, cached from now on) is added.
   */
  function BuiltHeaders(cfg: ClientConfig, o: Options, freshKey: string): (b: HeaderBuild)
    ensures var merged := MergeMappings(cfg.defaultHeaders, o.headers);
      && (!NeedsIdempotencyKey(cfg, o, merged) ==> b == HeaderBuild(merged, o.idempotencyKey))
      && (NeedsIdempotencyKey(cfg, o, merged) ==>
            && b.key == Some(if KeyMissing(o.idempotencyKey) then freshKey else o.idempotencyKey.value)
            && b.headers == merged[cfg.idempotencyHeader.value := b.key.value])
  {
    var merged := MergeMappings(cfg.defaultHeaders, o.headers);
    if NeedsIdempotencyKey(cfg, o, merged) then
      var key := if KeyMissing(o.idempotencyKey) then freshKey else o.idempotencyKey.value;
      HeaderBuild(merged[cfg.idempotencyHeader.value := key], Some(key))
    else
      HeaderBuild(merged, o.idempotencyKey)
  }

  /** A GET request never gets an idempotency key, and its options are left alone. */
  lemma GetHasNoIdempotencyKey(cfg: ClientConfig, o: Options, freshKey: string)
    requires Lower(o.httpMethod) == "get"
    ensures BuiltHeaders(cfg, o, freshKey) == HeaderBuild(MergeMappings(cfg.defaultHeaders, o.headers), o.idempotencyKey)
  {
  }

  /**
   * The key is generated at most once: building again from the options as
   * they were left, whatever fresh key is on offer, sends the same headers
   * and keeps the same key.
   */
  lemma IdempotencyKeyReused(cfg: ClientConfig, o: Options, freshKey: string, laterKey: string)
    requires freshKey != ""
    ensures var b := BuiltHeaders(cfg, o, freshKey);
      BuiltHeaders(cfg, o.(idempotencyKey := b.key), laterKey) == b
  {
  }

  /**
   * Header precedence: a per-call header wins, and a per-call `Omit` removes
   * the header, except that an omitted idempotency header is put back with
   * the key.
   */
  lemma PerCallHeadersWin(cfg: ClientConfig, o: Options, freshKey: string, name: string)
    requires name in o.headers
    ensures var h := BuiltHeaders(cfg, o, freshKey).headers;
      && (o.headers[name].Given? ==> name in h && h[name] == o.headers[name].value)
      && (o.headers[name].Omit? && Some(name) != cfg.idempotencyHeader ==> name !in h)
  {
  }

  /** A configuration whose default headers are `default_headers` for these layers. */
  predicate HasDefaultHeaders(cfg: ClientConfig, className: string, version: string,
                              platform: map<string, string>, auth: map<string, string>, custom: map<string, Slot<string>>)
  {
    cfg.defaultHeaders == DefaultHeaders(UserAgent(className, version), platform, auth, custom)
  }

  /**
   * The client's defaults reach the request: a header that neither the
   * client's custom headers nor the call set is sent with the value of the
   * highest layer holding it (auth, then platform, then the user agent and
   * the JSON content type), whether or not an idempotency key is added.
   */
  lemma DefaultHeadersSent(cfg: ClientConfig, o: Options, freshKey: string, className: string, version: string,
                           platform: map<string, string>, auth: map<string, string>, custom: map<string, Slot<string>>,
                           name: string)
    requires HasDefaultHeaders(cfg, className, version, platform, auth, custom)
    requires name !in custom && name !in o.headers
    ensures var h := BuiltHeaders(cfg, o, freshKey).headers;
      && (name in auth ==> name in h && h[name] == auth[name])
      && (name in platform && name !in auth ==> name in h && h[name] == platform[name])
      && (name == "User-Agent" && name !in platform && name !in auth ==>
            name in h && h[name] == UserAgent(className, version))
      && (name == "Content-Type" && name !in platform && name !in auth ==>
            name in h && h[name] == "application/json")
  {
    if name in auth {
      DefaultHeaderKept(cfg, o, freshKey, name, auth[name]);
    } else if name in platform {
      DefaultHeaderKept(cfg, o, freshKey, name, platform[name]);
    } else if name == "User-Agent" {
      assert "User-Agent" !in platform + auth;
      DefaultHeaderKept(cfg, o, freshKey, name, UserAgent(className, version));
    } else if name == "Content-Type" {
      assert "Content-Type" !in platform + auth;
      DefaultHeaderKept(cfg, o, freshKey, name, "application/json");
    }
  }

  /** A default header the call does not mention is sent unchanged. */
  lemma DefaultHeaderKept(cfg: ClientConfig, o: Options, freshKey: string, name: string, value: string)
    requires name in cfg.defaultHeaders && cfg.defaultHeaders[name] == Given(value) && name !in o.headers
    ensures name in BuiltHeaders(cfg, o, freshKey).headers && BuiltHeaders(cfg, o, freshKey).headers[name] == value
  {
    assert name in MergeMappings(cfg.defaultHeaders, o.headers);
  }

  // -----------------------------------------------------------------------
  // The body and the multipart form

  datatype BuildError =
    | UnexpectedJsonType           // RuntimeError: a non-mapping body cannot take `extra_body`
    | MultipartBodyNotDict         // TypeError: a multipart body must be a dict
    | DuplicateKey(key: string)    // ValueError from `_serialize_multipartform`

  /**
   * The body sent: `json_data` with `extra_json` merged over it. Python's
   * `None` is both "no body" and JSON null, so `None` and `Some(JNull)` are
   * the same body here and both give way to `extra_json` alone.
   */
  function MergeBody(jsonData: Option<Json>, extraJson: Option<map<string, Json>>): (r: Result<Option<Json>, BuildError>)
    ensures extraJson.None? ==> r == Ok(jsonData)
    ensures extraJson.Some? && (jsonData.None? || jsonData == Some(JNull)) ==> r == Ok(Some(JObject(extraJson.value)))
    ensures r.Err? <==> extraJson.Some? && jsonData.Some? && !jsonData.value.JObject? && !jsonData.value.JNull?
    ensures r.Err? ==> r.error == UnexpectedJsonType
    ensures extraJson.Some? && jsonData.Some? && jsonData.value.JObject? ==>
      r == Ok(Some(JObject(MergeMappings(Lift(jsonData.value.fields), Lift(extraJson.value)))))
  {
    match extraJson
    case None => Ok(jsonData)
    case Some(extra) =>
      match jsonData
      case None | Some(JNull) => Ok(Some(JObject(extra)))
      case Some(JObject(fields)) => Ok(Some(JObject(MergeMappings(Lift(fields), Lift(extra)))))
      case Some(_) => Err(UnexpectedJsonType)
  }

  /** The keys of a list of pairs. */
  function KeysOf(items: seq<(string, string)>): set<string>
  {
    set i | 0 <= i < |items| :: items[i].0
  }

  predicate DistinctKeys(items: seq<(string, string)>)
  {
    forall i, j :: 0 <= i < j < |items| ==> items[i].0 != items[j].0
  }

  /** Keys are distinct exactly when those of all but the last pair are and the last key is new. */
  lemma DistinctKeysSnoc(items: seq<(string, string)>)
    requires items != []
    ensures DistinctKeys(items) <==>
      DistinctKeys(items[..|items| - 1]) && items[|items| - 1].0 !in KeysOf(items[..|items| - 1])
  {
    var prefix := items[..|items| - 1];
    if DistinctKeys(prefix) && items[|items| - 1].0 !in KeysOf(prefix) {
      forall i, j | 0 <= i < j < |items| ensures items[i].0 != items[j].0 {
        if j < |items| - 1 {
          assert items[i] == prefix[i] && items[j] == prefix[j];
        } else {
          assert items[i] == prefix[i];
        }
      }
    }
    if DistinctKeys(items) {
      forall i, j | 0 <= i < j < |prefix| ensures prefix[i].0 != prefix[j].0 {
        assert prefix[i] == items[i] && prefix[j] == items[j];
      }
    }
  }

  /**
   * `_serialize_multipartform` after flattening: the pairs inserted one by
   * one into a dict, the first key seen twice being an error.
   */
  function SerializedForm(items: seq<(string, string)>): (r: Result<map<string, string>, BuildError>)
    ensures r.Ok? <==> DistinctKeys(items)
    ensures r.Ok? ==> r.value.Keys == KeysOf(items)
    ensures r.Err? ==> r.error.DuplicateKey?
  {
    if items == [] then Ok(map[])
    else
      var prefix := items[..|items| - 1];
      var (key, value) := items[|items| - 1];
      DistinctKeysSnoc(items);
      match SerializedForm(prefix)
      case Err(e) => Err(e)
      case Ok(m) => if key in m then Err(DuplicateKey(key)) else Ok(m[key := value])
  }

  /** Serialising one more pair: the key is checked against the dict built so far, then inserted. */
  lemma SerializedFormStep(items: seq<(string, string)>, i: nat)
    requires i < |items|
    ensures SerializedForm(items[..i + 1]) ==
      match SerializedForm(items[..i])
      case Err(e) => Err(e)
      case Ok(m) => if items[i].0 in m then Err(DuplicateKey(items[i].0)) else Ok(m[items[i].0 := items[i].1])
  {
    assert items[..i + 1][..i] == items[..i];
  }

  /** The first duplicate decides: once a prefix fails, the whole list fails with the same error. */
  lemma {:induction false} SerializedFormErrorSticks(items: seq<(string, string)>, n: nat)
    requires n <= |items| && SerializedForm(items[..n]).Err?
    ensures SerializedForm(items) == SerializedForm(items[..n])
    decreases |items| - n
  {
    if n == |items| {
      assert items[..n] == items;
    } else {
      var prefix := items[..|items| - 1];
      assert prefix[..n] == items[..n];
      SerializedFormErrorSticks(prefix, n);
    }
  }

  /** A serialised form maps every key to the value paired with it. */
  lemma {:induction false} SerializedFormContents(items: seq<(string, string)>)
    requires SerializedForm(items).Ok?
    ensures forall i :: 0 <= i < |items| ==> SerializedForm(items).value[items[i].0] == items[i].1
  {
    if items != [] {
      var prefix := items[..|items| - 1];
      SerializedFormContents(prefix);
      forall i | 0 <= i < |items| - 1 ensures SerializedForm(items).value[items[i].0] == items[i].1 {
        assert items[i] == prefix[i];
      }
    }
  }

  /** The error names the first key that repeats: the pairs before its second occurrence have distinct keys. */
  lemma {:induction false} SerializedFormFirstDuplicate(items: seq<(string, string)>)
    requires SerializedForm(items).Err?
    ensures exists j :: (0 <= j < |items| && items[j].0 == SerializedForm(items).error.key
                         && items[j].0 in KeysOf(items[..j]) && DistinctKeys(items[..j]))
  {
    var prefix := items[..|items| - 1];
    if SerializedForm(prefix).Err? {
      SerializedFormFirstDuplicate(prefix);
      var j :| 0 <= j < |prefix| && prefix[j].0 == SerializedForm(prefix).error.key
        && prefix[j].0 in KeysOf(prefix[..j]) && DistinctKeys(prefix[..j]);
      assert prefix[..j] == items[..j];
    } else {
      assert items[..|items| - 1] == prefix;
    }
  }

  // -----------------------------------------------------------------------
  // The whole request

  /** Whether the built headers ask for a multipart body (the exact value `multipart/form-data`). */
  predicate IsMultipart(headers: map<string, string>)
  {
    "Content-Type" in headers && headers["Content-Type"] == "multipart/form-data"
  }

  /** The timeout sent: the call's own, unless it was not given, then the client's. */
  function EffectiveTimeout(cfg: ClientConfig, o: Options): (t: Timeout)
    ensures o.timeout.NotGiven? ==> t == cfg.timeout
    ensures !o.timeout.NotGiven? ==> t == o.timeout
  {
    if o.timeout.NotGiven? then cfg.timeout else o.timeout
  }

  /** The outcome of `_build_request`, and the idempotency key the options hold afterwards. */
  datatype RequestBuild = RequestBuild(request: Result<WireRequest, BuildError>, key: Option<string>)

  /**
   * `_build_request`: the headers, then the body with `extra_json` merged in,
   * the client's custom query under the call's params, and for a multipart
   * request the `Content-Type` header dropped and a non-empty body turned
   * into form data.
   */
  function BuiltRequest(cfg: ClientConfig, o: Options, freshKey: string): (b: RequestBuild)
    ensures b.key == BuiltHeaders(cfg, o, freshKey).key
    ensures MergeBody(o.jsonData, o.extraJson).Err? ==> b.request == Err(UnexpectedJsonType)
    ensures b.request.Ok? ==>
      var r := b.request.value;
      var headers := BuiltHeaders(cfg, o, freshKey).headers;
      && r.httpMethod == o.httpMethod && r.url == o.url && r.timeout == EffectiveTimeout(cfg, o)
      && r.params == MergeMappings(Lift(cfg.customQuery), Lift(o.params))
      && MergeBody(o.jsonData, o.extraJson) == Ok(r.json)
      && r.headers == (if IsMultipart(headers) then headers - {"Content-Type"} else headers)
      && (r.data.Some? <==> IsMultipart(headers) && r.json.Some? && Truthy(r.json.value))
    ensures b.request.Ok? && b.request.value.data.Some? ==>
      && b.request.value.json.value.JObject?
      && SerializedForm(cfg.stringifyItems(b.request.value.json.value.fields)) == Ok(b.request.value.data.value)
    ensures b.request.Err? && MergeBody(o.jsonData, o.extraJson).Ok? ==>
      var body := MergeBody(o.jsonData, o.extraJson).value;
      && IsMultipart(BuiltHeaders(cfg, o, freshKey).headers) && body.Some? && Truthy(body.value)
      && (b.request == Err(MultipartBodyNotDict) <==> !body.value.JObject?)
    ensures var body := MergeBody(o.jsonData, o.extraJson);
      body.Ok? && IsMultipart(BuiltHeaders(cfg, o, freshKey).headers)
      && body.value.Some? && Truthy(body.value.value) && body.value.value.JObject? ==>
        var form := SerializedForm(cfg.stringifyItems(body.value.value.fields));
        && (b.request.Err? <==> form.Err?)
        && (form.Err? ==> b.request == Err(form.error))
  {
    var hb := BuiltHeaders(cfg, o, freshKey);
    match MergeBody(o.jsonData, o.extraJson)
    case Err(e) => RequestBuild(Err(e), hb.key)
    case Ok(body) =>
      var params := MergeMappings(Lift(cfg.customQuery), Lift(o.params));
      var wire := WireRequest(o.httpMethod, o.url, hb.headers, params, body, None, EffectiveTimeout(cfg, o));
      if !IsMultipart(hb.headers) then RequestBuild(Ok(wire), hb.key)
      else
        var headers := hb.headers - {"Content-Type"};
        if body.None? || !Truthy(body.value) then RequestBuild(Ok(wire.(headers := headers)), hb.key)
        else if !body.value.JObject? then RequestBuild(Err(MultipartBodyNotDict), hb.key)
        else
          match SerializedForm(cfg.stringifyItems(body.value.fields))
          case Err(e) => RequestBuild(Err(e), hb.key)
          case Ok(data) => RequestBuild(Ok(wire.(headers := headers, data := Some(data))), hb.key)
  }

  /** No multipart request carries the bare `multipart/form-data` content type to the transport. */
  lemma MultipartContentTypeDropped(cfg: ClientConfig, o: Options, freshKey: string)
    requires BuiltRequest(cfg, o, freshKey).request.Ok?
    ensures !IsMultipart(BuiltRequest(cfg, o, freshKey).request.value.headers)
  {
  }

  /**
   * Every retry of one call sends the same request: rebuilding from the
   * options as the first build left them gives the same outcome and key,
   * whatever fresh key is on offer.
   */
  lemma RebuiltRequestIsSame(cfg: ClientConfig, o: Options, freshKey: string, laterKey: string)
    requires freshKey != ""
    ensures var b := BuiltRequest(cfg, o, freshKey);
      BuiltRequest(cfg, o.(idempotencyKey := b.key), laterKey) == b
  {
    IdempotencyKeyReused(cfg, o, freshKey, laterKey);
  }

  /**
   * Query precedence for a call made through `make_request_options`:
   * `extra_query` over `query` over the client's custom query.
   */
  lemma QueryPrecedence(cfg: ClientConfig, httpMethod: string, path: string, body: Option<Json>,
                        query: Option<map<string, string>>, extraQuery: Option<map<string, string>>,
                        extraHeaders: Option<map<string, Slot<string>>>, extraBody: Option<map<string, Json>>,
                        idempotencyKey: Option<string>, timeout: Timeout, freshKey: string, name: string)
    requires var o := FinalOptions(httpMethod, path, body,
               MakeRequestOptions(query, extraHeaders, extraQuery, extraBody, idempotencyKey, timeout));
      BuiltRequest(cfg, o, freshKey).request.Ok?
    ensures var o := FinalOptions(httpMethod, path, body,
              MakeRequestOptions(query, extraHeaders, extraQuery, extraBody, idempotencyKey, timeout));
      var params := BuiltRequest(cfg, o, freshKey).request.value.params;
      && (extraQuery.Some? && name in extraQuery.value ==> params[name] == extraQuery.value[name])
      && ((extraQuery.None? || name !in extraQuery.value) && query.Some? && name in query.value ==> params[name] == query.value[name])
      && ((extraQuery.None? || name !in extraQuery.value) && (query.None? || name !in query.value) ==>
            (name in params <==> name in cfg.customQuery) && (name in params ==> params[name] == cfg.customQuery[name]))
  {
  }
}
