/**
 * The values that travel through the client core: JSON bodies, URLs, the
 * per-call request options (`FinalRequestOptions`), wire requests and
 * responses, and the `make_request_options` builder.
 */
module Http {
  import opened Wrappers
  import opened Mappings

  /** A decoded JSON value (numbers are modelled as integers). */
  datatype Json =
    | JNull
    | JBool(b: bool)
    | JInt(i: int)
    | JStr(s: string)
    | JList(items: seq<Json>)
    | JObject(fields: map<string, Json>)

  /** Python truthiness of a body, as `if json_data:` tests it. */
  predicate Truthy(j: Json)
  {
    match j
    case JNull => false
    case JBool(b) => b
    case JInt(i) => i != 0
    case JStr(s) => s != ""
    case JList(items) => items != []
    case JObject(fields) => fields != map[]
  }

  /** A URL: its path and its own query parameters. */
  datatype Url = Url(path: string, query: map<string, string>)

  /** A timeout setting: `NOT_GIVEN`, an explicit `None`, or a number of seconds. */
  datatype Timeout = NotGiven | NoTimeout | Seconds(seconds: real)

  /**
   * The value of one logical request's options. Query parameter values are
   * kept in their wire (string) form; header values may be the `Omit` marker.
   */
  datatype Options = Options(
    httpMethod: string,
    url: Url,
    params: map<string, string>,
    headers: map<string, Slot<string>>,
    jsonData: Option<Json>,
    extraJson: Option<map<string, Json>>,
    timeout: Timeout,
    idempotencyKey: Option<string>)

  /**
   * `FinalRequestOptions` as an object: building the headers caches a fresh
   * idempotency key in it, and turning a page into the next page's options
   * rewrites the url and the params of a copy.
   */
  class RequestOptions {
    const httpMethod: string
    var url: Url
    var params: map<string, string>
    const headers: map<string, Slot<string>>
    const jsonData: Option<Json>
    const extraJson: Option<map<string, Json>>
    const timeout: Timeout
    var idempotencyKey: Option<string>

    function Value(): (o: Options)
      reads this
    {
      Options(httpMethod, url, params, headers, jsonData, extraJson, timeout, idempotencyKey)
    }

    constructor (o: Options)
      ensures Value() == o
    {
      httpMethod, url, params, headers := o.httpMethod, o.url, o.params, o.headers;
      jsonData, extraJson, timeout, idempotencyKey := o.jsonData, o.extraJson, o.timeout, o.idempotencyKey;
    }

    /** `model_copy`: a new object with the same field values. */
    method Copy() returns (c: RequestOptions)
      ensures fresh(c) && c.Value() == Value()
    {
      c := new RequestOptions(Value());
    }
  }

  /** A response as the core sees it: the status code, the headers (names already normalised) and the body text. */
  datatype HttpResponse = HttpResponse(status: int, headers: map<string, string>, text: string)

  /** The request handed to the transport. `data` is the multipart form, when there is one. */
  datatype WireRequest = WireRequest(
    httpMethod: string,
    url: Url,
    headers: map<string, string>,
    params: map<string, string>,
    json: Option<Json>,
    data: Option<map<string, string>>,
    timeout: Timeout)

  /** The dict `make_request_options` returns; `None` (or `NotGiven` for the timeout) is an absent key. */
  datatype RequestOptionsDict = RequestOptionsDict(
    headers: Option<map<string, Slot<string>>>,
    extraJson: Option<map<string, Json>>,
    params: Option<map<string, string>>,
    timeout: Timeout,
    idempotencyKey: Option<string>)

  /** `make_request_options`: only given arguments create a key; `extra_query` is spread over `query`. */
  function MakeRequestOptions(
    query: Option<map<string, string>>,
    extraHeaders: Option<map<string, Slot<string>>>,
    extraQuery: Option<map<string, string>>,
    extraBody: Option<map<string, Json>>,
    idempotencyKey: Option<string>,
    timeout: Timeout): (r: RequestOptionsDict)
    ensures r.headers == extraHeaders && r.extraJson == extraBody
    ensures r.timeout == timeout && r.idempotencyKey == idempotencyKey
    ensures r.params.Some? <==> query.Some? || extraQuery.Some?
    ensures r.params.Some? ==>
      r.params.value.Keys == (if query.Some? then query.value.Keys else {}) + (if extraQuery.Some? then extraQuery.value.Keys else {})
    ensures r.params.Some? && extraQuery.Some? ==>
      forall k :: k in extraQuery.value ==> r.params.value[k] == extraQuery.value[k]
    ensures r.params.Some? && query.Some? ==>
      forall k :: k in query.value && (extraQuery.None? || k !in extraQuery.value) ==> r.params.value[k] == query.value[k]
  {
    var params :=
      if extraQuery.Some? then Some((if query.Some? then query.value else map[]) + extraQuery.value)
      else query;
    RequestOptionsDict(extraHeaders, extraBody, params, timeout, idempotencyKey)
  }

  /**
   * `FinalRequestOptions.construct(method=..., url=path, json_data=body, **options)`,
   * as the request helpers call it: absent keys take the option's default.
   */
  function FinalOptions(httpMethod: string, path: string, body: Option<Json>, d: RequestOptionsDict): (o: Options)
    ensures o.httpMethod == httpMethod && o.url == Url(path, map[]) && o.jsonData == body
    ensures o.params == (if d.params.Some? then d.params.value else map[])
    ensures o.headers == (if d.headers.Some? then d.headers.value else map[])
    ensures o.extraJson == d.extraJson && o.timeout == d.timeout && o.idempotencyKey == d.idempotencyKey
  {
    Options(httpMethod, Url(path, map[]),
      if d.params.Some? then d.params.value else map[],
      if d.headers.Some? then d.headers.value else map[],
      body, d.extraJson, d.timeout, d.idempotencyKey)
  }
}
