# A verified model of the Anthropic Python SDK's base client

This project models the request-execution core of `src/anthropic/_base_client.py`, the layer beneath the
generated API surface of the Anthropic Python SDK. It covers:

- merging of header mappings with `Omit` markers, and of query and body mappings (`_merge_mappings`,
  `make_request_options`);
- building a request (`_build_headers`, `_build_request`, `_serialize_multipartform`), including the
  idempotency key cached on the options object and the multipart form;
- error classification and the retry policy (`_make_status_error`, `_make_status_error_from_response`,
  `_should_retry`, `_calculate_retry_timeout`, `_remaining_retries`);
- the sync and async executors (`_request` / `_retry_request`) as one retry loop over a scripted transport, with
  the one difference between them kept: the async executor re-raises a read timeout, the sync one retries it;
- response decoding (`_process_response`, `_process_response_data`) as a dispatch on the requested result type;
- cursor pagination (`PageInfo`, `has_next_page`, `_info_to_options`, `get_next_page`, `iter_pages`,
  `AsyncPaginator`);
- the platform and architecture classifiers (`get_platform`, `get_architecture`).

Modules, one per component:

| module | file | what it holds |
|---|---|---|
| `Wrappers` | wrappers.dfy | `Option`, `Result` |
| `Text` | text.dfy | the ASCII string operations the source relies on: `lower`, `strip`, `in`, `split(";")[0]`, `int()` |
| `Mappings` | mappings.dfy | `Omit` markers and `_merge_mappings` |
| `Http` | http.dfy | JSON values, URLs, timeouts, `FinalRequestOptions` (a class, since `_build_headers` writes into it), responses, the wire request, `make_request_options` |
| `Platform` | platform.dfy | `get_platform`, `get_architecture` and their string forms |
| `Errors` | errors.dfy | the status-error table and the error built from a response |
| `Decode` | decode.dfy | `_process_response` / `_process_response_data` |
| `RetryPolicy` | retry.dfy | `_should_retry`, `_remaining_retries`, `_calculate_retry_timeout` |
| `Build` | build.dfy | client configuration, default headers, header and request building as specification functions |
| `Executor` | executor.dfy | the retry loop as a specification function of a scripted transport, and its properties |
| `Client` | client.dfy | the `APIClient` class: imperative header/request building, multipart serialisation and the retry loop, each proved against the specification functions |
| `Pagination` | pagination.dfy | page data, next-page options, the walk over pages, and the `Page` and `AsyncPaginator` classes |

Points where the code behaves otherwise than one might expect, modelled as the code behaves:

- The sync executor retries `httpx.ReadTimeout`, because it is caught as an `httpx.TimeoutException`
  (`src/anthropic/_base_client.py:789-792`). Only the async executor treats it as fatal (`:1148-1153`).
- A `Content-Type` other than `application/json` raises a plain `ValueError` (`:509-512`), not a
  response-validation error. It is `DecodeFailed(UnexpectedContentType)` here, and only a pydantic validation
  failure becomes `ResponseValidation`. A response without a `content-type` header fails on `None.split` in the
  code; the model names it `MissingContentType`.
- The backoff cap of 2.0 seconds applies before jitter (`:612-616`), so a backoff delay lies in `[0, 2.5)`,
  not `[0, 2.0]`.

## Model

| member | source | states |
|---|---|---|
| Mappings.MergeMappings | src/anthropic/_base_client.py:1485-1494 | The result holds no `Omit`. Its keys are the given keys of the second mapping plus the given keys of the first that the second does not mention. A key in the second takes its value from there (an `Omit` there removes the key), any other key from the first. |
| Mappings.MergeIdentity | src/anthropic/_base_client.py:1493-1494 | Merging a plain mapping with an empty one, on either side, gives it back. |
| Mappings.MergeLayers | src/anthropic/_base_client.py:551-558 | Merging the spread `{**a, **b}` under `c` is the same as merging `a` and `b` first, then `c`. This is the layering of the default headers. |
| Mappings.MergeAssociative | src/anthropic/_base_client.py:1493 | Merging is associative: `(a ⊕ b) ⊕ c == a ⊕ (b + c)`. |
| Mappings.MergeIdempotent | src/anthropic/_base_client.py:1493 | Merging a mapping with itself gives it back. |
| Http.MakeRequestOptions | src/anthropic/_base_client.py:1358-1387 | Headers, extra body, timeout and idempotency key are copied as given. `params` exists iff `query` or `extra_query` was given. An `extra_query` key wins over the same `query` key, and every key of either appears. |
| Http.RequestOptions.constructor | src/anthropic/_base_client.py:951 | A fresh options object holds exactly the given value. |
| Http.RequestOptions.Copy | src/anthropic/_base_client.py:156 | `model_copy` gives a fresh object with the same value. |
| Text.Lower | src/anthropic/_base_client.py:377 | `str.lower` on ASCII: same length, each letter lowered, no upper-case letter left. |
| Text.Strip | src/anthropic/_base_client.py:325 | `str.strip`: the result is the slice `s[lo..hi]` where everything before `lo` and from `hi` on is blank and the slice has no blank at either end. It is empty iff the input is all blanks. |
| Text.BeforeFirst | src/anthropic/_base_client.py:508 | `s.split(sep)[0]`: the longest prefix without `sep`, followed in `s` by `sep` when shorter than `s`. |
| Text.ParseInt | src/anthropic/_base_client.py:599 | `int()` of a header value succeeds iff the stripped text is an optional sign followed by digits with single underscores between them. Its value is the decimal value of those digits with the underscores removed, negated after a `-` sign. |
| Text.ParseShowInt | src/anthropic/_base_client.py:599 | `int()` reads back the decimal form of every integer, sign included. |
| Text.ShowNatValue | src/anthropic/_base_client.py:599 | The decimal digits written for a natural number have that number as their value. |
| Text.ParseShowNat | src/anthropic/_base_client.py:599 | The digit parser reads back the decimal form of every natural number. |
| Text.StripNoSpace | src/anthropic/_base_client.py:325 | `strip` leaves a string without blanks at its ends unchanged. |
| Platform.GetPlatform | src/anthropic/_base_client.py:1413-1448 | The full decision table, each row an if-and-only-if. iOS iff the lowered platform string mentions `iphone` or `ipad`. Then darwin→MacOS and windows→Windows. Then `android`→Android. Then linux→FreeBSD iff the distro id is `freebsd`, OpenBSD iff it is `openbsd`, else Linux. Then a non-empty platform string→Other(name). Otherwise Unknown. |
| Platform.GetArchitecture | src/anthropic/_base_client.py:1462-1482 | arm64/aarch64→arm64, arm→arm, x86_64→x64. Otherwise 32-bit→x32, a non-empty machine→Other(machine), else unknown. Each is an if-and-only-if. |
| Platform.PlatformNameInjective | src/anthropic/_base_client.py:1390-1410 | Distinct platforms have distinct header strings (`Other:` prefix for the rest). |
| Platform.ArchNameInjective | src/anthropic/_base_client.py:1451-1459 | Distinct architectures have distinct header strings (`other:` prefix for the rest). |
| Errors.MakeStatusError | src/anthropic/_base_client.py:336-360 | The status table, each row an if-and-only-if: 400, 401, 403, 404, 409, 422, 429, ≥500, and the generic error for every other status. |
| Errors.EveryKindReachable | src/anthropic/_base_client.py:344-360 | Every error kind is produced by some status code. |
| Errors.MakeStatusErrorFromResponse | src/anthropic/_base_client.py:320-334 | The kind follows the status table. The body is the parsed JSON of the stripped text when it parses, else the stripped text. The message is `Error code: <status> - <body>` with the response status and the parsed body iff the body parsed. Otherwise it is the stripped text, or `Error code: <status>` iff that text is empty. |
| Errors.BlankBodyMessage | src/anthropic/_base_client.py:332 | A blank, unparseable body gives the message `Error code: <status>`. |
| Errors.UnprocessableEntityCarriesBody | src/anthropic/_base_client.py:329-330 | A 422 response with a JSON body gives an `UnprocessableEntityError` carrying that body. |
| Decode.ProcessResponse | src/anthropic/_base_client.py:462-515 | NoneType→None, str→text, `httpx.Response`→the response, a subclass of it→error, any other type outside the supported ones→error. For a model, builder or unknown type: a missing or non-JSON media type is that error, an unparseable body is a JSON error, and a parsed body is handed to `_process_response_data`. |
| Decode.ProcessResponseData | src/anthropic/_base_client.py:517-536 | A null body gives None. Otherwise each is an if-and-only-if: the data as is for the unknown type, built for a builder, validated for a model under strict validation when the validator accepts it, constructed for a model without strict validation. Validation fails iff the type is a model, validation is strict and the validator rejects the data. |
| Decode.CheckContentType | src/anthropic/_base_client.py:506-512 | Accepted iff the header exists and its media type before the first `;` is `application/json`. |
| Decode.NullBodyIsNone | src/anthropic/_base_client.py:524-525 | A JSON `null` body short-circuits to None for every JSON-decoded result type. |
| Decode.PermissiveNeverFailsValidation | src/anthropic/_base_client.py:533-536 | Without strict validation, response processing never raises a validation error. |
| Decode.MediaTypeParametersIgnored | src/anthropic/_base_client.py:506-509 | `application/json; <anything>` is accepted. |
| Decode.BeforeFirstPrefix | src/anthropic/_base_client.py:508 | Splitting `s;rest` at the first `;` gives `s` when `s` has none. |
| RetryPolicy.ShouldRetry | src/anthropic/_base_client.py:619-641 | `x-should-retry: true` gives true and `false` gives false, whatever the status. Without either, it retries iff the status is 409, 429 or ≥500. |
| RetryPolicy.RetryableKinds | src/anthropic/_base_client.py:630-641 | Without the header, a response is retried iff its error kind is Conflict, RateLimit or InternalServer. |
| RetryPolicy.RemainingRetries | src/anthropic/_base_client.py:362-367 | An explicit count is used as is, otherwise the call's maximum. |
| RetryPolicy.RetryAfter | src/anthropic/_base_client.py:599-601 | The parsed `retry-after` header. It is -1 when there are no headers, no such header, or `int()` rejects its text. |
| RetryPolicy.BaseDelay | src/anthropic/_base_client.py:607-612 | `min(0.5·(n−1)², 2)`: within [0, 2], the quadratic below the cap and the cap only when the quadratic reaches it. |
| RetryPolicy.BaseDelayTable | src/anthropic/_base_client.py:607-612 | `min(0.5·(n−1)², 2)`: 0.5 for n=0, 0 for n=1, 0.5 for n=2, 2 otherwise, always within [0, 2]. |
| RetryPolicy.RetryDelay | src/anthropic/_base_client.py:586-617 | A `retry-after` in (0, 60] is returned exactly. Otherwise the delay is the base delay plus `draw − 0.5`, or 0 when that is negative, so it lies in [0, 2.5). It is always within [0, 60]. |
| RetryPolicy.RetryAfterObeyed | src/anthropic/_base_client.py:599-605 | A `retry-after` header holding 1 to 60 seconds is obeyed exactly, whatever the attempt. |
| RetryPolicy.NoHeadersMeansBackoff | src/anthropic/_base_client.py:607-617 | Without response headers (a timeout or connection failure) the delay is the jittered backoff, in [0, 2.5). |
| Build.PlatformHeaders | src/anthropic/_base_client.py:576-584 | Exactly the six fingerprint headers: language `python`, the package version, the OS and architecture names, and the runtime name and version. |
| Build.UserAgent | src/anthropic/_base_client.py:567-569 | The class name, then `/Python `, then the version. |
| Build.DefaultHeaders | src/anthropic/_base_client.py:550-558 | Keys are Content-Type, User-Agent and the platform, auth and custom keys. Custom overrides auth, which overrides platform, which overrides the two fixed headers (`application/json` and the user agent). |
| Build.IdempotencyKey | src/anthropic/_base_client.py:643-644 | The key is the prefix `stainless-python-retry-` followed by the UUID. |
| Build.BuiltHeaders | src/anthropic/_base_client.py:369-383 | Headers are the default headers merged with the call's. When an idempotency header is configured, the method is not GET and the header is absent, the header is set to the cached key, or to a fresh one, which is then cached. Otherwise nothing is added and the options are untouched. |
| Build.GetHasNoIdempotencyKey | src/anthropic/_base_client.py:377 | A GET request gets no idempotency header and its options are left alone. |
| Build.IdempotencyKeyReused | src/anthropic/_base_client.py:378-381 | Building headers again from the options the first build left gives the same headers and key, whatever fresh key is offered. |
| Build.PerCallHeadersWin | src/anthropic/_base_client.py:370-371 | A per-call header wins over the defaults. A per-call `Omit` removes the header, unless it is the idempotency header. |
| Build.MergeBody | src/anthropic/_base_client.py:402-409 | No extra body keeps the body. An extra body alone, or over a `None` (JSON null) body, becomes the body. Over a mapping body the two are merged, the extra body winning. It fails with the unexpected-type error iff both exist and the body is neither `None` nor a mapping. |
| Build.SerializedForm | src/anthropic/_base_client.py:448-460 | Succeeds iff the flattened keys are distinct, with exactly those keys. Otherwise the error is a duplicate key. |
| Build.SerializedFormContents | src/anthropic/_base_client.py:456-459 | On success every flattened pair is in the form. |
| Build.SerializedFormFirstDuplicate | src/anthropic/_base_client.py:457-458 | The reported key is the first one repeated: it occurs earlier, and everything before is distinct. |
| Build.SerializedFormStep | src/anthropic/_base_client.py:456-459 | One loop step: a new key is inserted, a repeated one is the error. |
| Build.SerializedFormErrorSticks | src/anthropic/_base_client.py:457-458 | Once a prefix fails, the whole list fails the same way. |
| Build.DistinctKeysSnoc | src/anthropic/_base_client.py:457 | Keys stay distinct after appending a pair iff its key is new. |
| Build.BuiltRequest | src/anthropic/_base_client.py:394-446 | Method, url and timeout come from the options (the client's timeout when not given). Params are the custom query merged with the call's. The body is the merged body. A bare `multipart/form-data` Content-Type is dropped, and form data is present iff the request is multipart with a truthy body. Building fails iff the body merge fails, the multipart body is not a dict, or the form has a duplicate key; on a multipart dict body it fails exactly when the form does, with the form's duplicate-key error. |
| Build.MultipartContentTypeDropped | src/anthropic/_base_client.py:418-419 | No built request carries the bare multipart Content-Type. |
| Build.EffectiveTimeout | src/anthropic/_base_client.py:433 | The call's timeout, including an explicit `None`, unless it was not given; then the client's. |
| Build.RebuiltRequestIsSame | src/anthropic/_base_client.py:376-381 | Rebuilding from the options the first build left gives the same request and key. |
| Build.DefaultHeadersSent | src/anthropic/_base_client.py:369-383 | With the client's default headers built by `default_headers`, a header that neither the custom headers nor the call set is sent with the auth value, else the platform value, else the user agent `{class}/Python {version}` or `application/json`, whether or not an idempotency key is added. |
| Build.DefaultHeaderKept | src/anthropic/_base_client.py:370-381 | A default header that the call does not mention is sent with its default value, even when an idempotency header is added. |
| Build.QueryPrecedence | src/anthropic/_base_client.py:411 | For a call through `make_request_options`, `extra_query` overrides `query`, which overrides the client's custom query. |
| Executor.Decide | src/anthropic/_base_client.py:771-796 | A success ends the call. A status error is retried iff budget remains and the response is retryable, with its headers. Timeouts and other failures are retried iff budget remains, else they end as a timeout or a connection error. An async read timeout always ends the call. |
| Executor.Success | src/anthropic/_base_client.py:798-809 | A stream needs an explicit or default stream class, else the missing-stream-class error. Otherwise the processed response is returned, a validation failure becomes `APIResponseValidationError`, and other decode errors pass through. |
| Executor.Surface | src/anthropic/_base_client.py:785-796 | A status failure raises the status error classified by the table. Timeout, connection and raw read-timeout errors arise from exactly their endings. A build error arises from exactly a failed build, and is that build's error. |
| Executor.RunStops | src/anthropic/_base_client.py:768-772 | `Run` models `_request` from one attempt on. A failed build sends nothing. An attempt that ends sends once and sleeps not at all. |
| Executor.RunContinues | src/anthropic/_base_client.py:811-834 | `Run` models `_retry_request` as its recursive call. A retried attempt is one send and one sleep, followed by the run with one retry fewer and the key cached. |
| Executor.SendsBounded | src/anthropic/_base_client.py:768-834 | With budget k there are at most k+1 sends, and exactly one sleep between consecutive sends. A failed build sends nothing. |
| Executor.RetriesResendSameRequest | src/anthropic/_base_client.py:376-381 | Every send of a call is the first attempt's request, idempotency key included, and the options keep that key, although every attempt draws a fresh UUID: the key is reused because the first build cached it. |
| Executor.StatusErrorSurfaces | src/anthropic/_base_client.py:774-788 | A status error that is not retryable, or met with no budget, raises the classified error after a single send and no sleep. |
| Executor.ReadTimeoutHandling | src/anthropic/_base_client.py:1148-1153 | The async executor re-raises a read timeout after one send. The sync executor raises a timeout error with no budget, and retries otherwise. |
| Executor.VariantsAgree | src/anthropic/_base_client.py:1114-1197 | Without read timeouts the sync and async executors behave identically. |
| Executor.SleepsBounded | src/anthropic/_base_client.py:603-617 | Every delay slept lies in [0, 60]. |
| Executor.TimeoutsExhaustBudget | src/anthropic/_base_client.py:789-792 | A transport that always times out gives exactly k+1 sends, k sleeps and a timeout error. |
| Executor.ConnectTimeoutThenSuccess | src/anthropic/_base_client.py:1144-1146 | A connect timeout then a success: two sends, one backoff sleep in [0, 2.5), and the success's result. |
| Executor.NoRetriesLeftSendsOnce | src/anthropic/_base_client.py:362-367 | An explicit remaining count of 0 means a single send and no sleep. |
| Executor.Execute | src/anthropic/_base_client.py:759-834 | A whole call, from the budget `_remaining_retries` settles: at most budget+1 sends, one sleep between consecutive sends, and every sleep within [0, 60]. |
| Client.APIClient.constructor | src/anthropic/_base_client.py:647-685 | A new client has its variant and configuration and has sent nothing. |
| Client.APIClient.BuildHeaders | src/anthropic/_base_client.py:369-383 | The headers are the specification's, and the options' key becomes the one the specification caches. |
| Client.APIClient.SerializeMultipartForm | src/anthropic/_base_client.py:448-460 | The loop's result equals the specified form: the map of pairs, or the first duplicate. |
| Client.APIClient.BuildRequest | src/anthropic/_base_client.py:394-446 | The built request or build error is the specification's, and so is the key cached in the options. |
| Client.APIClient.Attempt | src/anthropic/_base_client.py:768-826 | One pass: build, then record the send. The pass ends as decided, or records the retry delay and goes on. |
| Client.APIClient.Request | src/anthropic/_base_client.py:759-834 | The loop returns or raises what the specification's run surfaces. It appends exactly the run's sends and sleeps, and leaves the run's key in the options. |
| Pagination.EmptyPageIsLast | src/anthropic/_base_client.py:139-143 | A page with no items has no next page, whatever its `next_page_info`. |
| Pagination.NonEmptyPageFollowsInfo | src/anthropic/_base_client.py:139-143 | For a page with items, `has_next_page` holds exactly when `next_page_info` returns one. |
| Pagination.NextOptions | src/anthropic/_base_client.py:155-169 | `params` are checked first and spread over the old params. Otherwise the URL replaces the url, with the old params merged under the URL's own. Neither is an error. Every other field is copied. |
| Pagination.NextPage | src/anthropic/_base_client.py:207-215 | No next info is an error. An error from `_info_to_options` passes through. Otherwise the next page and its options are what fetching the next options returns, and a fetch error passes through. |
| Pagination.Traverse | src/anthropic/_base_client.py:198-205 | `iter_pages` as a walk over pages, with fuel bounding how many further pages it fetches: it yields the starting page first and at most one page more than its fuel. |
| Pagination.TraverseStops | src/anthropic/_base_client.py:198-205 | The walk stops at a page with no next page, or at the error fetching the next one. |
| Pagination.TraverseContinues | src/anthropic/_base_client.py:198-205 | Otherwise the walk yields this page and goes on from the next. |
| Pagination.TraverseFuel | src/anthropic/_base_client.py:198-205 | Once the walk has ended, more fuel does not change it. |
| Pagination.TraversalShape | src/anthropic/_base_client.py:198-205 | The starting page comes first and every page but the last has a next page. A walk without error ends at a page that has none. |
| Pagination.Page.constructor | src/anthropic/_base_client.py:135-137 | A parsed page holds its data and no options yet. |
| Pagination.Page.SetPrivateAttributes | src/anthropic/_base_client.py:175-183 | The page remembers the options that fetched it. |
| Pagination.Page.InfoToOptions | src/anthropic/_base_client.py:155-169 | The result is the specification's next options, in a fresh object, with the page's own options unchanged. |
| Pagination.Page.GetNextPage | src/anthropic/_base_client.py:207-215 | The fetched page and its fresh options are the specification's next page, or the same error. |
| Pagination.Page.IterPages | src/anthropic/_base_client.py:198-205 | The loop yields exactly the specification's walk: the pages in order and the error that ended it. |
| Pagination.AsyncPaginator.constructor | src/anthropic/_base_client.py:218-229 | The handle holds the options and fetches nothing. |
| Pagination.AsyncPaginator.Await | src/anthropic/_base_client.py:231-241 | Awaiting fetches the first page and hands it this very options object, or passes the error on. |

## Left out

- Transport I/O (`send`, `raise_for_status`, `read`/`aread`, client construction, `close` and the context managers)
  is replaced by a scripted outcome per attempt number.
- `time.sleep` and `anyio.sleep` are recorded as the requested delay. Time is not modelled.
- Async scheduling and cancellation are not modelled. One class serves both executors, and `variant` selects the
  read-timeout handling.
- `json.loads`/`response.json`, pydantic `validate_type`/`construct_type` and `ModelBuilderProtocol.build` are
  opaque parameters (`Decoders`), because their code is not part of this model.
- `Querystring.stringify`/`stringify_items` is not part of this model. The flattened `(key, value)` list is a
  parameter of the client configuration, and query params reach the wire request as a merged mapping.
- `options.get_max_retries` is not part of this model. Its value is the call's `maxRetries`.
- `Stream`/`AsyncStream` construction: only the missing-stream-class error is modelled. A stream result is the
  response it wraps.
- `uuid4()` and `random()` are parameters: a per-attempt UUID and a per-attempt draw in [0, 1).
- IEEE floating point is modelled as `real`.
- The `lru_cache` on `platform_headers` and the `platform`/`distro` calls are not modelled. Their results are
  parameters.
- `httpx.Headers` is case-insensitive. Here header names are assumed already normalised, and lookups are exact.
- `lower`, `strip` and `int()` are modelled for ASCII only. `int()` accepts optional blanks, a sign and digits
  with single underscores between them.
- File uploads (`files`) are not modelled.
- The `__iter__`/`__aiter__` item flattening over pages is not modelled. `iter_pages` yields the page data.
- The typed overloads and the `get`/`post`/`patch`/`put`/`delete`/`get_api_list` wrappers are not modelled.
  `FinalOptions` models the options a `post` builds.
- `_validate_headers` and `_prepare_request` do nothing in this class and are left out.
- `Omit` markers in query params and in the body are not modelled. A query is a plain mapping and `Json` has no
  `Omit`, so the dropping of omitted keys by `_merge_mappings` at `src/anthropic/_base_client.py:407` and `:411`
  never arises; only headers carry `Omit`.
- httpx's multi-valued query parameters are not modelled. A query is a mapping from names to strings.
- `_build_request` sends `params=None` when the merged query is empty. Here that is an empty mapping.
- `_set_private_attributes` also stores the client and the item model. Only the options are kept.
- `Pagination.Traverse`: a chain of pages longer than the fuel gives `None`. `Pagination.Page.IterPages` therefore
  requires that the chain ends, since a server that always returns a next page makes a fully consumed `iter_pages`
  run forever.
- `Pagination.Page.IterPages` models only a fully consumed `iter_pages`. The generator fetches each page lazily, when
  the caller asks for it; a caller that stops early fetches fewer pages, and that is not modelled.
- `_request_api_list` (`src/anthropic/_base_client.py:836-848`, `:1199-1205`) is the pure `fetch` parameter of the
  pagination model, so it cannot write into the options it is given. In the code, `_build_headers` caches an
  idempotency key in the page's own options object (`:378-379`) for a non-GET list call. `_info_to_options` then
  copies that object (`:156`), so every later page resends the first page's key. In the model, the options of later
  pages carry whatever key the first options held, and the key cached during a fetch is not carried over.
