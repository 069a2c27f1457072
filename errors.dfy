/**
 * The error classifier: the status-code table of `_make_status_error` and
 * the body and message an API status error carries
 * (`_make_status_error_from_response`).
 */
module Errors {
  import opened Wrappers
  import opened Text
  import opened Http

  /** The `APIStatusError` subclasses, by status-code bucket. */
  datatype StatusErrorKind =
    | BadRequest | Authentication | PermissionDenied | NotFound | Conflict
    | UnprocessableEntity | RateLimit | InternalServer
    | GenericStatus  // a plain `APIStatusError`

  /** `_make_status_error`: a total function of the status code. */
  function MakeStatusError(status: int): (k: StatusErrorKind)
    ensures k == BadRequest <==> status == 400
    ensures k == Authentication <==> status == 401
    ensures k == PermissionDenied <==> status == 403
    ensures k == NotFound <==> status == 404
    ensures k == Conflict <==> status == 409
    ensures k == UnprocessableEntity <==> status == 422
    ensures k == RateLimit <==> status == 429
    ensures k == InternalServer <==> status >= 500
    ensures k == GenericStatus <==> status !in {400, 401, 403, 404, 409, 422, 429} && status < 500
  {
    if status == 400 then BadRequest
    else if status == 401 then Authentication
    else if status == 403 then PermissionDenied
    else if status == 404 then NotFound
    else if status == 409 then Conflict
    else if status == 422 then UnprocessableEntity
    else if status == 429 then RateLimit
    else if status >= 500 then InternalServer
    else GenericStatus
  }

  /** A status code that each kind is raised for. */
  function RepresentativeStatus(k: StatusErrorKind): int
  {
    match k
    case BadRequest => 400
    case Authentication => 401
    case PermissionDenied => 403
    case NotFound => 404
    case Conflict => 409
    case UnprocessableEntity => 422
    case RateLimit => 429
    case InternalServer => 500
    case GenericStatus => 418
  }

  /** Every kind is reachable: the table has no dead row. */
  lemma EveryKindReachable(k: StatusErrorKind)
    ensures MakeStatusError(RepresentativeStatus(k)) == k
  {
  }

  /** What the error carries as `body`: the parsed JSON, or the stripped text when it does not parse. */
  datatype ErrorBody = ParsedBody(json: Json) | RawBody(text: string)

  /** The error message: `Error code: {status} - {body}`, the raw text, or `Error code: {status}`. */
  datatype ErrorMessage = CodeAndBody(status: int, body: Json) | BodyText(text: string) | CodeOnly(status: int)

  datatype StatusError = StatusError(kind: StatusErrorKind, status: int, body: ErrorBody, message: ErrorMessage)

  /** The message as text, where it does not depend on how Python prints a JSON value. */
  function MessageText(m: ErrorMessage): string
    requires !m.CodeAndBody?
  {
    match m
    case BodyText(text) => text
    case CodeOnly(status) => "Error code: " + ShowInt(status)
  }

  /**
   * `_make_status_error_from_response`; `parseJson` stands for `json.loads`
   * (`None` where it raises).
   */
  function MakeStatusErrorFromResponse(response: HttpResponse, parseJson: string -> Option<Json>): (e: StatusError)
    ensures e.kind == MakeStatusError(response.status) && e.status == response.status
    ensures e.body.ParsedBody? <==> parseJson(Strip(response.text)).Some?
    ensures e.body.ParsedBody? ==> e.body.json == parseJson(Strip(response.text)).value
    ensures e.body.RawBody? ==> e.body.text == Strip(response.text)
    ensures e.message.CodeAndBody? <==> e.body.ParsedBody?
    ensures e.message.CodeOnly? <==> e.body == RawBody("")
    ensures e.message.CodeAndBody? ==> e.message == CodeAndBody(response.status, e.body.json)
    ensures e.message.BodyText? ==> e.body.RawBody? && e.message.text == e.body.text
    ensures e.message.CodeOnly? ==> e.message.status == response.status
  {
    var errText := Strip(response.text);
    var kind := MakeStatusError(response.status);
    match parseJson(errText)
    case Some(body) => StatusError(kind, response.status, ParsedBody(body), CodeAndBody(response.status, body))
    case None =>
      StatusError(kind, response.status, RawBody(errText),
                  if errText != "" then BodyText(errText) else CodeOnly(response.status))
  }

  /** A body of only whitespace that is not JSON yields the bare `Error code: {status}` message. */
  lemma BlankBodyMessage(response: HttpResponse, parseJson: string -> Option<Json>)
    requires forall i :: 0 <= i < |response.text| ==> IsSpace(response.text[i])
    requires parseJson("").None?
    ensures MessageText(MakeStatusErrorFromResponse(response, parseJson).message)
         == "Error code: " + ShowInt(response.status)
  {
  }

  /** A 422 response whose body parses yields an `UnprocessableEntityError` carrying that body. */
  lemma UnprocessableEntityCarriesBody(response: HttpResponse, parseJson: string -> Option<Json>, body: Json)
    requires response.status == 422 && parseJson(Strip(response.text)) == Some(body)
    ensures MakeStatusErrorFromResponse(response, parseJson)
         == StatusError(UnprocessableEntity, 422, ParsedBody(body), CodeAndBody(422, body))
  {
  }
}
