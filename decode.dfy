/**
 * The response decoder: `_process_response` and `_process_response_data`
 * dispatch on the requested result type. JSON parsing, strict validation
 * and custom builders are collaborators whose outcome is passed in.
 */
module Decode {
  import opened Wrappers
  import opened Text
  import opened Http

  /** The `cast_to` argument, by the branch of the dispatch it selects. */
  datatype ResultType =
    | NoneType          // `NoneType`
    | Str               // `str`
    | RawResponse       // `httpx.Response` itself
    | ResponseSubclass  // a proper subclass of `httpx.Response`
    | Unknown           // `UnknownResponse`
    | Model             // a `BaseModel` subclass, `list`, `dict` or a `Union`
    | Builder           // a `BaseModel` subclass that also implements `ModelBuilderProtocol`;
                        // a builder that is not a `BaseModel` is `Unsupported`
    | Unsupported       // any other type

  /** What the decoder returns. */
  datatype Decoded =
    | NoneValue                // `None`
    | Text(text: string)       // `response.text`
    | ResponseHandle           // the response object itself
    | Data(json: Json)         // the parsed JSON, untouched
    | Built(json: Json)        // `cast_to.build(response=..., data=...)`
    | Validated(json: Json)    // `validate_type(...)`
    | Constructed(json: Json)  // `construct_type(...)`

  /** Errors the decoder raises. Only `ValidationFailed` is wrapped by the executor. */
  datatype DecodeError =
    | ResponseSubclassRequested            // ValueError
    | InvalidResultType                    // RuntimeError
    | MissingContentType                   // AttributeError from `None.split`
    | UnexpectedContentType(ct: string)    // ValueError
    | MalformedJson                        // raised by `response.json()`
    | ValidationFailed                     // pydantic.ValidationError

  /** The collaborators: `response.json()` and whether strict validation accepts a value. */
  datatype Decoders = Decoders(parseJson: string -> Option<Json>, validates: Json -> bool)

  /** `_process_response_data`. */
  function ProcessResponseData(data: Json, castTo: ResultType, strict: bool, decoders: Decoders): (r: Result<Decoded, DecodeError>)
    requires castTo.Unknown? || castTo.Model? || castTo.Builder?
    ensures data == JNull ==> r == Ok(NoneValue)
    ensures r == Err(ValidationFailed) <==> data != JNull && castTo == Model && strict && !decoders.validates(data)
    ensures r.Err? ==> r.error == ValidationFailed
    ensures data != JNull ==>
      && (r == Ok(Data(data)) <==> castTo == Unknown)
      && (r == Ok(Built(data)) <==> castTo == Builder)
      && (r == Ok(Validated(data)) <==> castTo == Model && strict && decoders.validates(data))
      && (r == Ok(Constructed(data)) <==> castTo == Model && !strict)
  {
    if data == JNull then Ok(NoneValue)
    else if castTo == Unknown then Ok(Data(data))
    else if castTo == Builder then Ok(Built(data))
    else if strict then (if decoders.validates(data) then Ok(Validated(data)) else Err(ValidationFailed))
    else Ok(Constructed(data))
  }

  /**
   * The content-type gate of `_process_response`: the media type before the
   * first `;` must be exactly `application/json`.
   */
  function CheckContentType(headers: map<string, string>): (r: Option<DecodeError>)
    ensures r.None? <==> "content-type" in headers && BeforeFirst(headers["content-type"], ';') == "application/json"
    ensures r.Some? ==> r.value.MissingContentType? || r.value.UnexpectedContentType?
  {
    if "content-type" !in headers then Some(MissingContentType)
    else
      var contentType := BeforeFirst(headers["content-type"], ';');
      if contentType != "application/json" then Some(UnexpectedContentType(contentType)) else None
  }

  /** `_process_response`. */
  function ProcessResponse(castTo: ResultType, response: HttpResponse, strict: bool, decoders: Decoders): (r: Result<Decoded, DecodeError>)
    ensures castTo == NoneType ==> r == Ok(NoneValue)
    ensures castTo == Str ==> r == Ok(Text(response.text))
    ensures castTo == RawResponse ==> r == Ok(ResponseHandle)
    ensures castTo == ResponseSubclass ==> r == Err(ResponseSubclassRequested)
    ensures castTo == Unsupported ==> r == Err(InvalidResultType)
    ensures castTo.Unknown? || castTo.Model? || castTo.Builder? ==>
      var gate := CheckContentType(response.headers);
      var parsed := decoders.parseJson(response.text);
      && (gate.Some? ==> r == Err(gate.value))
      && (gate.None? && parsed.None? ==> r == Err(MalformedJson))
      && (gate.None? && parsed.Some? ==> r == ProcessResponseData(parsed.value, castTo, strict, decoders))
  {
    if castTo == NoneType then Ok(NoneValue)
    else if castTo == Str then Ok(Text(response.text))
    else if castTo == RawResponse then Ok(ResponseHandle)
    else if castTo == ResponseSubclass then Err(ResponseSubclassRequested)
    else if castTo == Unsupported then Err(InvalidResultType)
    else
      match CheckContentType(response.headers)
      case Some(e) => Err(e)
      case None =>
        match decoders.parseJson(response.text)
        case None => Err(MalformedJson)
        case Some(data) => ProcessResponseData(data, castTo, strict, decoders)
  }

  /** A JSON `null` body short-circuits to `None` for every JSON result type. */
  lemma NullBodyIsNone(castTo: ResultType, response: HttpResponse, strict: bool, decoders: Decoders)
    requires castTo.Unknown? || castTo.Model? || castTo.Builder?
    requires CheckContentType(response.headers).None?
    requires decoders.parseJson(response.text) == Some(JNull)
    ensures ProcessResponse(castTo, response, strict, decoders) == Ok(NoneValue)
  {
  }

  /** Only strict mode can fail validation; permissive construction never raises. */
  lemma PermissiveNeverFailsValidation(castTo: ResultType, response: HttpResponse, decoders: Decoders)
    ensures ProcessResponse(castTo, response, false, decoders) != Err(ValidationFailed)
  {
  }

  /** A `charset` (or any other parameter) after the media type passes the gate. */
  lemma MediaTypeParametersIgnored(headers: map<string, string>, suffix: string)
    ensures CheckContentType(headers["content-type" := "application/json;" + suffix]).None?
  {
    var mediaType := "application/json";
    assert forall i :: 0 <= i < |mediaType| ==> mediaType[i] != ';';
    assert mediaType + ";" + suffix == "application/json;" + suffix;
    BeforeFirstPrefix(mediaType, suffix);
  }

  /** `BeforeFirst` stops at the first separator: text without one followed by the separator keeps the text. */
  lemma {:induction false} BeforeFirstPrefix(s: string, rest: string)
    requires ';' !in s
    ensures BeforeFirst(s + ";" + rest, ';') == s
  {
    if s != [] {
      assert (s + ";" + rest)[1..] == s[1..] + ";" + rest;
      BeforeFirstPrefix(s[1..], rest);
    }
  }
}
