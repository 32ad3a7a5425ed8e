/** `ResponseParser` of the current generation: the status check and the typed and
    raw parses built on it, and the `Response` value they return. */
module ResponseParser {
  import opened Common
  import opened Foundation
  import opened Errors

  /** `Response<T>`: a decoded value with the response it came from. */
  datatype Response<T> = Response(value: T, response: UrlResponse)

  /** The statuses `validate` accepts: `200..<300`. */
  predicate IsSuccessStatus(statusCode: int) {
    200 <= statusCode < 300
  }

  /** `validate(data:response:)`. The response is force-cast to an HTTP response, so
      the caller must supply one. A 2xx status passes the bytes through untouched;
      any other status throws `badResponse` with that status, those bytes and that
      response. */
  function Validate(data: Bytes, response: UrlResponse): (r: Result<Bytes, Error>)
    requires response.HttpUrlResponse?
    ensures r.Success? <==> IsSuccessStatus(response.statusCode)
    ensures r.Success? ==> r.value == data
    ensures r.Failure? ==> r.error == BadResponse(response.statusCode, data, response)
  {
    if IsSuccessStatus(response.statusCode) then Success(data)
    else Failure(BadResponse(response.statusCode, data, response))
  }

  /** The edges of the accepted range: 200 and 299 pass, 199 and 300 do not. */
  lemma StatusBoundaries(data: Bytes, url: Url, headerFields: map<string, string>)
    ensures Validate(data, HttpUrlResponse(url, 200, headerFields)) == Success(data)
    ensures Validate(data, HttpUrlResponse(url, 299, headerFields)) == Success(data)
    ensures Validate(data, HttpUrlResponse(url, 199, headerFields)).Failure?
    ensures Validate(data, HttpUrlResponse(url, 300, headerFields)).Failure?
  {
  }

  /** `parse<T>(data:response:decoder:)`. `asT` is the dynamic cast `data as? T`,
      which succeeds exactly when `T` is `Data`; `decode` is the decoder for `T`.
      The status is checked before anything is decoded; the cast value is used
      when there is one and the decoder is then not consulted; a decoder error is
      thrown as it is, unwrapped. */
  function Parse<T>(data: Bytes, response: UrlResponse, asT: Bytes -> Option<T>, decode: Bytes -> Result<T, Error>)
    : (r: Result<Response<T>, Error>)
    requires response.HttpUrlResponse?
    ensures !IsSuccessStatus(response.statusCode) ==> r == Failure(BadResponse(response.statusCode, data, response))
    ensures IsSuccessStatus(response.statusCode) && asT(data).Some? ==> r == Success(Response(asT(data).value, response))
    ensures IsSuccessStatus(response.statusCode) && asT(data).None? && decode(data).Success? ==>
      r == Success(Response(decode(data).value, response))
    ensures IsSuccessStatus(response.statusCode) && asT(data).None? && decode(data).Failure? ==>
      r == Failure(decode(data).error)
    ensures r.Success? ==> r.value.response == response
  {
    var validated :- Validate(data, response);
    var value :- match asT(validated) {
      case Some(v) => Success(v)
      case None => decode(validated)
    };
    Success(Response(value, response))
  }

  /** `parse(data:response:)`, the raw parse: the validated bytes themselves. */
  function ParseRaw(data: Bytes, response: UrlResponse): (r: Result<Response<Bytes>, Error>)
    requires response.HttpUrlResponse?
    ensures r.Success? <==> IsSuccessStatus(response.statusCode)
    ensures r.Success? ==> r.value == Response(data, response)
    ensures r.Failure? ==> r.error == BadResponse(response.statusCode, data, response)
  {
    var validated :- Validate(data, response);
    Success(Response(validated, response))
  }

  /** Asking the typed parse for `Data` gives the raw parse, whatever decoder is
      passed: the decoder is never called. */
  lemma DataParseIsRawParse(data: Bytes, response: UrlResponse, decode: Bytes -> Result<Bytes, Error>)
    requires response.HttpUrlResponse?
    ensures Parse(data, response, (d: Bytes) => Some(d), decode) == ParseRaw(data, response)
  {
  }
}
