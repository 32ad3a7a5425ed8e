/** `PromiseSessionClient`: builds the request with an `HTTPEncoder`, creates one
    data task, and settles the promise from a status/data/error decision table.
    Settling is modelled as returning the single result. As written, the task is
    never resumed, so the promise never settles (`RunAsWritten`); `Run` is the
    corrected definition, with the task resumed. */
module PromiseClient {
  import opened Common
  import opened Foundation
  import opened Errors
  import opened LegacyEndPoints
  import opened ResponseParser
  import opened HttpClient
  import opened UrlSessionClient

  datatype PromiseSessionClient = PromiseSessionClient(baseUrl: Url)

  /** `mapData(data:response:error:resolver:decoder:)`, the five-way table:
      2xx with data fulfils with the decoded value, or rejects with the decoder's
      error unchanged; 2xx without data rejects with the transport error or
      `unknown`; any other status rejects with `badResponse` when there is data and
      with the transport error or `unknown` when there is none. */
  function MapData<T>(data: Option<Bytes>, response: UrlResponse, error: Option<Error>, decode: Bytes -> Result<T, Error>)
    : (r: Result<T, Error>)
    requires response.HttpUrlResponse?
    ensures IsSuccessStatus(response.statusCode) && data.Some? ==> r == decode(data.value)
    ensures IsSuccessStatus(response.statusCode) && data.None? ==> r == Failure(error.GetOr(Unknown))
    ensures !IsSuccessStatus(response.statusCode) && data.Some? ==>
      r == Failure(BadResponse(response.statusCode, data.value, response))
    ensures !IsSuccessStatus(response.statusCode) && data.None? ==> r == Failure(error.GetOr(Unknown))
    ensures r.Success? ==> IsSuccessStatus(response.statusCode) && data.Some?
  {
    if IsSuccessStatus(response.statusCode) then
      match data
      case None => Failure(error.GetOr(Unknown))
      case Some(bytes) => decode(bytes)
    else
      match data
      case Some(bytes) => Failure(BadResponse(response.statusCode, bytes, response))
      case None => Failure(error.GetOr(Unknown))
  }

  /** With data present the table settles exactly as the older parser decides, the
      transport error playing no part. */
  lemma MapDataAgreesWithParser<T>(data: Bytes, response: UrlResponse, error: Option<Error>, decode: Bytes -> Result<T, Error>)
    requires response.HttpUrlResponse?
    ensures var parsed := UrlSessionClient.Parse(data, response, decode);
      && (parsed.Success? ==> MapData(Some(data), response, error, decode) == Success(parsed.value.value))
      && (parsed.Failure? ==> MapData(Some(data), response, error, decode) == Failure(parsed.error))
  {
  }

  /** `getRequest(from:requestEncoder:resolver:)`: `endpoint.baseURL ?? baseURL`,
      as in the callback client. */
  function GetRequest(client: PromiseSessionClient, e: LegacyEndPoint, encoder: Encoder<LegacyEndPoint>): (r: Result<UrlRequest, Error>)
    ensures e.baseUrl.Some? ==> r == encoder(e.baseUrl.value, e)
    ensures e.baseUrl.None? ==> r == encoder(client.baseUrl, e)
  {
    UrlSessionClient.GetRequest(SessionClient(client.baseUrl), e, encoder)
  }

  /** `run(endpoinit:requestEncoder:decoder:)` as written. The data task is created
      but never resumed, so an encoder error still rejects, while after a
      successful build nothing is sent and the promise stays pending forever. */
  function RunAsWritten<T>(client: PromiseSessionClient, e: LegacyEndPoint, encoder: Encoder<LegacyEndPoint>)
    : (t: TaskState<T>)
    ensures t.sent.None?
    ensures t.completion.Some? <==> GetRequest(client, e, encoder).Failure?
    ensures t.completion.Some? ==> t.completion.value == Failure(GetRequest(client, e, encoder).error)
  {
    match GetRequest(client, e, encoder)
    case Failure(err) => TaskState(None, Some(Failure(err)))
    case Success(_) => TaskState(None, None)
  }

  /** `run(endpoinit:requestEncoder:decoder:)` with the data task resumed. An
      encoder error rejects before any transport call. A missing or non-HTTP response rejects with the transport
      error or `unknown`; otherwise the decision table settles the promise. */
  function Run<T>(
    client: PromiseSessionClient, e: LegacyEndPoint, encoder: Encoder<LegacyEndPoint>,
    outcome: TransportOutcome, decode: Bytes -> Result<T, Error>)
    : (x: Exchange<T>)
    ensures GetRequest(client, e, encoder).Failure? ==> x == Exchange(None, Failure(GetRequest(client, e, encoder).error))
    ensures GetRequest(client, e, encoder).Success? ==> x.sent == Some(GetRequest(client, e, encoder).value)
    ensures x.sent.Some? && (outcome.response.None? || !outcome.response.value.HttpUrlResponse?) ==>
      x.result == Failure(outcome.error.GetOr(Unknown))
    ensures x.sent.Some? && outcome.response.Some? && outcome.response.value.HttpUrlResponse? ==>
      x.result == MapData(outcome.data, outcome.response.value, outcome.error, decode)
    ensures x.result.Success? ==>
      && outcome.response.Some? && outcome.response.value.HttpUrlResponse?
      && IsSuccessStatus(outcome.response.value.statusCode)
      && outcome.data.Some? && decode(outcome.data.value) == x.result
  {
    match GetRequest(client, e, encoder)
    case Failure(err) => Exchange(None, Failure(err))
    case Success(request) =>
      match outcome.response
      case Some(response) =>
        if response.HttpUrlResponse? then Exchange(Some(request), MapData(outcome.data, response, outcome.error, decode))
        else Exchange(Some(request), Failure(outcome.error.GetOr(Unknown)))
      case None => Exchange(Some(request), Failure(outcome.error.GetOr(Unknown)))
  }

  /** The missing `resume()` is the only difference: an encoder error rejects alike;
      after a successful build the resumed task sends the request and settles the
      promise, while the task as written sends nothing and never settles it. */
  lemma SuspendedPromiseNeverSettles<T>(
    client: PromiseSessionClient, e: LegacyEndPoint, encoder: Encoder<LegacyEndPoint>,
    outcome: TransportOutcome, decode: Bytes -> Result<T, Error>)
    ensures var asWritten := RunAsWritten<T>(client, e, encoder);
      var resumed := Run(client, e, encoder, outcome, decode);
      && (GetRequest(client, e, encoder).Failure? ==> asWritten == TaskState(resumed.sent, Some(resumed.result)))
      && (GetRequest(client, e, encoder).Success? ==>
            asWritten == TaskState(None, None) && resumed.sent == Some(GetRequest(client, e, encoder).value))
  {
  }
}
