/** The older `HTTPClient` with its own `ResponseParser`: callback, Combine and
    async delivery, the base URL coming from the endpoint's override when it has
    one. As written, the callback path creates its data task and never resumes it,
    so it sends nothing and never calls back (`RunDataTaskAsWritten`); `RunDataTask`
    is the corrected definition, with the task resumed, that the rest of the module
    builds on. */
module UrlSessionClient {
  import opened Common
  import opened Foundation
  import opened Errors
  import opened EndPoints
  import opened LegacyEndPoints
  import opened ResponseParser
  import opened HttpClient

  /** The older `parse<T>`: validate, then always decode, even when `T` is `Data`.
      Its `validate` is the same as the current one. */
  function Parse<T>(data: Bytes, response: UrlResponse, decode: Bytes -> Result<T, Error>): (r: Result<Response<T>, Error>)
    requires response.HttpUrlResponse?
    ensures !IsSuccessStatus(response.statusCode) ==> r == Failure(BadResponse(response.statusCode, data, response))
    ensures IsSuccessStatus(response.statusCode) && decode(data).Success? ==> r == Success(Response(decode(data).value, response))
    ensures IsSuccessStatus(response.statusCode) && decode(data).Failure? ==> r == Failure(decode(data).error)
  {
    var validated :- Validate(data, response);
    var value :- decode(validated);
    Success(Response(value, response))
  }

  /** `wrap(data:response:)`: the validated bytes as the value. Its `validate` is
      a copy of the current one, so it is the current raw parse. */
  function Wrap(data: Bytes, response: UrlResponse): (r: Result<Response<Bytes>, Error>)
    requires response.HttpUrlResponse?
    ensures r.Success? <==> IsSuccessStatus(response.statusCode)
    ensures r.Success? ==> r.value == Response(data, response)
    ensures r.Failure? ==> r.error == BadResponse(response.statusCode, data, response)
  {
    ParseRaw(data, response)
  }

  /** The older parse is the current one with the `Data` pass-through removed: they
      agree whenever the cast fails, and for `Data` on a 2xx status the current one
      returns the bytes while the older one returns whatever the decoder makes of
      them. */
  lemma OlderParseHasNoDataPassThrough<T>(
    data: Bytes, response: UrlResponse, decode: Bytes -> Result<T, Error>, decodeData: Bytes -> Result<Bytes, Error>)
    requires response.HttpUrlResponse?
    ensures Parse(data, response, decode) == ResponseParser.Parse(data, response, (d: Bytes) => None, decode)
    ensures IsSuccessStatus(response.statusCode) ==>
      && ResponseParser.Parse(data, response, (d: Bytes) => Some(d), decodeData) == Success(Response(data, response))
      && Parse(data, response, decodeData) == (match decodeData(data) {
           case Success(v) => Success(Response(v, response))
           case Failure(e) => Failure(e)
         })
  {
  }

  datatype SessionClient = SessionClient(baseUrl: Url)

  /** What a data task's completion handler receives: each part may be missing. */
  datatype TransportOutcome = TransportOutcome(data: Option<Bytes>, response: Option<UrlResponse>, error: Option<Error>)

  /** `getRequest(from:requestEncoder:)`: the endpoint's base URL if it has one,
      else the client's. */
  function GetRequest(client: SessionClient, e: LegacyEndPoint, encoder: Encoder<LegacyEndPoint>): (r: Result<UrlRequest, Error>)
    ensures e.baseUrl.Some? ==> r == encoder(e.baseUrl.value, e)
    ensures e.baseUrl.None? ==> r == encoder(client.baseUrl, e)
  {
    encoder(BaseUrlFor(e.baseUrl, client.baseUrl), e)
  }

  /** The older endpoint's base URL is the current client's override argument: the
      older request is the current one built with `overrideBaseURL` set to the
      endpoint's base URL. */
  lemma GetRequestIsCurrentWithOverride(client: SessionClient, e: LegacyEndPoint, encoder: Encoder<LegacyEndPoint>)
    ensures GetRequest(client, e, encoder)
         == HttpClient.GetRequest(Client(client.baseUrl), Current(e), Adapted(encoder, e), e.baseUrl)
  {
  }

  /** An older encoder as a current one, for the endpoint `e`. */
  function Adapted(encoder: Encoder<LegacyEndPoint>, e: LegacyEndPoint): (adapted: Encoder<EndPoint>) {
    (u: Url, c: EndPoint) => encoder(u, e)
  }

  /** A data task as the callback clients leave it: the request it was started
      with, if it was started, and the single completion delivered, if any. */
  datatype TaskState<T> = TaskState(sent: Option<UrlRequest>, completion: Option<Result<T, Error>>)

  /** The callback `runDataTask` as written. The data task is created but
      `resume()` is never called on it, and a new task starts suspended. So a
      build error still completes with that error, but after a successful build
      nothing is sent and the completion handler is never called, whatever the
      transport would have delivered. */
  function RunDataTaskAsWritten<T>(client: SessionClient, e: LegacyEndPoint, encoder: Encoder<LegacyEndPoint>)
    : (t: TaskState<T>)
    ensures t.sent.None?
    ensures t.completion.Some? <==> GetRequest(client, e, encoder).Failure?
    ensures t.completion.Some? ==> t.completion.value == Failure(GetRequest(client, e, encoder).error)
  {
    match GetRequest(client, e, encoder)
    case Failure(err) => TaskState(None, Some(Failure(err)))
    case Success(_) => TaskState(None, None)
  }

  /** The callback `runDataTask` with the data task resumed. A build error completes
      with that error and no data task is created. Missing data or a missing
      response completes with the transport error, or `unknown` when there is none,
      and never with a success. With both present, any transport error is ignored
      and the mapped response (success or thrown error) is the result. */
  function RunDataTask<T>(
    client: SessionClient, e: LegacyEndPoint, encoder: Encoder<LegacyEndPoint>,
    outcome: TransportOutcome, responseMap: (Bytes, UrlResponse) --> Result<T, Error>)
    : (x: Exchange<T>)
    requires outcome.data.Some? && outcome.response.Some? ==> responseMap.requires(outcome.data.value, outcome.response.value)
    ensures GetRequest(client, e, encoder).Failure? ==> x == Exchange(None, Failure(GetRequest(client, e, encoder).error))
    ensures GetRequest(client, e, encoder).Success? ==> x.sent == Some(GetRequest(client, e, encoder).value)
    ensures x.sent.Some? && (outcome.data.None? || outcome.response.None?) ==>
      x.result == Failure(outcome.error.GetOr(Unknown))
    ensures x.sent.Some? && outcome.data.Some? && outcome.response.Some? ==>
      x.result == responseMap(outcome.data.value, outcome.response.value)
  {
    match GetRequest(client, e, encoder)
    case Failure(err) => Exchange(None, Failure(err))
    case Success(request) =>
      if outcome.data.None? || outcome.response.None? then Exchange(Some(request), Failure(outcome.error.GetOr(Unknown)))
      else Exchange(Some(request), responseMap(outcome.data.value, outcome.response.value))
  }

  /** The missing `resume()` is the only difference: on a build error both complete
      alike with nothing sent; after a successful build the resumed task sends the
      request and completes once, while the task as written sends nothing and
      never completes. */
  lemma SuspendedTaskNeverCompletes<T>(
    client: SessionClient, e: LegacyEndPoint, encoder: Encoder<LegacyEndPoint>,
    outcome: TransportOutcome, responseMap: (Bytes, UrlResponse) --> Result<T, Error>)
    requires outcome.data.Some? && outcome.response.Some? ==> responseMap.requires(outcome.data.value, outcome.response.value)
    ensures var asWritten := RunDataTaskAsWritten<T>(client, e, encoder);
      var resumed := RunDataTask(client, e, encoder, outcome, responseMap);
      && (GetRequest(client, e, encoder).Failure? ==> asWritten == TaskState(resumed.sent, Some(resumed.result)))
      && (GetRequest(client, e, encoder).Success? ==>
            asWritten == TaskState(None, None) && resumed.sent == Some(GetRequest(client, e, encoder).value))
  {
  }

  /** `run<T>(endpoint:requestEncoder:decoder:completion:)`, with the data task
      resumed. */
  function Run<T>(
    client: SessionClient, e: LegacyEndPoint, encoder: Encoder<LegacyEndPoint>,
    outcome: TransportOutcome, decode: Bytes -> Result<T, Error>)
    : (x: Exchange<Response<T>>)
    requires outcome.data.Some? && outcome.response.Some? ==> outcome.response.value.HttpUrlResponse?
    ensures x.sent.None? <==> GetRequest(client, e, encoder).Failure?
    ensures GetRequest(client, e, encoder).Success? ==> x.sent == Some(GetRequest(client, e, encoder).value)
    ensures x.sent.None? ==> x.result == Failure(GetRequest(client, e, encoder).error)
    ensures x.sent.Some? && (outcome.data.None? || outcome.response.None?) ==>
      x.result == Failure(outcome.error.GetOr(Unknown))
    ensures x.sent.Some? && outcome.data.Some? && outcome.response.Some? ==>
      x.result == Parse(outcome.data.value, outcome.response.value, decode)
    ensures x.result.Success? ==>
      && outcome.data.Some? && outcome.response.Some?
      && IsSuccessStatus(outcome.response.value.statusCode)
      && decode(outcome.data.value) == Success(x.result.value.value)
  {
    RunDataTask(client, e, encoder, outcome,
      (data: Bytes, response: UrlResponse) requires response.HttpUrlResponse? => Parse(data, response, decode))
  }

  /** `rawData(endpoint:requestEncoder:completion:)`, with the data task resumed. */
  function RawData(client: SessionClient, e: LegacyEndPoint, encoder: Encoder<LegacyEndPoint>, outcome: TransportOutcome)
    : (x: Exchange<Response<Bytes>>)
    requires outcome.data.Some? && outcome.response.Some? ==> outcome.response.value.HttpUrlResponse?
    ensures x.sent.None? <==> GetRequest(client, e, encoder).Failure?
    ensures GetRequest(client, e, encoder).Success? ==> x.sent == Some(GetRequest(client, e, encoder).value)
    ensures x.sent.None? ==> x.result == Failure(GetRequest(client, e, encoder).error)
    ensures x.sent.Some? && (outcome.data.None? || outcome.response.None?) ==>
      x.result == Failure(outcome.error.GetOr(Unknown))
    ensures x.sent.Some? && outcome.data.Some? && outcome.response.Some? ==>
      x.result == Wrap(outcome.data.value, outcome.response.value)
    ensures x.result.Success? ==>
      && outcome.data.Some? && outcome.response.Some?
      && IsSuccessStatus(outcome.response.value.statusCode)
      && x.result.value == Response(outcome.data.value, outcome.response.value)
  {
    RunDataTask(client, e, encoder, outcome,
      (data: Bytes, response: UrlResponse) requires response.HttpUrlResponse? => Wrap(data, response))
  }

  /** The Combine and async `run<T>`: a data task that either delivers data and a
      response or throws, mapped by the older parse. These variants start their
      task themselves. */
  function RunAsync<T>(
    client: SessionClient, e: LegacyEndPoint, encoder: Encoder<LegacyEndPoint>,
    delivery: Delivery, decode: Bytes -> Result<T, Error>)
    : (x: Exchange<Response<T>>)
    requires delivery.Delivered? ==> delivery.response.HttpUrlResponse?
    ensures x.sent.None? <==> GetRequest(client, e, encoder).Failure?
    ensures x.sent.None? ==> x.result == Failure(GetRequest(client, e, encoder).error)
    ensures x.sent.Some? ==> x.sent == Some(GetRequest(client, e, encoder).value)
    ensures x.sent.Some? && delivery.TransportFailed? ==> x.result == Failure(delivery.error)
    ensures x.sent.Some? && delivery.Delivered? ==> x.result == Parse(delivery.data, delivery.response, decode)
  {
    HttpClient.RunDataTask(GetRequest(client, e, encoder), delivery,
      (data: Bytes, response: UrlResponse) requires response.HttpUrlResponse? => Parse(data, response, decode))
  }

  /** The older async `run` is the current `run` with the endpoint's base URL as the
      override and a `T` that is never `Data`: same request, same transport call,
      same result. */
  lemma RunAsyncIsCurrentRun<T>(
    client: SessionClient, e: LegacyEndPoint, encoder: Encoder<LegacyEndPoint>,
    delivery: Delivery, decode: Bytes -> Result<T, Error>)
    requires delivery.Delivered? ==> delivery.response.HttpUrlResponse?
    ensures RunAsync(client, e, encoder, delivery, decode)
         == HttpClient.Run(Client(client.baseUrl), Current(e), Adapted(encoder, e), e.baseUrl, delivery, (d: Bytes) => None, decode)
  {
    GetRequestIsCurrentWithOverride(client, e, encoder);
    if delivery.Delivered? {
      OlderParseHasNoDataPassThrough(delivery.data, delivery.response, decode, (d: Bytes) => Success(d));
    }
  }
}
