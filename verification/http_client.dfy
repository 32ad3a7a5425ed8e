/** `HTTPClient` of the current generation: build the request, hand it to the
    transport once, and map what comes back. The transport is an input: what it
    would deliver for the request. */
module HttpClient {
  import opened Common
  import opened Foundation
  import opened Errors
  import opened EndPoints
  import opened ResponseParser

  datatype Client = Client(baseUrl: Url)

  /** What an awaited data task gives back: the bytes and response, or a thrown error. */
  datatype Delivery = Delivered(data: Bytes, response: UrlResponse) | TransportFailed(error: Error)

  /** The outcome of one call: the request handed to the transport (`None` when the
      transport was never invoked) and the single result delivered to the caller. */
  datatype Exchange<T> = Exchange(sent: Option<UrlRequest>, result: Result<T, Error>)

  /** A request encoder (`URLRequestEncoder`), given a base URL and an endpoint. */
  type Encoder<!E> = (Url, E) -> Result<UrlRequest, Error>

  /** `override ?? fallback`: the base URL a request is built against. */
  function BaseUrlFor(override: Option<Url>, fallback: Url): (u: Url)
    ensures override.Some? ==> u == override.value
    ensures override.None? ==> u == fallback
  {
    override.GetOr(fallback)
  }

  /** `getRequest(from:requestEncoder:overrideBaseURL:)`: the encoder applied to the
      override when there is one, else to the client's base URL. */
  function GetRequest(client: Client, e: EndPoint, encoder: Encoder<EndPoint>, overrideBaseUrl: Option<Url>)
    : (r: Result<UrlRequest, Error>)
    ensures overrideBaseUrl.Some? ==> r == encoder(overrideBaseUrl.value, e)
    ensures overrideBaseUrl.None? ==> r == encoder(client.baseUrl, e)
  {
    encoder(BaseUrlFor(overrideBaseUrl, client.baseUrl), e)
  }

  /** `runDataTask`: a build error is thrown without invoking the transport; a
      transport error is thrown unchanged; otherwise the response is mapped. */
  function RunDataTask<T>(request: Result<UrlRequest, Error>, delivery: Delivery, responseMap: (Bytes, UrlResponse) --> Result<T, Error>)
    : (x: Exchange<T>)
    requires delivery.Delivered? ==> responseMap.requires(delivery.data, delivery.response)
    ensures request.Failure? ==> x == Exchange(None, Failure(request.error))
    ensures request.Success? ==> x.sent == Some(request.value)
    ensures request.Success? && delivery.TransportFailed? ==> x.result == Failure(delivery.error)
    ensures request.Success? && delivery.Delivered? ==> x.result == responseMap(delivery.data, delivery.response)
  {
    match request
    case Failure(e) => Exchange(None, Failure(e))
    case Success(req) =>
      match delivery
      case TransportFailed(e) => Exchange(Some(req), Failure(e))
      case Delivered(data, response) => Exchange(Some(req), responseMap(data, response))
  }

  /** `run<T>(endpoint:requestEncoder:decoder:overrideBaseURL:)`: the typed parse of
      whatever the transport delivers for the built request. */
  function Run<T>(
    client: Client, e: EndPoint, encoder: Encoder<EndPoint>, overrideBaseUrl: Option<Url>,
    delivery: Delivery, asT: Bytes -> Option<T>, decode: Bytes -> Result<T, Error>)
    : (x: Exchange<Response<T>>)
    requires delivery.Delivered? ==> delivery.response.HttpUrlResponse?
    ensures x.sent.None? <==> GetRequest(client, e, encoder, overrideBaseUrl).Failure?
    ensures GetRequest(client, e, encoder, overrideBaseUrl).Success? ==> x.sent == Some(GetRequest(client, e, encoder, overrideBaseUrl).value)
    ensures x.sent.None? ==> x.result == Failure(GetRequest(client, e, encoder, overrideBaseUrl).error)
    ensures x.sent.Some? && delivery.TransportFailed? ==> x.result == Failure(delivery.error)
    ensures x.sent.Some? && delivery.Delivered? ==>
      x.result == Parse(delivery.data, delivery.response, asT, decode)
  {
    RunDataTask(GetRequest(client, e, encoder, overrideBaseUrl), delivery,
      (data: Bytes, response: UrlResponse) requires response.HttpUrlResponse? => Parse(data, response, asT, decode))
  }

  /** `run(endpoint:requestEncoder:overrideBaseURL:)`: the raw parse. */
  function RunRaw(client: Client, e: EndPoint, encoder: Encoder<EndPoint>, overrideBaseUrl: Option<Url>, delivery: Delivery)
    : (x: Exchange<Response<Bytes>>)
    requires delivery.Delivered? ==> delivery.response.HttpUrlResponse?
    ensures x.sent.None? <==> GetRequest(client, e, encoder, overrideBaseUrl).Failure?
    ensures GetRequest(client, e, encoder, overrideBaseUrl).Success? ==> x.sent == Some(GetRequest(client, e, encoder, overrideBaseUrl).value)
    ensures x.sent.None? ==> x.result == Failure(GetRequest(client, e, encoder, overrideBaseUrl).error)
    ensures x.sent.Some? && delivery.TransportFailed? ==> x.result == Failure(delivery.error)
    ensures x.sent.Some? && delivery.Delivered? ==> x.result == ParseRaw(delivery.data, delivery.response)
  {
    RunDataTask(GetRequest(client, e, encoder, overrideBaseUrl), delivery,
      (data: Bytes, response: UrlResponse) requires response.HttpUrlResponse? => ParseRaw(data, response))
  }

  /** A call never succeeds on a non-2xx status: whatever the transport delivers,
      a success carries a 2xx response. */
  lemma RunSucceedsOnlyOn2xx<T>(
    client: Client, e: EndPoint, encoder: Encoder<EndPoint>, overrideBaseUrl: Option<Url>,
    delivery: Delivery, asT: Bytes -> Option<T>, decode: Bytes -> Result<T, Error>)
    requires delivery.Delivered? ==> delivery.response.HttpUrlResponse?
    requires Run(client, e, encoder, overrideBaseUrl, delivery, asT, decode).result.Success?
    ensures delivery.Delivered? && IsSuccessStatus(delivery.response.statusCode)
    ensures Run(client, e, encoder, overrideBaseUrl, delivery, asT, decode).result.value.response == delivery.response
  {
  }
}
