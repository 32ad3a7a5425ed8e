/** The Foundation values the client library manipulates: JSON trees as
    `JSONSerialization` yields them, URLs and their components, query items,
    URL requests and responses, and the `Encodable` values callers hand in. */
module Foundation {
  import opened Common

  /** The object graph `JSONSerialization.jsonObject(with:)` returns. An object
      keeps its members in the order the parsed dictionary enumerates them; that
      order is unspecified and the model never depends on it. */
  datatype Json =
    | JNull
    | JBool(b: bool)
    | JNumber(n: real)
    | JString(s: string)
    | JArray(elements: seq<Json>)
    | JObject(members: seq<Member>)

  datatype Member = Member(key: string, value: Json)

  /** A dictionary never repeats a key. */
  predicate DistinctKeys(members: seq<Member>) {
    forall i, j | 0 <= i < j < |members| :: members[i].key != members[j].key
  }

  /** A value conforming to `Encodable`: either a structured value, described by the
      tree a JSON encoder would produce for it, or raw `Data` (a multipart body). */
  datatype Encodable = Structured(tree: Json) | RawData(bytes: Bytes)

  /** `[String:String]()`, the default query parameters of an endpoint. */
  const EmptyDictionary: Encodable := Structured(JObject([]))

  datatype Url = Url(absoluteString: string)

  /** `URLComponents` of a URL: everything but the query, and the query exactly as
      it appears on the wire (`percentEncodedQuery`). */
  datatype Components = Components(withoutQuery: string, percentEncodedQuery: Option<string>)

  /** `URLQueryItem`: a name and an optional value. */
  datatype QueryItem = QueryItem(name: string, value: Option<string>)

  /** `URLResponse`; only `HTTPURLResponse` carries a status code. */
  datatype UrlResponse =
    | HttpUrlResponse(url: Url, statusCode: int, headerFields: map<string, string>)
    | OtherResponse(url: Url)

  /** The wire request handed to the transport. An absent body is `None`, never
      an empty byte string. */
  datatype UrlRequest = UrlRequest(
    url: Url,
    httpMethod: string,
    allHttpHeaderFields: map<string, string>,
    httpBody: Option<Bytes>)
}
