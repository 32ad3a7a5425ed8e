# ApiClient request/response pipeline in Dafny

A model of the Swift `ApiClient` library's request-encoding and
response-classification pipeline. An `EndPoint` describes one REST call: its
method, path, query parameters, optional body and headers. A request encoder
turns it into a `URLRequest`. The query parameters are JSON-encoded, parsed back
into a dictionary, and each top-level key becomes one query item. The items are
appended to the URL, and every literal `+` in the query is escaped as `%2B`. The
body, if any, is JSON-encoded. A client builds the request, hands it to the
transport, and maps what comes back. Its response parser either passes the bytes
of a 2xx response on, or raises `badResponse` carrying the status, the bytes and
the response. The older callback and Promise clients never start their data task
(see "## Findings").

The repository holds two generations of these types that cannot compile
together. Both are modelled:

- The current generation is canonical: `EndPoints`, `UrlRequestEncoder`,
  `Extensions`, `ResponseParser` and `HttpClient`.
- The older generation is modelled beside it: `LegacyEndPoints`,
  `DefaultEncoder`, `UrlSessionClient` and `PromiseClient`. It differs in three
  observable ways. Its endpoint can override the client's base URL. Its
  `DefaultHTTPEncoder` overlays the encoding policy's headers. Its parsers
  always decode, with no pass-through for `Data`.

Every operation is a pure function over immutable values:

- **Foundation.** The pieces of Foundation the library calls are the fields of
  `Platform.Services`, so every property holds for any implementation of them.
  Those pieces are `JSONEncoder`, `JSONSerialization`, `String(data:encoding:)`,
  `String(describing:)`, `URLComponents`, the per-character percent-encoding of
  query names and of query values, and
  `appendingPathComponent`.
- **Dictionary order.** A parsed JSON object keeps its members in the
  dictionary's enumeration order, which is unspecified.
  `UrlRequestEncoder.FlattenIgnoresOrder` proves that the flattened query items
  depend on that order only as a permutation.
- **Transport.** The transport is an input value: what the data task would
  deliver. A client call returns an `Exchange`. It holds the request handed to
  the transport (`None` when the transport is never invoked) and the single
  result delivered to the caller. Returning one result is the model of a
  started data task whose completion handler or promise settles once. A task
  that is never started is a `UrlSessionClient.TaskState`, whose completion may
  be absent.
- **Errors.** Swift's untyped `Error` is `Errors.Error`: the four
  `RequestError` cases plus `Foreign` for any other thrown error. Errors from
  the encoder, decoder or transport pass through as the same value.
- **Force cast.** The force cast `response as! HTTPURLResponse` in `validate` is
  a precondition. The clients that reach it carry it as a precondition on the
  delivered response. The callback clients reach it only when both data and a
  response arrive, so only that case is constrained; missing data completes
  with `error ?? unknown` whatever the response is.

Points where a reader might expect otherwise; the model follows the code:

- A query whose JSON parses to a top-level value other than an object raises
  `invalidBody`, not `invalideQueryParam`. `JSONSerialization` without
  `.fragmentsAllowed` already rejects a top-level string or number with its own
  error, which is passed on, so in practice this case is a top-level array.
- `ResponseParser` force-casts a non-HTTP response instead of reporting
  `unknown`. Only `PromiseSessionClient` checks with `as?`.
- The current `DefaultURLRequestEncoder` applies no policy headers. Content-Type
  comes only from the `EndPoint` initialisers.
- `DefaultHTTPEncoder` reads `endPoint.encoding`
  (Sources/ApiClient/Encoder/DefaultEncoder.swift:35). Neither `EndPoint`
  declares that member (Sources/ApiClient/EndPoint.swift:38-45,
  Sources/ApiClient/Request/EndPoint.swift:29-34). `DefaultEncoder.Request`
  therefore takes the encoding policy as its own argument.

## Model

| member | source | states |
|---|---|---|
| EndPoints.MethodName | Sources/ApiClient/Request/EndPoint.swift:9-14 | each method's raw value is an upper-case word of three to six letters |
| EndPoints.ParseMethod | Sources/ApiClient/Request/EndPoint.swift:9-14 | the raw-value initialiser of `HTTPMethod` recognises exactly the four raw values and returns the method with that raw value |
| EndPoints.MethodNamesRoundTrip | Sources/ApiClient/Request/EndPoint.swift:9-14 | each method's raw value is one of "GET", "POST", "PUT", "DELETE" and names that method back |
| EndPoints.MethodNamesDistinct | Sources/ApiClient/Request/EndPoint.swift:9-14 | two different methods never share a raw value |
| EndPoints.ContentTypeName | Sources/ApiClient/Request/EndPoint.swift:24-27 | each content type's raw value is a media type of the "application" top-level type |
| EndPoints.ParseContentType | Sources/ApiClient/Request/EndPoint.swift:24-27 | the raw-value initialiser of `ContentType` accepts exactly the json and form raw values |
| EndPoints.ContentTypeNamesRoundTrip | Sources/ApiClient/Request/EndPoint.swift:24-27 | each content type's raw value names that content type back |
| EndPoints.WithContentType | Sources/ApiClient/Request/EndPoint.swift:46-52 | Content-Type is forced to the content type's raw value even over a caller's own; every other caller header is kept and no other key is added; method, path, query and body are stored as given |
| EndPoints.WithMultipartForm | Sources/ApiClient/Request/EndPoint.swift:54-60 | without a form the Content-Type key is removed and there is no body; with one, Content-Type is the form's content type and the body its bytes; other headers are kept |
| EndPoints.EndPointDefaults | Sources/ApiClient/Request/EndPoint.swift:46 | query parameters default to an empty dictionary, the body to nil and the caller headers to none |
| Common.ContainsIffOccurs | Sources/ApiClient/Request/EndPoint.swift:36 | the substring test behind `contains` holds exactly when the searched text occurs as a contiguous run at some position |
| EndPoints.IsMultipartForm | Sources/ApiClient/Request/EndPoint.swift:36 | true exactly when the headers hold a Content-Type and "multipart/form-data" occurs at some position of its value; false when there is no Content-Type |
| EndPoints.ContentTypesAreNotMultipart | Sources/ApiClient/Request/EndPoint.swift:24-27 | neither content type's raw value contains "multipart/form-data" |
| EndPoints.ContentTypeEndPointIsNotMultipart | Sources/ApiClient/Request/EndPoint.swift:36 | an endpoint built with `.json` or `.form` is never a multipart form, whatever headers the caller gave |
| EndPoints.MultipartEndPointRecognised | Sources/ApiClient/Request/EndPoint.swift:36 | a multipart-initialised endpoint is a multipart form exactly when a form was given whose content type contains "multipart/form-data" |
| LegacyEndPoints.EncodingTablesSingleContentType | Sources/ApiClient/EndPoint.swift:33-35 | the json, multipart and form tables each hold the single header Content-Type, with application/json, multipart/form-data and application/x-www-form-urlencoded; the json and form values equal the `ContentType` raw values |
| LegacyEndPoints.OnlyMultipartTableIsMultipart | Sources/ApiClient/EndPoint.swift:33-35 | only the multipart table's Content-Type mentions multipart/form-data |
| LegacyEndPoints.WithContentType | Sources/ApiClient/EndPoint.swift:56-62 | the base URL override is stored as given; Content-Type is overwritten with the raw value; every other key is untouched |
| LegacyEndPoints.WithMultipartForm | Sources/ApiClient/EndPoint.swift:64-70 | with a nil form there is no Content-Type key and no body; with a form, its content type and bytes; the override is stored as given |
| LegacyEndPoints.LegacyMatchesCurrent | Sources/ApiClient/EndPoint.swift:56-70 | the override defaults to nil in both initialisers, and apart from it each older initialiser builds the same description as the matching current one |
| Extensions.GetData | Sources/ApiClient/Extensions.swift:12-14 | succeeds exactly when the JSON encoder does, with the encoder's bytes; an encoder error is passed on as the same value |
| Extensions.EscapeChar | Sources/ApiClient/Extensions.swift:31-32 | what one character is rewritten to holds no '+' and is never empty |
| Extensions.EscapePlus | Sources/ApiClient/Extensions.swift:31-32 | the rewritten query contains no '+' and is never shorter |
| Extensions.EscapePlusAppend | Sources/ApiClient/Extensions.swift:31-32 | the rewrite distributes over concatenation, so every piece of the query is rewritten on its own |
| Extensions.EscapePlusFixesPlusFree | Sources/ApiClient/Extensions.swift:31-32 | a query without '+' is left exactly unchanged |
| Extensions.EscapePlusAtPlus | Sources/ApiClient/Extensions.swift:31-32 | each '+' becomes "%2B", with the text on either side rewritten on its own and kept in order |
| Extensions.EscapePlusIdempotent | Sources/ApiClient/Extensions.swift:31-32 | rewriting twice equals rewriting once |
| Extensions.EscapePlusKeepsSeparator | Sources/ApiClient/Extensions.swift:31-32 | any character other than '+' between two pieces, such as the '&' between query items, is kept as it is, with each piece rewritten on its own |
| Extensions.PercentEncodeAppend | Sources/ApiClient/Extensions.swift:27 | the `queryItems` setter percent-encodes a name or value piece by piece, whichever per-character rules apply: encoding distributes over concatenation |
| Extensions.PercentEncodeAround | Sources/ApiClient/Extensions.swift:27 | one character is encoded on its own, whatever text surrounds it |
| Extensions.PercentEncodeKeepsAllowed | Sources/ApiClient/Extensions.swift:27 | text made only of characters the query allows is written unchanged |
| Extensions.EncodedItem | Sources/ApiClient/Extensions.swift:27 | one item as the setter writes it: the name encoded by the name rules comes first; nothing follows exactly when the item has no value; otherwise '=' follows, then the value encoded by the value rules |
| Extensions.SerializeQueryShape | Sources/ApiClient/Extensions.swift:26-27 | the items the setter writes: none give the empty query; otherwise the first item's text starts it, followed by '&' when more items come, and the last item's text ends it |
| Extensions.SingleItemQuery | Sources/ApiClient/Extensions.swift:26-32 | one item appended to a URL without a query is the query exactly as the setter writes it, when that text has no '+' |
| Extensions.SerializeQueryAppend | Sources/ApiClient/Extensions.swift:26-27 | setting existing items followed by new items writes the existing items' query, '&', then the new items' query |
| Extensions.ExistingItems | Sources/ApiClient/Extensions.swift:26 | a URL without a query contributes no existing items |
| Extensions.AppendedQueryHasNoPlus | Sources/ApiClient/Extensions.swift:26-32 | the query set on the components never contains a literal '+' |
| Extensions.AppendedQueryKeepsExisting | Sources/ApiClient/Extensions.swift:26-32 | the existing query survives, rewritten, as a prefix before '&' and the new items; existing items are never dropped |
| Extensions.AppendingQueryItems | Sources/ApiClient/Extensions.swift:18-38 | a URL that cannot be split into components fails with `invalideQueryParam` even for an empty list; an empty list then returns the URL unchanged; otherwise the URL is rebuilt from the existing-then-new query with '+' escaped, or fails with `invalideQueryParam` |
| UrlRequestEncoder.Flatten | Sources/ApiClient/Encoder/URLRequestEncoder.swift:55-68 | succeeds exactly when every object-valued key re-serialises; then one item per key, in order, named by the key; the value is the compact JSON text for an object and the description for anything else, arrays included; otherwise `invalideQueryParam` for the first key that fails |
| UrlRequestEncoder.FlattenOneItemPerKey | Sources/ApiClient/Encoder/URLRequestEncoder.swift:55-58 | the item names are exactly the top-level keys, and distinct keys give distinct names |
| UrlRequestEncoder.FlattenIgnoresOrder | Sources/ApiClient/Encoder/URLRequestEncoder.swift:55-68 | reordering the parsed dictionary changes neither success nor the multiset of items |
| UrlRequestEncoder.EncodeQueryItems | Sources/ApiClient/Encoder/URLRequestEncoder.swift:45-58 | encoder and parser errors propagate unchanged; a top-level value that is not an object fails with `invalidBody`; an object is flattened |
| UrlRequestEncoder.QueryOutcomes | Sources/ApiClient/Encoder/URLRequestEncoder.swift:49-67 | once the parameters encode and parse: `invalidBody` iff the top level is not an object; `invalideQueryParam` iff some object-valued member does not re-serialise; success iff neither, with the item names exactly the top-level keys |
| UrlRequestEncoder.EncodeBody | Sources/ApiClient/Encoder/URLRequestEncoder.swift:41-43 | the body's bytes are exactly the JSON encoder's output, and the request fails with the encoder's own error when it throws |
| UrlRequestEncoder.EncodeOptionalBody | Sources/ApiClient/Encoder/URLRequestEncoder.swift:34-36 | an absent body stays absent and cannot fail; a present one gives the encoder's bytes, or fails exactly when the encoder does, with its error |
| UrlRequestEncoder.Request | Sources/ApiClient/Encoder/URLRequestEncoder.swift:25-39 | the URL is the base with the path appended and the query items added; the method is the raw value; the headers are the endpoint's exactly; the body is absent iff the endpoint has none, else the encoder's bytes; query errors come before append errors, which come before body errors; when all three steps succeed a request is produced |
| DefaultEncoder.Request | Sources/ApiClient/Encoder/DefaultEncoder.swift:19-40 | the headers are the endpoint's overlaid by the policy's, and the policy wins on a shared key; the URL is the base with the path appended and the query items added; method and body are as in the current encoder; query errors come before append errors, which come before body errors; when all three steps succeed a request is produced |
| DefaultEncoder.OverlayIsTheOnlyDifference | Sources/ApiClient/Encoder/DefaultEncoder.swift:35-37 | the older encoder fails exactly when the current one does, with the same error; on success it differs only by the header overlay |
| DefaultEncoder.PolicyContentTypeWins | Tests/ApiClientTests/DefaultEncoderTests.swift:72-97 | with the json, form or multipart table, Content-Type is the table's value whatever the endpoint carried |
| DefaultEncoder.StaticHeadersSurviveBesideContentType | Tests/ApiClientTests/DefaultEncoderTests.swift:132-139 | static headers name=big and title=hero with the json policy give exactly those two plus Content-Type application/json |
| DefaultEncoder.EmptyQueryKeepsUrl | Sources/ApiClient/Encoder/DefaultEncoder.swift:99-101 | when the query flattens to no items, the URL is the base with the path appended and nothing else |
| DefaultEncoder.EmptyDictionaryFlattensToNothing | Tests/ApiClientTests/DefaultEncoderTests.swift:44-51 | an empty dictionary that the encoder and parser round-trip to an empty object flattens to no items |
| DefaultEncoder.SpaceInKeyIsPercentEncoded | Tests/ApiClientTests/DefaultEncoderTests.swift:53-60 | parameters {"a b": "v"} with plain words a, b and v, on a URL without a query, give the request URL whose query is "a%20b=v", so {"filter type": "2"} gives "filter%20type=2"; assumed of Foundation only that a space in a name is written %20, lower-case letters and digits in names and values as themselves, and that a string value describes itself |
| ResponseParser.Validate | Sources/ApiClient/Response/ResponseParser.swift:28-37 | requires an HTTP response; succeeds iff the status is in 200..<300, with the bytes unchanged; otherwise `badResponse` with the exact status, bytes and response |
| ResponseParser.StatusBoundaries | Sources/ApiClient/Response/ResponseParser.swift:31-32 | 200 and 299 are accepted; 199 and 300 are rejected |
| ResponseParser.Parse | Sources/ApiClient/Response/ResponseParser.swift:12-21 | a non-2xx status fails before any decoding; when the bytes cast to `T` (T is `Data`) they are the value; otherwise the decoder's value, or its error unwrapped; a success carries the input response |
| ResponseParser.ParseRaw | Sources/ApiClient/Response/ResponseParser.swift:23-26 | succeeds iff 2xx, with the bytes as value and the input response; otherwise `badResponse` |
| ResponseParser.DataParseIsRawParse | Sources/ApiClient/Response/ResponseParser.swift:15-16 | asking for `Data` yields the raw parse whatever decoder is passed, so the decoder is not used |
| HttpClient.BaseUrlFor | Sources/ApiClient/HTTPClient.swift:29 | the override when present, else the fallback base URL |
| HttpClient.GetRequest | Sources/ApiClient/HTTPClient.swift:28-30 | the encoder is applied to the override base URL when there is one, else to the client's |
| HttpClient.RunDataTask | Sources/ApiClient/HTTPClient.swift:52-57 | a build error is returned and nothing is sent; otherwise the request is sent once; a transport error propagates unchanged; a delivery is mapped |
| HttpClient.Run | Sources/ApiClient/HTTPClient.swift:38-43 | nothing is sent iff the build fails, and otherwise the built request is sent; the result is the build error, the transport error, or the typed parse of the delivery |
| HttpClient.RunRaw | Sources/ApiClient/HTTPClient.swift:46-50 | nothing is sent iff the build fails, and otherwise the built request is sent; the result is the build error, the transport error, or the raw parse of the delivery |
| HttpClient.RunSucceedsOnlyOn2xx | Sources/ApiClient/HTTPClient.swift:38-43 | a successful typed run always comes from a 2xx delivery and carries that response |
| UrlSessionClient.Parse | Sources/ApiClient/Client/URLSessionClient.swift:13-17 | validates first; on 2xx always decodes, with no `Data` pass-through; a decoder error propagates unwrapped |
| UrlSessionClient.Wrap | Sources/ApiClient/Client/URLSessionClient.swift:19-33 | succeeds iff 2xx, with the validated bytes as the value; otherwise `badResponse` with status, bytes and response |
| UrlSessionClient.OlderParseHasNoDataPassThrough | Sources/ApiClient/Client/URLSessionClient.swift:13-17 | the older parse is the current one with the cast never succeeding; for `Data` on 2xx the current parse returns the bytes while the older one returns the decoder's result |
| UrlSessionClient.GetRequest | Sources/ApiClient/Client/URLSessionClient.swift:54-56 | the encoder is applied to the endpoint's base URL when it has one, else to the client's |
| UrlSessionClient.GetRequestIsCurrentWithOverride | Sources/ApiClient/Client/URLSessionClient.swift:54-56 | the older request is the current client's request built with `overrideBaseURL` set to the endpoint's base URL |
| UrlSessionClient.RunDataTaskAsWritten | Sources/ApiClient/Client/URLSessionClient.swift:78-99 | as written, nothing is ever sent; a build error completes with that error, and after a successful build the completion handler is never called |
| UrlSessionClient.SuspendedTaskNeverCompletes | Sources/ApiClient/Client/URLSessionClient.swift:80-98 | on a build error the code as written and the resumed task complete alike; after a successful build the resumed task sends the request while the code as written sends nothing and never completes |
| UrlSessionClient.RunDataTask | Sources/ApiClient/Client/URLSessionClient.swift:78-99 | with the task resumed: a build error completes with that error and nothing is sent; missing data or response completes with `error ?? unknown`; with both present the transport error is ignored and the mapped response is the result |
| UrlSessionClient.Run | Sources/ApiClient/Client/URLSessionClient.swift:63-68 | with the task resumed: nothing is sent iff the build fails, whose error is the result, and otherwise the built request is sent; missing data or response gives `error ?? unknown`; with both present the result is the older parse; a success needs data and a 2xx response and is the decoder's value |
| UrlSessionClient.RawData | Sources/ApiClient/Client/URLSessionClient.swift:71-76 | with the task resumed: nothing is sent iff the build fails, whose error is the result, and otherwise the built request is sent; missing data or response gives `error ?? unknown`; with both present the result is `wrap`; a success needs a 2xx response and carries exactly the delivered bytes and response |
| UrlSessionClient.RunAsync | Sources/ApiClient/Client/URLSessionClient.swift:141-159 | nothing is sent iff the build fails, and then the build error is the result; otherwise the built request is sent; a thrown transport error propagates; a delivery gets the older parse |
| UrlSessionClient.RunAsyncIsCurrentRun | Sources/ApiClient/Client/URLSessionClient.swift:141-159 | the older async `run` equals the current `run` with the endpoint's base URL as the override and no `Data` pass-through: same request sent, same result |
| PromiseClient.MapData | Sources/ApiClient/Client/PromisSessionClient.swift:48-69 | the five-way table: 2xx with data gives the decoder's result unchanged; 2xx without data gives `error ?? unknown`; non-2xx with data gives `badResponse`; non-2xx without data gives `error ?? unknown`; no non-2xx status ever fulfils |
| PromiseClient.MapDataAgreesWithParser | Sources/ApiClient/Client/PromisSessionClient.swift:50-68 | with data present the table settles as the older parser decides, ignoring the transport error |
| PromiseClient.GetRequest | Sources/ApiClient/Client/PromisSessionClient.swift:71-78 | the encoder is applied to `endpoint.baseURL ?? baseURL` |
| PromiseClient.Run | Sources/ApiClient/Client/PromisSessionClient.swift:30-46 | with the task resumed: an encoder error rejects before any transport call; a missing or non-HTTP response rejects with `error ?? unknown`; otherwise the table decides; a fulfilment needs an HTTP 2xx response with data |
| PromiseClient.RunAsWritten | Sources/ApiClient/Client/PromisSessionClient.swift:30-46 | as written, nothing is ever sent; an encoder error rejects, and after a successful build the promise is never settled |
| PromiseClient.SuspendedPromiseNeverSettles | Sources/ApiClient/Client/PromisSessionClient.swift:34-44 | on an encoder error the code as written and the resumed task reject alike; after a successful build the resumed task sends the request while the code as written sends nothing and never settles |

The older `HTTPMethod` (Sources/ApiClient/EndPoint.swift:9-14) and `ContentType`
(Sources/ApiClient/EndPoint.swift:20-23) are the same as the current ones. They
share the `EndPoints` definitions, so the raw-value rows above cover them. The
older `validate` (Sources/ApiClient/Client/URLSessionClient.swift:24-33) is the
same as the current one and shares `ResponseParser.Validate`, so the older
`wrap` is defined as `ResponseParser.ParseRaw`. The Promise client's
`getRequest` is the callback client's. The
`encode(queryItems:)` and `appendingQueryItems` in
Sources/ApiClient/Encoder/DefaultEncoder.swift:46-70 and 94-116 duplicate the
current ones and share `UrlRequestEncoder.EncodeQueryItems` and
`Extensions.AppendingQueryItems`. `Encodable.getData` is `Extensions.GetData`.

## Findings

| source | as written | input that shows it | evidently intended | confidence | as-written member | corrected member |
|---|---|---|---|---|---|---|
| Sources/ApiClient/Client/URLSessionClient.swift:82 | the data task is created but `resume()` is never called, and a `URLSession` task starts suspended | any endpoint whose request builds: nothing is sent and the completion handler is never called (`SuspendedTaskNeverCompletes`) | `session.dataTask(with:) { ... }.resume()`, so the request is sent and the completion called once | high, not executed | UrlSessionClient.RunDataTaskAsWritten | UrlSessionClient.RunDataTask |
| Sources/ApiClient/Client/PromisSessionClient.swift:36 | the data task is created but `resume()` is never called | any endpoint whose request builds: nothing is sent and the promise stays pending (`SuspendedPromiseNeverSettles`) | the task resumed, so the promise settles from the decision table | high, not executed | PromiseClient.RunAsWritten | PromiseClient.Run |

`UrlSessionClient.Run` and `RawData` are built on the resumed
`UrlSessionClient.RunDataTask`. The Combine and async variants start their
tasks themselves and are not affected.

## Left out

- Transport and delivery are not modelled: `URLSession` data tasks, Combine
  publishers and `receive(on:)`, async/await, `DispatchQueue`, and PromiseKit's
  `Promise` and `Resolver`. The transport's answer is an input, and delivery
  returns one result.
- The Combine `run` and `rawData` are not modelled separately. They perform the
  same sequence as the async variants, which are modelled by
  `UrlSessionClient.RunAsync` and `HttpClient.Run`. The older async `rawData` is
  likewise not separate; it is `HttpClient.RunDataTask` with `Wrap`.
- `set(sessionHeaders:)` is left out in all three clients. It mutates a
  Foundation session configuration whose effect on requests is not visible in
  this library.
- The `[weak self]` capture in `PromiseSessionClient.run` is left out. If the
  client is released before the data task completes, the promise is never
  settled. This is a memory-management effect.
- Foundation internals are not interpreted: JSON encoding and decoding,
  `JSONSerialization`, URL component parsing and percent-encoding,
  `appendingPathComponent`, and how `String(describing:)` prints numbers and
  booleans. Percent-encoding is modelled character by character, with what each
  character becomes left to Foundation, separately for names and for values
  because a query allows different characters in each ('=' is escaped only in a
  name). `DefaultEncoder.SpaceInKeyIsPercentEncoded`
  proves a general form of the fact asserted at
  Tests/ApiClientTests/DefaultEncoderTests.swift:59 from three assumptions: a
  space in a name becomes %20, lower-case letters and digits in names and values
  stay as they are, and a string value describes itself.
- A round-trip between the JSON encoder and decoder is a property of Foundation
  and is not stated.
- A multipart body is passed to the JSON encoder like any other body. The model
  keeps that encoder uninterpreted, so what the encoder makes of raw `Data` is
  not decided here.
- `URLRequest.allHTTPHeaderFields` is taken to hold the assigned dictionary,
  even an empty one, so the older encoder's optional-chained overlay always
  applies.
- HTTP header names are exact strings here, while `URLRequest` treats them as
  case-insensitive.
- Sources/ApiClient/Encoder/AnyEncodable.swift is encoder-container plumbing
  with no observable logic.
- Package.swift is the build manifest.
- The type-only files are mirrored as datatypes: `Errors.Error`,
  `ResponseParser.Response`, and `HttpClient.Encoder` for the `HTTPEncoder` and
  `URLRequestEncoder` protocols.
- The current `HTTPEncoding` struct (Sources/ApiClient/Request/EndPoint.swift:16-22)
  only stores a header dictionary. No endpoint, encoder or client of the current
  generation reads it, so it has no behaviour to model.
- `MultipartForm` is not defined in the library's files. Its `contentType` and
  `bodyData` are opaque fields.
- The error messages interpolate a URL and a list of query items. They use the
  URL's absolute string and an uninterpreted description of the list.
- Building the same endpoint twice gives the same request trivially, because
  every operation is a function.
- EndPoints.IsMultipartForm: matches the Unicode scalars of the header value
  one by one, whereas Swift's `String.contains` compares characters under
  canonical equivalence. The two differ only for header values with combining
  marks next to the matched text, which a Content-Type does not carry.
