/** The older endpoint description: the `EncodingType` header tables and an
    `EndPoint` that may override the client's base URL. Its `HTTPMethod` and
    `ContentType` enums are the same as the current ones and are shared. */
module LegacyEndPoints {
  import opened Common
  import opened Foundation
  import opened EndPoints

  /** `EncodingType`, the header table of an encoding policy. */
  datatype EncodingType = EncodingType(headers: map<string, string>)

  function JsonEncoding(): EncodingType {
    EncodingType(map[ContentTypeKey := "application/json"])
  }

  function MultipartEncoding(): EncodingType {
    EncodingType(map[ContentTypeKey := MultipartFormData])
  }

  function FormEncoding(): EncodingType {
    EncodingType(map[ContentTypeKey := "application/x-www-form-urlencoded"])
  }

  /** Each table carries exactly one header, Content-Type; the json and form tables
      agree with the raw values of the matching `ContentType`. */
  lemma EncodingTablesSingleContentType()
    ensures JsonEncoding().headers.Keys == {ContentTypeKey}
    ensures MultipartEncoding().headers.Keys == {ContentTypeKey}
    ensures FormEncoding().headers.Keys == {ContentTypeKey}
    ensures JsonEncoding().headers[ContentTypeKey] == ContentTypeName(ContentType.Json)
    ensures FormEncoding().headers[ContentTypeKey] == ContentTypeName(ContentType.Form)
    ensures MultipartEncoding().headers[ContentTypeKey] == "multipart/form-data"
  {
  }

  /** Only the multipart table declares a multipart form. */
  lemma OnlyMultipartTableIsMultipart()
    ensures Contains(MultipartEncoding().headers[ContentTypeKey], MultipartFormData)
    ensures !Contains(JsonEncoding().headers[ContentTypeKey], MultipartFormData)
    ensures !Contains(FormEncoding().headers[ContentTypeKey], MultipartFormData)
  {
    ContainsSelf(MultipartFormData);
    assert JsonEncoding().headers[ContentTypeKey] == ContentTypeName(ContentType.Json);
    assert FormEncoding().headers[ContentTypeKey] == ContentTypeName(ContentType.Form);
    ContentTypesAreNotMultipart(ContentType.Json);
    ContentTypesAreNotMultipart(ContentType.Form);
  }

  datatype LegacyEndPoint = LegacyEndPoint(
    httpMethod: HttpMethod,
    /** Overrides the client's base URL when present. */
    baseUrl: Option<Url>,
    path: string,
    queryItems: Encodable,
    body: Option<Encodable>,
    headers: map<string, string>)

  /** The initialiser taking a `contentType`. */
  function WithContentType(
    httpMethod: HttpMethod,
    baseUrl: Option<Url> := None,
    path: string,
    contentType: ContentType,
    queryItems: Encodable := EmptyDictionary,
    body: Option<Encodable> := None,
    headers: map<string, string> := map[]): (e: LegacyEndPoint)
    ensures e.httpMethod == httpMethod && e.baseUrl == baseUrl && e.path == path
    ensures e.queryItems == queryItems && e.body == body
    ensures ContentTypeKey in e.headers && e.headers[ContentTypeKey] == ContentTypeName(contentType)
    ensures e.headers.Keys == headers.Keys + {ContentTypeKey}
    ensures forall k | k in headers && k != ContentTypeKey :: e.headers[k] == headers[k]
  {
    LegacyEndPoint(httpMethod, baseUrl, path, queryItems, body, headers[ContentTypeKey := ContentTypeName(contentType)])
  }

  /** The initialiser taking a multipart form. */
  function WithMultipartForm(
    httpMethod: HttpMethod,
    baseUrl: Option<Url> := None,
    path: string,
    queryItems: Encodable := EmptyDictionary,
    multipartForm: Option<MultipartForm>,
    headers: map<string, string> := map[]): (e: LegacyEndPoint)
    ensures e.httpMethod == httpMethod && e.baseUrl == baseUrl && e.path == path && e.queryItems == queryItems
    ensures multipartForm.None? ==> ContentTypeKey !in e.headers && e.body.None?
    ensures multipartForm.None? ==> e.headers.Keys == headers.Keys - {ContentTypeKey}
    ensures multipartForm.Some? ==>
      && e.headers.Keys == headers.Keys + {ContentTypeKey}
      && e.headers[ContentTypeKey] == multipartForm.value.contentType
      && e.body == Some(RawData(multipartForm.value.bodyData))
    ensures forall k | k in headers && k != ContentTypeKey :: k in e.headers && e.headers[k] == headers[k]
  {
    match multipartForm
    case None => LegacyEndPoint(httpMethod, baseUrl, path, queryItems, None, headers - {ContentTypeKey})
    case Some(form) =>
      LegacyEndPoint(httpMethod, baseUrl, path, queryItems, Some(RawData(form.bodyData)), headers[ContentTypeKey := form.contentType])
  }

  /** The base URL override defaults to nil, and both older initialisers build the
      same description as the current ones apart from that override. */
  lemma LegacyMatchesCurrent(
    httpMethod: HttpMethod, baseUrl: Option<Url>, path: string, contentType: ContentType,
    queryItems: Encodable, body: Option<Encodable>, multipartForm: Option<MultipartForm>,
    headers: map<string, string>)
    ensures WithContentType(httpMethod, path := path, contentType := contentType).baseUrl.None?
    ensures WithMultipartForm(httpMethod, path := path, multipartForm := multipartForm).baseUrl.None?
    ensures Current(WithContentType(httpMethod, baseUrl, path, contentType, queryItems, body, headers))
         == EndPoints.WithContentType(httpMethod, path, contentType, queryItems, body, headers)
    ensures Current(WithMultipartForm(httpMethod, baseUrl, path, queryItems, multipartForm, headers))
         == EndPoints.WithMultipartForm(httpMethod, path, queryItems, multipartForm, headers)
  {
  }

  /** The same description without the base URL override. */
  function Current(e: LegacyEndPoint): (c: EndPoint) {
    EndPoint(e.httpMethod, e.path, e.queryItems, e.body, e.headers)
  }
}
