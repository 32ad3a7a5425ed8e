/** The endpoint description of the current generation: HTTP methods, content
    types, encoding policies and the `EndPoint` initialisers. */
module EndPoints {
  import opened Common
  import opened Foundation

  datatype HttpMethod = Get | Post | Put | Delete

  /** The wire name of a method (`HTTPMethod.rawValue`): an upper-case word. */
  function MethodName(m: HttpMethod): (r: string)
    ensures 3 <= |r| <= 6
    ensures forall i | 0 <= i < |r| :: 'A' <= r[i] <= 'Z'
  {
    match m
    case Get => "GET"
    case Post => "POST"
    case Put => "PUT"
    case Delete => "DELETE"
  }

  /** `HTTPMethod(rawValue:)`, the initialiser Swift derives for a raw-valued enum. */
  function ParseMethod(s: string): (r: Option<HttpMethod>)
    ensures r.Some? ==> MethodName(r.value) == s
    ensures (forall m: HttpMethod :: MethodName(m) != s) ==> r.None?
  {
    if s == "GET" then Some(Get)
    else if s == "POST" then Some(Post)
    else if s == "PUT" then Some(Put)
    else if s == "DELETE" then Some(Delete)
    else None
  }

  /** The raw values are exactly the four uppercase names, and each one names its
      method only: parsing a method's raw value gives the method back. */
  lemma MethodNamesRoundTrip(m: HttpMethod)
    ensures ParseMethod(MethodName(m)) == Some(m)
    ensures MethodName(m) in {"GET", "POST", "PUT", "DELETE"}
  {
  }

  /** No two methods share a raw value. */
  lemma MethodNamesDistinct(m: HttpMethod, n: HttpMethod)
    requires m != n
    ensures MethodName(m) != MethodName(n)
  {
    MethodNamesRoundTrip(m);
    MethodNamesRoundTrip(n);
  }

  datatype ContentType = Json | Form

  const ContentTypeKey: string := "Content-Type"
  const MultipartFormData: string := "multipart/form-data"

  /** `ContentType.rawValue`: a media type of the "application" top-level type. */
  function ContentTypeName(c: ContentType): (r: string)
    ensures |r| > 12 && r[..12] == "application/"
  {
    match c
    case Json => "application/json"
    case Form => "application/x-www-form-urlencoded"
  }

  /** `ContentType(rawValue:)`. */
  function ParseContentType(s: string): (r: Option<ContentType>)
    ensures r.Some? ==> ContentTypeName(r.value) == s
    ensures (forall c: ContentType :: ContentTypeName(c) != s) ==> r.None?
  {
    if s == "application/json" then Some(Json)
    else if s == "application/x-www-form-urlencoded" then Some(Form)
    else None
  }

  lemma ContentTypeNamesRoundTrip(c: ContentType)
    ensures ParseContentType(ContentTypeName(c)) == Some(c)
  {
  }

  /** A multipart form; how it is assembled is not part of this model. */
  datatype MultipartForm = MultipartForm(contentType: string, bodyData: Bytes)

  datatype EndPoint = EndPoint(
    httpMethod: HttpMethod,
    path: string,
    queryItems: Encodable,
    body: Option<Encodable>,
    headers: map<string, string>)

  /** `isMultipartForm`: the endpoint declares a Content-Type that mentions
      multipart/form-data. */
  function IsMultipartForm(e: EndPoint): (b: bool)
    ensures b <==> (ContentTypeKey in e.headers
      && exists i :: OccursAt(e.headers[ContentTypeKey], MultipartFormData, i))
  {
    ContentTypeKey in e.headers
      && (ContainsIffOccurs(e.headers[ContentTypeKey], MultipartFormData);
          Contains(e.headers[ContentTypeKey], MultipartFormData))
  }

  /** The initialiser taking a `contentType`: the caller's headers with Content-Type
      forced to the content type's raw value. */
  function WithContentType(
    httpMethod: HttpMethod,
    path: string,
    contentType: ContentType,
    queryItems: Encodable := EmptyDictionary,
    body: Option<Encodable> := None,
    headers: map<string, string> := map[]): (e: EndPoint)
    ensures e.httpMethod == httpMethod && e.path == path
    ensures e.queryItems == queryItems && e.body == body
    ensures ContentTypeKey in e.headers && e.headers[ContentTypeKey] == ContentTypeName(contentType)
    ensures e.headers.Keys == headers.Keys + {ContentTypeKey}
    ensures forall k | k in headers && k != ContentTypeKey :: e.headers[k] == headers[k]
  {
    EndPoint(httpMethod, path, queryItems, body, headers[ContentTypeKey := ContentTypeName(contentType)])
  }

  /** The initialiser taking a multipart form. Without a form, any Content-Type the
      caller gave is removed and there is no body; with one, the form's content type
      and bytes are used. */
  function WithMultipartForm(
    httpMethod: HttpMethod,
    path: string,
    queryItems: Encodable := EmptyDictionary,
    multipartForm: Option<MultipartForm>,
    headers: map<string, string> := map[]): (e: EndPoint)
    ensures e.httpMethod == httpMethod && e.path == path && e.queryItems == queryItems
    ensures multipartForm.None? ==> ContentTypeKey !in e.headers && e.body.None?
    ensures multipartForm.None? ==> e.headers.Keys == headers.Keys - {ContentTypeKey}
    ensures multipartForm.Some? ==>
      && e.headers.Keys == headers.Keys + {ContentTypeKey}
      && e.headers[ContentTypeKey] == multipartForm.value.contentType
      && e.body == Some(RawData(multipartForm.value.bodyData))
    ensures forall k | k in headers && k != ContentTypeKey :: k in e.headers && e.headers[k] == headers[k]
  {
    match multipartForm
    case None => EndPoint(httpMethod, path, queryItems, None, headers - {ContentTypeKey})
    case Some(form) =>
      EndPoint(httpMethod, path, queryItems, Some(RawData(form.bodyData)), headers[ContentTypeKey := form.contentType])
  }

  /** Neither content type names multipart/form-data. */
  lemma ContentTypesAreNotMultipart(c: ContentType)
    ensures !Contains(ContentTypeName(c), MultipartFormData)
  {
    var s := ContentTypeName(c);
    if c == Form {
      assert forall i | 0 <= i <= 14 :: s[i] != 'm';
      NotContainsWithoutFirstChar(s, MultipartFormData);
    } else {
      assert |s| < |MultipartFormData|;
    }
  }

  /** An endpoint built with `.json` or `.form` is never a multipart form, whatever
      headers the caller passed. */
  lemma ContentTypeEndPointIsNotMultipart(
    httpMethod: HttpMethod, path: string, contentType: ContentType,
    queryItems: Encodable, body: Option<Encodable>, headers: map<string, string>)
    ensures !IsMultipartForm(WithContentType(httpMethod, path, contentType, queryItems, body, headers))
  {
    ContentTypesAreNotMultipart(contentType);
  }

  /** A multipart endpoint is recognised as one exactly when a form was given whose
      content type mentions multipart/form-data. */
  lemma MultipartEndPointRecognised(
    httpMethod: HttpMethod, path: string, queryItems: Encodable,
    multipartForm: Option<MultipartForm>, headers: map<string, string>)
    ensures IsMultipartForm(WithMultipartForm(httpMethod, path, queryItems, multipartForm, headers))
        <==> multipartForm.Some? && Contains(multipartForm.value.contentType, MultipartFormData)
  {
  }

  /** Query parameters default to an empty dictionary and the body to nil. */
  lemma EndPointDefaults(httpMethod: HttpMethod, path: string, contentType: ContentType)
    ensures WithContentType(httpMethod, path, contentType).queryItems == EmptyDictionary
    ensures WithContentType(httpMethod, path, contentType).body.None?
    ensures WithContentType(httpMethod, path, contentType).headers == map[ContentTypeKey := ContentTypeName(contentType)]
  {
  }
}
