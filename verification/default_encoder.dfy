/** `DefaultHTTPEncoder`, the older request encoder. It builds the request the same
    way as `DefaultURLRequestEncoder` (its query flattening and query appending are
    copies of the current ones and are shared here), then overlays the encoding
    policy's headers on the endpoint's, the policy winning on a shared key. */
module DefaultEncoder {
  import opened Common
  import opened Foundation
  import opened Errors
  import opened Platform
  import opened EndPoints
  import opened LegacyEndPoints
  import opened Extensions
  import UrlRequestEncoder

  /** `DefaultHTTPEncoder.request(from:endPoint:)`; `encoding` is the endpoint's
      encoding policy. Query encoding, then query appending, then body encoding:
      the first failure wins, and when all three succeed so does the request. */
  function Request(f: Services, baseUrl: Url, e: LegacyEndPoint, encoding: EncodingType): (r: Result<UrlRequest, Error>)
    ensures UrlRequestEncoder.EncodeQueryItems(f, e.queryItems).Failure? ==>
      r == Failure(UrlRequestEncoder.EncodeQueryItems(f, e.queryItems).error)
    ensures UrlRequestEncoder.EncodeQueryItems(f, e.queryItems).Success? ==>
      var url := AppendingQueryItems(f, f.appendingPathComponent(baseUrl, e.path),
                                     UrlRequestEncoder.EncodeQueryItems(f, e.queryItems).value);
      && (url.Failure? ==> r == Failure(url.error))
      && (url.Success? && e.body.Some? && UrlRequestEncoder.EncodeBody(f, e.body.value).Failure? ==>
            r == Failure(UrlRequestEncoder.EncodeBody(f, e.body.value).error))
      && (r.Success? ==> url.Success? && r.value.url == url.value)
      && (url.Success? && (e.body.None? || UrlRequestEncoder.EncodeBody(f, e.body.value).Success?) ==> r.Success?)
    ensures r.Success? ==>
      && r.value.httpMethod == MethodName(e.httpMethod)
      && r.value.allHttpHeaderFields.Keys == e.headers.Keys + encoding.headers.Keys
      && (forall k | k in encoding.headers :: r.value.allHttpHeaderFields[k] == encoding.headers[k])
      && (forall k | k in e.headers && k !in encoding.headers :: r.value.allHttpHeaderFields[k] == e.headers[k])
      && (e.body.None? <==> r.value.httpBody.None?)
      && (e.body.Some? ==> Success(r.value.httpBody.value) == UrlRequestEncoder.EncodeBody(f, e.body.value))
  {
    var url := f.appendingPathComponent(baseUrl, e.path);
    var items :- UrlRequestEncoder.EncodeQueryItems(f, e.queryItems);
    var withQuery :- AppendingQueryItems(f, url, items);
    var body :- UrlRequestEncoder.EncodeOptionalBody(f, e.body);
    Success(UrlRequest(withQuery, MethodName(e.httpMethod), e.headers + encoding.headers, body))
  }

  /** The two generations of encoder differ only in the header overlay: they fail
      alike, and on success agree on URL, method and body. */
  lemma OverlayIsTheOnlyDifference(f: Services, baseUrl: Url, e: LegacyEndPoint, encoding: EncodingType)
    ensures var older := Request(f, baseUrl, e, encoding);
      var current := UrlRequestEncoder.Request(f, baseUrl, Current(e));
      && (older.Failure? <==> current.Failure?)
      && (older.Failure? ==> older.error == current.error)
      && (older.Success? ==> older.value == current.value.(allHttpHeaderFields := e.headers + encoding.headers))
  {
  }

  /** With any of the three tables, the request's Content-Type is the table's,
      whatever Content-Type the endpoint carried. */
  lemma PolicyContentTypeWins(f: Services, baseUrl: Url, e: LegacyEndPoint)
    ensures Request(f, baseUrl, e, JsonEncoding()).Success? ==>
      Request(f, baseUrl, e, JsonEncoding()).value.allHttpHeaderFields[ContentTypeKey] == "application/json"
    ensures Request(f, baseUrl, e, FormEncoding()).Success? ==>
      Request(f, baseUrl, e, FormEncoding()).value.allHttpHeaderFields[ContentTypeKey] == "application/x-www-form-urlencoded"
    ensures Request(f, baseUrl, e, MultipartEncoding()).Success? ==>
      Request(f, baseUrl, e, MultipartEncoding()).value.allHttpHeaderFields[ContentTypeKey] == "multipart/form-data"
  {
    EncodingTablesSingleContentType();
  }

  /** Static headers whose keys the policy does not use appear unchanged next to the
      policy's Content-Type, and nothing else is added. */
  lemma StaticHeadersSurviveBesideContentType(f: Services, baseUrl: Url, e: LegacyEndPoint)
    requires e.headers == map["name" := "big", "title" := "hero"]
    requires Request(f, baseUrl, e, JsonEncoding()).Success?
    ensures Request(f, baseUrl, e, JsonEncoding()).value.allHttpHeaderFields
         == map[ContentTypeKey := "application/json", "name" := "big", "title" := "hero"]
  {
    var h := Request(f, baseUrl, e, JsonEncoding()).value.allHttpHeaderFields;
    EncodingTablesSingleContentType();
    assert h.Keys == {ContentTypeKey, "name", "title"};
  }

  /** A query whose parameters flatten to nothing leaves the URL as the base with
      the path appended, with no '?' added. */
  lemma EmptyQueryKeepsUrl(f: Services, baseUrl: Url, e: LegacyEndPoint)
    requires UrlRequestEncoder.EncodeQueryItems(f, e.queryItems) == Success([])
    requires f.components(f.appendingPathComponent(baseUrl, e.path)).Some?
    requires Request(f, baseUrl, e, JsonEncoding()).Success?
    ensures Request(f, baseUrl, e, JsonEncoding()).value.url == f.appendingPathComponent(baseUrl, e.path)
  {
  }

  /** The empty dictionary flattens to no items when the encoder and parser
      round-trip it to an empty object. */
  lemma EmptyDictionaryFlattensToNothing(f: Services, data: Bytes)
    requires f.jsonEncode(EmptyDictionary) == Success(data)
    requires f.jsonObject(data) == Success(JObject([]))
    ensures UrlRequestEncoder.EncodeQueryItems(f, EmptyDictionary) == Success([])
  {
  }

  /** Lower-case letters and digits only: the characters a query writes as they
      are. */
  predicate Plain(s: string) {
    forall i | 0 <= i < |s| :: 'a' <= s[i] <= 'z' || '0' <= s[i] <= '9'
  }

  /** A key containing a space reaches the URL percent-encoded: with the
      parameters `{"<a> <b>": "<v>"}` for plain words `a`, `b` and `v`, and a URL
      without a query, the request's URL is the one whose query is
      `<a>%20<b>=<v>`; `{"filter type": "2"}` gives `filter%20type=2`. Assumed of
      Foundation: a space in a name is written as %20, lower-case letters and
      digits in a name or value as themselves, and a string value describes itself. */
  lemma SpaceInKeyIsPercentEncoded(
    f: Services, baseUrl: Url, e: LegacyEndPoint, encoding: EncodingType, c: Components, a: string, b: string, v: string)
    requires f.percentEncodeNameChar(' ') == "%20"
    requires forall ch | 'a' <= ch <= 'z' || '0' <= ch <= '9' :: f.percentEncodeNameChar(ch) == [ch]
    requires forall ch | 'a' <= ch <= 'z' || '0' <= ch <= '9' :: f.percentEncodeValueChar(ch) == [ch]
    requires Plain(a) && Plain(b) && Plain(v)
    requires GetData(f, e.queryItems).Success?
    requires f.jsonObject(GetData(f, e.queryItems).value) == Success(JObject([Member(a + " " + b, JString(v))]))
    requires f.describe(JString(v)) == v
    requires f.components(f.appendingPathComponent(baseUrl, e.path)) == Some(c)
    requires c.percentEncodedQuery.None?
    ensures var r := Request(f, baseUrl, e, encoding);
      r.Success? ==> Some(r.value.url) == f.url(c.(percentEncodedQuery := Some(a + "%20" + b + "=" + v)))
  {
    var item := QueryItem(a + " " + b, Some(v));
    assert UrlRequestEncoder.EncodeQueryItems(f, e.queryItems) == Success([item]) by {
      SingleParameter(f, e.queryItems, Member(a + " " + b, JString(v)));
    }
    assert AppendedQuery(f, ExistingItems(f, c), [item]) == a + "%20" + b + "=" + v by {
      SpacedKeyQuery(f, a, b, v);
    }
  }

  /** The query the item `<a> <b>`=`<v>` is written as, on its own. */
  lemma SpacedKeyQuery(f: Services, a: string, b: string, v: string)
    requires f.percentEncodeNameChar(' ') == "%20"
    requires forall ch | 'a' <= ch <= 'z' || '0' <= ch <= '9' :: f.percentEncodeNameChar(ch) == [ch]
    requires forall ch | 'a' <= ch <= 'z' || '0' <= ch <= '9' :: f.percentEncodeValueChar(ch) == [ch]
    requires Plain(a) && Plain(b) && Plain(v)
    ensures AppendedQuery(f, [], [QueryItem(a + " " + b, Some(v))]) == a + "%20" + b + "=" + v
  {
    var item := QueryItem(a + " " + b, Some(v));
    PlainKept(f.percentEncodeNameChar, a);
    PlainKept(f.percentEncodeNameChar, b);
    PlainKept(f.percentEncodeValueChar, v);
    PercentEncodeAround(f.percentEncodeNameChar, a, ' ', b);
    assert a + [' '] + b == a + " " + b;
    assert EncodedItem(f, item) == a + "%20" + b + "=" + v;
    PlainHasNoPlus(a);
    PlainHasNoPlus(b);
    PlainHasNoPlus(v);
    assert '+' !in a + "%20" + b + "=" + v;
    SingleItemQuery(f, item);
  }

  /** A plain word is written as it is. */
  lemma PlainKept(enc: char -> string, s: string)
    requires forall ch | 'a' <= ch <= 'z' || '0' <= ch <= '9' :: enc(ch) == [ch]
    requires Plain(s)
    ensures PercentEncode(enc, s) == s
  {
    forall i | 0 <= i < |s|
      ensures enc(s[i]) == [s[i]]
    {
    }
    PercentEncodeKeepsAllowed(enc, s);
  }

  /** A plain word has no '+'. */
  lemma PlainHasNoPlus(s: string)
    requires Plain(s)
    ensures '+' !in s
  {
    forall i | 0 <= i < |s|
      ensures s[i] != '+'
    {
    }
  }

  /** Parameters that parse to a one-member object with a non-object value flatten
      to the single item named by its key and valued by its description. */
  lemma SingleParameter(f: Services, query: Encodable, m: Member)
    requires GetData(f, query).Success?
    requires f.jsonObject(GetData(f, query).value) == Success(JObject([m]))
    requires !m.value.JObject?
    ensures UrlRequestEncoder.EncodeQueryItems(f, query) == Success([QueryItem(m.key, Some(f.describe(m.value)))])
  {
    var data := GetData(f, query).value;
    assert [m][1..] == [];
    assert UrlRequestEncoder.Flatten(f, [m][1..], data) == Success([]);
    assert UrlRequestEncoder.Flattenable(f, [m][0]);
    assert [UrlRequestEncoder.ItemOf(f, m)] + [] == [UrlRequestEncoder.ItemOf(f, m)];
    assert UrlRequestEncoder.Flatten(f, [m], data) == Success([UrlRequestEncoder.ItemOf(f, m)]);
  }
}
