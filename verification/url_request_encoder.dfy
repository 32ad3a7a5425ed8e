/** `DefaultURLRequestEncoder`: turns an endpoint into a URL request. Query
    parameters are JSON-encoded, parsed back into a dictionary, and each top-level
    key becomes one query item; the body, if any, is JSON-encoded. */
module UrlRequestEncoder {
  import opened Common
  import opened Foundation
  import opened Errors
  import opened Platform
  import opened EndPoints
  import opened Extensions

  /** Whether a member can become a query item: scalars and arrays always can; an
      object only when it re-serialises. */
  predicate Flattenable(f: Services, m: Member) {
    m.value.JObject? ==> f.jsonData(m.value.members).Some?
  }

  /** The query item a flattenable member stands for: named by its key, valued by
      the UTF-8 text of its compact re-serialisation when it is an object, and by its
      description otherwise (arrays included). */
  function ItemOf(f: Services, m: Member): (item: QueryItem)
    requires Flattenable(f, m)
  {
    if m.value.JObject? then QueryItem(m.key, f.utf8String(f.jsonData(m.value.members).value))
    else QueryItem(m.key, Some(f.describe(m.value)))
  }

  function SkippedKeyMessage(f: Services, key: string, data: Bytes): string {
    "Skipping encoding data for key:`" + key + "` because it's not a valid JSON: " + Utf8OrNil(f, data)
  }

  function NotJsonMessage(f: Services, data: Bytes): string {
    "Data is not a valid JSON: " + Utf8OrNil(f, data)
  }

  /** The `compactMap` over the parsed dictionary. Every member yields exactly one
      item, in enumeration order; the first object that fails to re-serialise
      aborts the whole encoding with `invalideQueryParam` naming its key. */
  function Flatten(f: Services, members: seq<Member>, data: Bytes): (r: Result<seq<QueryItem>, Error>)
    ensures r.Success? <==> forall i | 0 <= i < |members| :: Flattenable(f, members[i])
    ensures r.Success? ==>
      && |r.value| == |members|
      && forall i | 0 <= i < |members| :: Flattenable(f, members[i]) && r.value[i] == ItemOf(f, members[i])
    ensures r.Failure? ==>
      exists i | 0 <= i < |members| ::
        && !Flattenable(f, members[i])
        && (forall j | 0 <= j < i :: Flattenable(f, members[j]))
        && r.error == InvalidQueryParam(SkippedKeyMessage(f, members[i].key, data))
    decreases |members|
  {
    if members == [] then Success([])
    else
      var m := members[0];
      if !Flattenable(f, m) then Failure(InvalidQueryParam(SkippedKeyMessage(f, m.key, data)))
      else
        match Flatten(f, members[1..], data)
        case Failure(e) => Failure(e)
        case Success(rest) => Success([ItemOf(f, m)] + rest)
  }

  /** Each item is named by the key of the member it came from, so the item names
      are exactly the keys; with distinct keys (a dictionary) the names are distinct
      too and there is one item per key. */
  lemma FlattenOneItemPerKey(f: Services, members: seq<Member>, data: Bytes)
    requires Flatten(f, members, data).Success?
    ensures var items := Flatten(f, members, data).value;
      && (set i | 0 <= i < |items| :: items[i].name) == (set i | 0 <= i < |members| :: members[i].key)
      && (DistinctKeys(members) ==> forall i, j | 0 <= i < j < |items| :: items[i].name != items[j].name)
  {
    var items := Flatten(f, members, data).value;
    assert forall i | 0 <= i < |items| :: items[i].name == members[i].key;
  }

  /** The items are a function of the members alone, so reordering the parsed
      dictionary reorders the items and changes nothing else: success is decided
      the same way and the same multiset of items comes out. */
  lemma FlattenIgnoresOrder(f: Services, a: seq<Member>, b: seq<Member>, data: Bytes)
    requires multiset(a) == multiset(b)
    ensures Flatten(f, a, data).Success? <==> Flatten(f, b, data).Success?
    ensures Flatten(f, a, data).Success? ==>
      multiset(Flatten(f, a, data).value) == multiset(Flatten(f, b, data).value)
  {
    AllFlattenableOrNone(f, a, b);
    AllFlattenableOrNone(f, b, a);
    if Flatten(f, a, data).Success? {
      var g := (m: Member) => if Flattenable(f, m) then ItemOf(f, m) else QueryItem(m.key, None);
      MapPermutation(g, a, b, Flatten(f, a, data).value, Flatten(f, b, data).value);
    }
  }

  /** Flattenability of every member survives a reordering. */
  lemma AllFlattenableOrNone(f: Services, a: seq<Member>, b: seq<Member>)
    requires multiset(a) == multiset(b)
    ensures (forall i | 0 <= i < |a| :: Flattenable(f, a[i])) ==> forall j | 0 <= j < |b| :: Flattenable(f, b[j])
  {
    if forall i | 0 <= i < |a| :: Flattenable(f, a[i]) {
      forall j | 0 <= j < |b|
        ensures Flattenable(f, b[j])
      {
        assert b[j] in multiset(a);
        var i :| 0 <= i < |a| && a[i] == b[j];
      }
    }
  }

  /** `encode(queryItems:encoder:)`. Encoder and parser errors propagate as thrown;
      a top-level value that is not an object is `invalidBody` (not
      `invalideQueryParam`); an object is flattened. */
  function EncodeQueryItems(f: Services, query: Encodable): (r: Result<seq<QueryItem>, Error>)
    ensures GetData(f, query).Failure? ==> r == Failure(GetData(f, query).error)
    ensures GetData(f, query).Success? ==>
      var data := GetData(f, query).value;
      && (f.jsonObject(data).Failure? ==> r == Failure(f.jsonObject(data).error))
      && (f.jsonObject(data).Success? && !f.jsonObject(data).value.JObject? ==>
            r == Failure(InvalidBody(NotJsonMessage(f, data))))
      && (f.jsonObject(data).Success? && f.jsonObject(data).value.JObject? ==>
            r == Flatten(f, f.jsonObject(data).value.members, data))
  {
    var data :- GetData(f, query);
    var json :- f.jsonObject(data);
    if !json.JObject? then Failure(InvalidBody(NotJsonMessage(f, data)))
    else Flatten(f, json.members, data)
  }

  /** Once the parameters encode and parse, the library's own errors tell the two
      ways of failing apart: `invalidBody` exactly when the top level is not an
      object, `invalideQueryParam` exactly when some member is an object that does
      not re-serialise, and success exactly otherwise, with one item per top-level
      key. */
  lemma {:induction false} QueryOutcomes(f: Services, query: Encodable)
    requires GetData(f, query).Success?
    requires f.jsonObject(GetData(f, query).value).Success?
    ensures var json := f.jsonObject(GetData(f, query).value).value;
      var r := EncodeQueryItems(f, query);
      && (r.Failure? && r.error.InvalidBody? <==> !json.JObject?)
      && (r.Failure? && r.error.InvalidQueryParam? <==>
            json.JObject? && exists i | 0 <= i < |json.members| :: !Flattenable(f, json.members[i]))
      && (r.Success? <==> json.JObject? && forall i | 0 <= i < |json.members| :: Flattenable(f, json.members[i]))
      && (r.Success? ==>
            (set i | 0 <= i < |r.value| :: r.value[i].name) == (set i | 0 <= i < |json.members| :: json.members[i].key))
  {
    var data := GetData(f, query).value;
    var json := f.jsonObject(data).value;
    if json.JObject? {
      var r := Flatten(f, json.members, data);
      if r.Success? {
        FlattenOneItemPerKey(f, json.members, data);
      }
    }
  }

  /** `encode(body:encoder:)`: the bytes the JSON encoder gives for the body, or its
      error. */
  function EncodeBody(f: Services, body: Encodable): (r: Result<Bytes, Error>)
    ensures r.Success? <==> f.jsonEncode(body).Success?
    ensures r.Success? ==> r.value == f.jsonEncode(body).value
    ensures r.Failure? ==> r.error == f.jsonEncode(body).error
  {
    GetData(f, body)
  }

  /** The optional body: absent stays absent, present is encoded, and an encoding
      error is the result's error. */
  function EncodeOptionalBody(f: Services, body: Option<Encodable>): (r: Result<Option<Bytes>, Error>)
    ensures body.None? ==> r == Success(None)
    ensures body.Some? ==> (r.Success? <==> f.jsonEncode(body.value).Success?)
    ensures body.Some? && r.Success? ==> r.value == Some(f.jsonEncode(body.value).value)
    ensures body.Some? && r.Failure? ==> r.error == f.jsonEncode(body.value).error
  {
    match body
    case None => Success(None)
    case Some(b) =>
      var bytes :- EncodeBody(f, b);
      Success(Some(bytes))
  }

  /** `DefaultURLRequestEncoder.request(from:endPoint:)`. The URL is the base with the
      path appended and the query items added; the method is the method's raw
      value; the headers are the endpoint's, unchanged; the body is absent exactly
      when the endpoint has none and is otherwise the encoder's bytes. Query
      encoding, then query appending, then body encoding: the first failure wins,
      and when all three succeed so does the request. */
  function Request(f: Services, baseUrl: Url, e: EndPoint): (r: Result<UrlRequest, Error>)
    ensures EncodeQueryItems(f, e.queryItems).Failure? ==> r == Failure(EncodeQueryItems(f, e.queryItems).error)
    ensures EncodeQueryItems(f, e.queryItems).Success? ==>
      var url := AppendingQueryItems(f, f.appendingPathComponent(baseUrl, e.path), EncodeQueryItems(f, e.queryItems).value);
      && (url.Failure? ==> r == Failure(url.error))
      && (url.Success? && e.body.Some? && EncodeBody(f, e.body.value).Failure? ==>
            r == Failure(EncodeBody(f, e.body.value).error))
      && (r.Success? ==> url.Success? && r.value.url == url.value)
      && (url.Success? && (e.body.None? || EncodeBody(f, e.body.value).Success?) ==> r.Success?)
    ensures r.Success? ==>
      && r.value.httpMethod == MethodName(e.httpMethod)
      && r.value.allHttpHeaderFields == e.headers
      && (e.body.None? <==> r.value.httpBody.None?)
      && (e.body.Some? ==> Success(r.value.httpBody.value) == EncodeBody(f, e.body.value))
  {
    var url := f.appendingPathComponent(baseUrl, e.path);
    var items :- EncodeQueryItems(f, e.queryItems);
    var withQuery :- AppendingQueryItems(f, url, items);
    var body :- EncodeOptionalBody(f, e.body);
    Success(UrlRequest(withQuery, MethodName(e.httpMethod), e.headers, body))
  }
}
