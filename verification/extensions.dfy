/** `URL.appendingQueryItems` and `Encodable.getData`: appending query items to a
    URL, with every literal '+' of the resulting query escaped as "%2B". A '+' is
    legal in a query (section 3.4 of RFC 3986), but form-urlencoded parsing
    (section 5.1 of the WHATWG URL Standard) reads it as a space. */
module Extensions {
  import opened Common
  import opened Foundation
  import opened Errors
  import opened Platform

  /** `Encodable.getData(encoder:)`: the JSON encoder applied to the value. An
      encoder error is passed on as it is, and the bytes are the encoder's own. */
  function GetData(f: Services, value: Encodable): (r: Result<Bytes, Error>)
    ensures r.Success? <==> f.jsonEncode(value).Success?
    ensures r.Success? ==> r.value == f.jsonEncode(value).value
    ensures r.Failure? ==> r.error == f.jsonEncode(value).error
  {
    f.jsonEncode(value)
  }

  /** What one character becomes: "%2B" for '+', itself otherwise. */
  function EscapeChar(c: char): (r: string)
    ensures '+' !in r && |r| >= 1
  {
    if c == '+' then "%2B" else [c]
  }

  /** `replacingOccurrences(of: "+", with: "%2B")`. */
  function EscapePlus(s: string): (r: string)
    ensures '+' !in r
    ensures |r| >= |s|
    decreases |s|
  {
    if s == [] then [] else EscapeChar(s[0]) + EscapePlus(s[1..])
  }

  /** Escaping works piece by piece: it distributes over concatenation. */
  lemma {:induction false} EscapePlusAppend(a: string, b: string)
    ensures EscapePlus(a + b) == EscapePlus(a) + EscapePlus(b)
    decreases |a|
  {
    if a == [] {
      assert a + b == b;
    } else {
      assert (a + b)[0] == a[0];
      assert (a + b)[1..] == a[1..] + b;
      EscapePlusAppend(a[1..], b);
    }
  }

  /** A string without '+' is left exactly as it is. */
  lemma {:induction false} EscapePlusFixesPlusFree(s: string)
    requires '+' !in s
    ensures EscapePlus(s) == s
    decreases |s|
  {
    if s != [] {
      assert s[0] in s;
      assert forall c | c in s[1..] :: c in s;
      EscapePlusFixesPlusFree(s[1..]);
      assert [s[0]] + s[1..] == s;
    }
  }

  /** Each '+' becomes "%2B" and everything around it is escaped on its own, so all
      other characters keep their order. */
  lemma EscapePlusAtPlus(u: string, v: string)
    ensures EscapePlus(u + "+" + v) == EscapePlus(u) + "%2B" + EscapePlus(v)
  {
    EscapePlusAppend(u + "+", v);
    EscapePlusAppend(u, "+");
    assert EscapePlus("+") == "%2B" + EscapePlus([]);
  }

  /** Escaping twice is the same as escaping once. */
  lemma EscapePlusIdempotent(s: string)
    ensures EscapePlus(EscapePlus(s)) == EscapePlus(s)
  {
    EscapePlusFixesPlusFree(EscapePlus(s));
  }

  /** A name or value as the `queryItems` setter writes it: each character
      encoded on its own by `enc`, in order. */
  function PercentEncode(enc: char -> string, s: string): (r: string)
    decreases |s|
  {
    if s == [] then [] else enc(s[0]) + PercentEncode(enc, s[1..])
  }

  /** Percent-encoding works piece by piece: it distributes over concatenation. */
  lemma {:induction false} PercentEncodeAppend(enc: char -> string, a: string, b: string)
    ensures PercentEncode(enc, a + b) == PercentEncode(enc, a) + PercentEncode(enc, b)
    decreases |a|
  {
    if a == [] {
      assert a + b == b;
    } else {
      assert (a + b)[0] == a[0];
      assert (a + b)[1..] == a[1..] + b;
      PercentEncodeAppend(enc, a[1..], b);
    }
  }

  /** One character is percent-encoded on its own, whatever surrounds it. */
  lemma PercentEncodeAround(enc: char -> string, a: string, c: char, b: string)
    ensures PercentEncode(enc, a + [c] + b) == PercentEncode(enc, a) + enc(c) + PercentEncode(enc, b)
  {
    PercentEncodeAppend(enc, a + [c], b);
    PercentEncodeAppend(enc, a, [c]);
    assert PercentEncode(enc, [c]) == enc(c) + PercentEncode(enc, []);
  }

  /** Text made only of characters the query allows is written unchanged. */
  lemma {:induction false} PercentEncodeKeepsAllowed(enc: char -> string, s: string)
    requires forall i | 0 <= i < |s| :: enc(s[i]) == [s[i]]
    ensures PercentEncode(enc, s) == s
    decreases |s|
  {
    if s != [] {
      assert forall i | 0 <= i < |s[1..]| :: s[1..][i] == s[i + 1];
      PercentEncodeKeepsAllowed(enc, s[1..]);
      assert [s[0]] + s[1..] == s;
    }
  }

  /** One query item as the `queryItems` setter writes it: the name encoded as a
      name, then '=' and the value encoded as a value when there is one. */
  function EncodedItem(f: Services, item: QueryItem): (r: string)
    ensures var n := PercentEncode(f.percentEncodeNameChar, item.name);
      n <= r && (r == n <==> item.value.None?)
    ensures var n := PercentEncode(f.percentEncodeNameChar, item.name);
      item.value.Some? ==> r[|n|] == '=' && r[|n| + 1..] == PercentEncode(f.percentEncodeValueChar, item.value.value)
  {
    PercentEncode(f.percentEncodeNameChar, item.name) + match item.value {
      case None => ""
      case Some(v) => "=" + PercentEncode(f.percentEncodeValueChar, v)
    }
  }

  /** The percent-encoded query the `queryItems` setter produces: the encoded items
      joined by '&'. */
  function SerializeQuery(f: Services, items: seq<QueryItem>): (r: string)
    decreases |items|
  {
    if |items| == 0 then ""
    else if |items| == 1 then EncodedItem(f, items[0])
    else EncodedItem(f, items[0]) + "&" + SerializeQuery(f, items[1..])
  }

  /** The shape of a serialised query: no items give the empty query; otherwise it
      starts with the first item, followed by '&' when more items come, and ends
      with the last item. */
  lemma {:induction false} SerializeQueryShape(f: Services, items: seq<QueryItem>)
    ensures |items| == 0 ==> SerializeQuery(f, items) == ""
    ensures |items| > 0 ==> EncodedItem(f, items[0]) <= SerializeQuery(f, items)
    ensures |items| > 1 ==> var n := |EncodedItem(f, items[0])|;
      n < |SerializeQuery(f, items)| && SerializeQuery(f, items)[n] == '&'
    ensures |items| > 0 ==> var last := EncodedItem(f, items[|items| - 1]);
      var r := SerializeQuery(f, items);
      |last| <= |r| && r[|r| - |last|..] == last
    decreases |items|
  {
    if |items| > 1 {
      SerializeQueryShape(f, items[1..]);
      assert items[1..][|items[1..]| - 1] == items[|items| - 1];
    }
  }

  /** Serialising two non-empty lists one after the other is serialising each and
      joining them with '&': the earlier items stay an intact prefix. */
  lemma {:induction false} SerializeQueryAppend(f: Services, a: seq<QueryItem>, b: seq<QueryItem>)
    requires |a| > 0 && |b| > 0
    ensures SerializeQuery(f, a + b) == SerializeQuery(f, a) + "&" + SerializeQuery(f, b)
    decreases |a|
  {
    assert (a + b)[0] == a[0];
    if |a| > 1 {
      assert (a + b)[1..] == a[1..] + b;
      SerializeQueryAppend(f, a[1..], b);
    } else {
      assert (a + b)[1..] == b;
    }
  }

  /** A single item appended to a URL without a query is written as the setter
      writes it, when that text has no '+'. */
  lemma SingleItemQuery(f: Services, item: QueryItem)
    requires '+' !in EncodedItem(f, item)
    ensures AppendedQuery(f, [], [item]) == EncodedItem(f, item)
  {
    assert [] + [item] == [item];
    EscapePlusFixesPlusFree(EncodedItem(f, item));
  }

  /** The query items a URL already carries (`components.queryItems ?? []`): none
      when it has no query. */
  function ExistingItems(f: Services, c: Components): (r: seq<QueryItem>)
    ensures c.percentEncodedQuery.None? ==> r == []
  {
    match c.percentEncodedQuery
    case None => []
    case Some(q) => f.queryItemsOf(q)
  }

  /** The percent-encoded query after appending: existing items, then the new ones,
      serialised, with every '+' escaped. */
  function AppendedQuery(f: Services, existing: seq<QueryItem>, items: seq<QueryItem>): (r: string) {
    EscapePlus(SerializeQuery(f, existing + items))
  }

  /** The appended query never contains a literal '+'. */
  lemma AppendedQueryHasNoPlus(f: Services, existing: seq<QueryItem>, items: seq<QueryItem>)
    ensures '+' !in AppendedQuery(f, existing, items)
  {
  }

  /** Any character other than '+' between two pieces survives the rewrite as it
      is, with each piece rewritten on its own. */
  lemma EscapePlusKeepsSeparator(a: string, c: char, b: string)
    requires c != '+'
    ensures EscapePlus(a + [c] + b) == EscapePlus(a) + [c] + EscapePlus(b)
  {
    EscapePlusAppend(a + [c], b);
    EscapePlusAppend(a, [c]);
    assert EscapePlus([c]) == [c] + EscapePlus([]);
  }

  /** The existing query is kept, escaped, as a prefix, separated from the new items
      by '&'; without existing items the query is just the new items. */
  lemma AppendedQueryKeepsExisting(f: Services, existing: seq<QueryItem>, items: seq<QueryItem>)
    requires |items| > 0
    ensures |existing| > 0 ==>
      AppendedQuery(f, existing, items)
      == EscapePlus(SerializeQuery(f, existing)) + "&" + EscapePlus(SerializeQuery(f, items))
    ensures |existing| == 0 ==> AppendedQuery(f, existing, items) == EscapePlus(SerializeQuery(f, items))
  {
    if |existing| > 0 {
      SerializeQueryAppend(f, existing, items);
      EscapePlusKeepsSeparator(SerializeQuery(f, existing), '&', SerializeQuery(f, items));
    } else {
      assert existing + items == items;
    }
  }

  function ComponentsMessage(url: Url): string {
    "Can't create `URLComponents` from the url: " + url.absoluteString + "."
  }

  function RebuildMessage(f: Services, items: seq<QueryItem>): string {
    "Can't create a new `URL` after appending query items: " + f.describeItems(items) + "."
  }

  /** `URL.appendingQueryItems(_:)`. A URL that cannot be split into components is
      rejected first, even with nothing to append; an empty list then leaves the
      URL as it is; otherwise the URL is rebuilt with the existing items followed by
      the new ones and every '+' escaped. */
  function AppendingQueryItems(f: Services, url: Url, items: seq<QueryItem>): (r: Result<Url, Error>)
    ensures f.components(url).None? ==> r == Failure(InvalidQueryParam(ComponentsMessage(url)))
    ensures f.components(url).Some? && |items| == 0 ==> r == Success(url)
    ensures f.components(url).Some? && |items| > 0 ==>
      var c := f.components(url).value;
      var rebuilt := c.(percentEncodedQuery := Some(AppendedQuery(f, ExistingItems(f, c), items)));
      && (f.url(rebuilt).Some? ==> r == Success(f.url(rebuilt).value))
      && (f.url(rebuilt).None? ==> r == Failure(InvalidQueryParam(RebuildMessage(f, items))))
    ensures r.Failure? ==> r.error.InvalidQueryParam?
  {
    match f.components(url)
    case None => Failure(InvalidQueryParam(ComponentsMessage(url)))
    case Some(c) =>
      if |items| == 0 then Success(url)
      else
        var query := AppendedQuery(f, ExistingItems(f, c), items);
        match f.url(c.(percentEncodedQuery := Some(query)))
        case None => Failure(InvalidQueryParam(RebuildMessage(f, items)))
        case Some(rebuilt) => Success(rebuilt)
  }
}
