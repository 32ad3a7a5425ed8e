/** The Foundation operations the library calls but whose behaviour is not part of
    it. Each is a total function supplied by the caller of the model, so every
    property proved holds for any JSON encoder, serializer or URL implementation. */
module Platform {
  import opened Common
  import opened Foundation
  import opened Errors

  datatype Services = Services(
    /** `JSONEncoder.encode(_:)`, reached through `Encodable.getData(encoder:)`. */
    jsonEncode: Encodable -> Result<Bytes, Error>,
    /** `JSONSerialization.jsonObject(with:)`. */
    jsonObject: Bytes -> Result<Json, Error>,
    /** `JSONSerialization.data(withJSONObject:)` on a dictionary; `None` when it throws. */
    jsonData: seq<Member> -> Option<Bytes>,
    /** `String(data:encoding: .utf8)`. */
    utf8String: Bytes -> Option<string>,
    /** `String(describing:)` applied to a parsed JSON value. */
    describe: Json -> string,
    /** `URL.appendingPathComponent(_:)`. */
    appendingPathComponent: (Url, string) -> Url,
    /** `URLComponents(url:resolvingAgainstBaseURL: false)`. */
    components: Url -> Option<Components>,
    /** `URLComponents.queryItems` read back from a percent-encoded query. */
    queryItemsOf: string -> seq<QueryItem>,
    /** What the `queryItems` setter writes for one character of an item's name:
        the character itself when a query name allows it, else its UTF-8 bytes
        percent-encoded. */
    percentEncodeNameChar: char -> string,
    /** The same for one character of an item's value. A value allows characters
        a name does not ('=' is escaped in a name and kept in a value), so the two
        are separate. */
    percentEncodeValueChar: char -> string,
    /** `URLComponents.url`. */
    url: Components -> Option<Url>,
    /** String interpolation of an array of query items. */
    describeItems: seq<QueryItem> -> string)

  /** `String(data: data, encoding: .utf8) ?? "nil"`, as the error messages print it. */
  function Utf8OrNil(f: Services, data: Bytes): string {
    f.utf8String(data).GetOr("nil")
  }
}
