/** `RequestError`, and Swift's untyped `Error` around it. */
module Errors {
  import opened Common
  import opened Foundation

  /** Every error a call in the library can raise. The first four cases are
      `RequestError`; `Foreign` stands for any other thrown error (an encoding or
      decoding error, a transport error), passed along untouched. */
  datatype Error =
    | Unknown
    | BadResponse(statusCode: int, data: Bytes, response: UrlResponse)
    | InvalidBody(message: string)
    /** `invalideQueryParam` in the source. */
    | InvalidQueryParam(message: string)
    | Foreign(description: string)
}
