/**
 * The shapes in which the outside world answers the updater's HTTP calls.
 * Transport, headers, bearer authentication and JSON decoding are not modelled:
 * each call is represented by what it gave back once its body was decoded.
 */
module Http {

  /** The status code every Cloudflare call is checked against. */
  const StatusOK: int := 200

  /** The result of decoding a response body into the expected structure. */
  datatype Decoded<+T> = Malformed | Decoded(value: T)

  /**
   * What a request returned: nothing at all (the request could not be built or
   * delivered), or a status code together with the decoded body.
   */
  datatype Reply<+T> = NoReply | Reply(status: int, body: Decoded<T>)

  /** What the record-update request returned; its body is never read. */
  datatype PutReply = PutNoReply | PutStatus(code: int)

  /** The kinds of failure one call can report, without their message text. */
  datatype Error =
    | Transport              // the request could not be built or sent
    | UnexpectedStatus(code: int)
    | DecodeFailed
    | ApiError(messages: seq<string>)
    | RecordNotFound
    | NoIpAddress
}
