/**
 * The record-update request built by `updateDNSRecord`: the PUT targets the zone
 * and the record ID, carries a body with the address type, the configured record
 * name and the new address, and succeeds only on status 200.
 */
module Update {
  import opened Wrappers
  import opened Http
  import opened Records

  /** The JSON body of the PUT. */
  datatype RecordBody = RecordBody(rtype: string, name: string, content: string)

  /** The PUT as the provider receives it: the zone and record it targets, and its body. */
  datatype UpdateRequest = UpdateRequest(zoneId: string, recordId: string, body: RecordBody)

  /** The outcome of the PUT: only a delivered request answered with 200 succeeds. */
  function PutOutcome(reply: PutReply): (r: Outcome<Error>)
    ensures r.Pass? <==> reply == PutStatus(StatusOK)
    ensures reply.PutStatus? && reply.code != StatusOK ==> r == Fail(UnexpectedStatus(reply.code))
    ensures reply.PutNoReply? ==> r == Fail(Transport)
  {
    match reply
    case PutNoReply => Fail(Transport)
    case PutStatus(code) => if code != StatusOK then Fail(UnexpectedStatus(code)) else Pass
  }
}
