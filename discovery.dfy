/**
 * Address discovery: what `currentIP` does with the discovery service's answer.
 * The service's HTTP status is never inspected; only delivery and decoding can fail
 * before the address preference is applied.
 */
module Discovery {
  import opened Wrappers
  import opened Http

  /** The decoded discovery response: each field is absent when the JSON omits it. */
  datatype Addresses = Addresses(ipv4: Option<string>, ipv6: Option<string>)

  /** IPv4 wins, IPv6 is the fallback, and having neither is an error. */
  function ChooseAddress(a: Addresses): (r: Result<string, Error>)
    ensures r.Success? <==> a.ipv4.Some? || a.ipv6.Some?
    ensures a.ipv4.Some? ==> r.value == a.ipv4.value
    ensures r.Success? && a.ipv4.None? ==> r.value == a.ipv6.value
    ensures r.Failure? ==> r.error == NoIpAddress
  {
    if a.ipv4.Some? then Success(a.ipv4.value)
    else if a.ipv6.Some? then Success(a.ipv6.value)
    else Failure(NoIpAddress)
  }

  /** `currentIP` after the GET: a missing reply, then an undecodable body, then the preference. */
  function Discover(reply: Reply<Addresses>): (r: Result<string, Error>)
    ensures reply.NoReply? ==> r == Failure(Transport)
    ensures reply.Reply? && reply.body.Malformed? ==> r == Failure(DecodeFailed)
    ensures reply.Reply? && reply.body.Decoded? ==> r == ChooseAddress(reply.body.value)
    ensures r.Success? ==>
      reply.Reply? && reply.body.Decoded? &&
      (reply.body.value.ipv4 == Some(r.value) || (reply.body.value.ipv4.None? && reply.body.value.ipv6 == Some(r.value)))
  {
    if reply.NoReply? then Failure(Transport)
    else if reply.body.Malformed? then Failure(DecodeFailed)
    else ChooseAddress(reply.body.value)
  }

  /** Whatever status code the discovery service answers with, the chosen address is the same. */
  lemma DiscoverIgnoresStatus(s1: int, s2: int, body: Decoded<Addresses>)
    ensures Discover(Reply(s1, body)) == Discover(Reply(s2, body))
  {
  }
}
