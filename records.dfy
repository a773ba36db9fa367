/**
 * Record lookup: what `getRecord` does with the provider's answer to the
 * records-listing request, from the status check to the first-match scan.
 */
module Records {
  import opened Wrappers
  import opened Http

  /** The only record type the updater reads or writes. */
  const AddressType: string := "A"

  /** One entry of the listing's `result` array. */
  datatype DnsRecord = DnsRecord(id: string, name: string, rtype: string, content: string)

  /** The decoded body of the records-listing response. */
  datatype ListResponse = ListResponse(success: bool, errors: seq<string>, result: seq<DnsRecord>)

  /** What a successful lookup hands back: the record's ID and its current content. */
  datatype Found = Found(id: string, content: string)

  /** The scan's test: the entry has the requested name and is an address record. */
  predicate IsMatch(rec: DnsRecord, name: string)
  {
    rec.name == name && rec.rtype == AddressType
  }

  /** Index `k` holds a match and no earlier entry does. */
  ghost predicate IsFirstMatch(rs: seq<DnsRecord>, name: string, k: int)
  {
    0 <= k < |rs| && IsMatch(rs[k], name) && forall j :: 0 <= j < k ==> !IsMatch(rs[j], name)
  }

  /** The position of the first matching entry, if there is one. */
  function FirstMatch(rs: seq<DnsRecord>, name: string): (k: Option<nat>)
    ensures k.Some? ==> IsFirstMatch(rs, name, k.value)
    ensures k.None? <==> forall j :: 0 <= j < |rs| ==> !IsMatch(rs[j], name)
  {
    if rs == [] then None
    else if IsMatch(rs[0], name) then Some(0)
    else match FirstMatch(rs[1..], name)
      case None => None
      case Some(k) => Some(k + 1)
  }

  /** The ID and content of the first matching entry, if there is one. */
  function Select(rs: seq<DnsRecord>, name: string): Option<Found>
  {
    match FirstMatch(rs, name)
    case None => None
    case Some(k) => Some(Found(rs[k].id, rs[k].content))
  }

  /** At most one index is the first match. */
  lemma FirstMatchUnique(rs: seq<DnsRecord>, name: string, k1: int, k2: int)
    requires IsFirstMatch(rs, name, k1) && IsFirstMatch(rs, name, k2)
    ensures k1 == k2
  {
  }

  /**
   * The scan over the listing as `getRecord` runs it: a loop that returns at
   * the first entry with the requested name and the address type.
   */
  method FindRecord(rs: seq<DnsRecord>, name: string) returns (r: Option<Found>)
    ensures r.None? <==> forall j :: 0 <= j < |rs| ==> !IsMatch(rs[j], name)
    ensures r.Some? ==> exists k :: IsFirstMatch(rs, name, k) && r.value == Found(rs[k].id, rs[k].content)
    ensures r == Select(rs, name)
  {
    var i := 0;
    while i < |rs|
      invariant 0 <= i <= |rs|
      invariant forall j :: 0 <= j < i ==> !IsMatch(rs[j], name)
    {
      if rs[i].name == name && rs[i].rtype == AddressType {
        assert IsFirstMatch(rs, name, i);
        FirstMatchUnique(rs, name, i, FirstMatch(rs, name).value);
        return Some(Found(rs[i].id, rs[i].content));
      }
      i := i + 1;
    }
    return None;
  }

  /** The listing is usable: delivered, status 200, decoded, and `success` set. */
  predicate Usable(reply: Reply<ListResponse>)
  {
    reply.Reply? && reply.status == StatusOK && reply.body.Decoded? && reply.body.value.success
  }

  /**
   * `getRecord` after the request is sent: the status is checked before the
   * body is decoded, `success == false` is an API error, and otherwise the first
   * entry with the requested name and type "A" is the answer.
   */
  function Lookup(reply: Reply<ListResponse>, name: string): (r: Result<Found, Error>)
    ensures r.Success? <==>
      Usable(reply) && exists k :: 0 <= k < |reply.body.value.result| && IsMatch(reply.body.value.result[k], name)
    ensures r.Success? ==>
      exists k :: IsFirstMatch(reply.body.value.result, name, k) &&
        r.value == Found(reply.body.value.result[k].id, reply.body.value.result[k].content)
    ensures r == Failure(RecordNotFound) <==>
      Usable(reply) && forall k :: 0 <= k < |reply.body.value.result| ==> !IsMatch(reply.body.value.result[k], name)
    ensures reply.NoReply? ==> r == Failure(Transport)
    ensures reply.Reply? && reply.status != StatusOK ==> r == Failure(UnexpectedStatus(reply.status))
    ensures reply.Reply? && reply.status == StatusOK && reply.body.Malformed? ==> r == Failure(DecodeFailed)
    ensures reply.Reply? && reply.status == StatusOK && reply.body.Decoded? && !reply.body.value.success ==>
      r == Failure(ApiError(reply.body.value.errors))
  {
    if reply.NoReply? then Failure(Transport)
    else if reply.status != StatusOK then Failure(UnexpectedStatus(reply.status))
    else if reply.body.Malformed? then Failure(DecodeFailed)
    else if !reply.body.value.success then Failure(ApiError(reply.body.value.errors))
    else match Select(reply.body.value.result, name)
      case None => Failure(RecordNotFound)
      case Some(f) => Success(f)
  }

  /** Entries after the first match never change the scan's answer. */
  lemma {:induction false} FirstMatchIgnoresLater(rs: seq<DnsRecord>, more: seq<DnsRecord>, name: string)
    requires FirstMatch(rs, name).Some?
    ensures FirstMatch(rs + more, name) == FirstMatch(rs, name)
  {
    assert rs != [];
    assert (rs + more)[0] == rs[0];
    if !IsMatch(rs[0], name) {
      assert (rs + more)[1..] == rs[1..] + more;
      FirstMatchIgnoresLater(rs[1..], more, name);
    }
  }

  /**
   * A lookup that found a record finds the same one whatever further entries
   * the provider appends to the listing.
   */
  lemma LookupIgnoresLaterMatches(ok: bool, errors: seq<string>, rs: seq<DnsRecord>, more: seq<DnsRecord>, name: string)
    requires Lookup(Reply(StatusOK, Decoded(ListResponse(ok, errors, rs))), name).Success?
    ensures Lookup(Reply(StatusOK, Decoded(ListResponse(ok, errors, rs + more))), name)
         == Lookup(Reply(StatusOK, Decoded(ListResponse(ok, errors, rs))), name)
  {
    FirstMatchIgnoresLater(rs, more, name);
    var k := FirstMatch(rs, name).value;
    assert (rs + more)[k] == rs[k];
  }
}
