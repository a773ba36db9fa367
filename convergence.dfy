/**
 * Idempotence of reconciliation. The provider is modelled only as far as the
 * update request needs: a PUT overwrites the type, name and content of the
 * record with the targeted ID. A cycle whose update succeeded is followed by a
 * cycle that, seeing the same address, sends nothing.
 */
module Convergence {
  import opened Wrappers
  import opened Http
  import opened Records
  import opened Discovery
  import opened Update
  import opened Reconciler
  import opened CycleProperties

  /** One stored record after the provider has applied `req`. */
  function Applied(rec: DnsRecord, req: UpdateRequest): DnsRecord
  {
    if rec.id == req.recordId then DnsRecord(rec.id, req.body.name, req.body.rtype, req.body.content)
    else rec
  }

  /** The zone's listing after the provider has applied `req`. */
  function ApplyUpdate(rs: seq<DnsRecord>, req: UpdateRequest): seq<DnsRecord>
  {
    seq(|rs|, i requires 0 <= i < |rs| => Applied(rs[i], req))
  }

  /**
   * Updating the record the lookup selected, with an address-record body of the
   * looked-up name, makes the next lookup select a record with the same ID and
   * the new content.
   */
  lemma SelectAfterUpdate(rs: seq<DnsRecord>, name: string, req: UpdateRequest)
    requires req.body.rtype == AddressType && req.body.name == name
    requires Select(rs, name).Some? && Select(rs, name).value.id == req.recordId
    ensures Select(ApplyUpdate(rs, req), name) == Some(Found(req.recordId, req.body.content))
  {
    var after := ApplyUpdate(rs, req);
    var k := FirstMatch(rs, name).value;
    assert IsMatch(after[k], name);
    var k' := FirstMatch(after, name).value;
    assert k' <= k;
    if k' < k {
      assert !IsMatch(rs[k'], name);
      assert after[k'] != rs[k'];
    }
  }

  /**
   * After a cycle whose update was accepted, a cycle that sees the provider's
   * updated listing and discovers the same address succeeds, sends no update and
   * keeps the cached record ID.
   */
  lemma SecondCycleIsQuiet(zoneId: string, record: string, cachedId: string, errors: seq<string>,
                           rs: seq<DnsRecord>, ip: Reply<Addresses>, put: PutReply,
                           errors2: seq<string>, ip2: Reply<Addresses>, put2: PutReply)
    requires var e := Cycle(zoneId, record, cachedId, Reply(StatusOK, Decoded(ListResponse(true, errors, rs))), ip, put);
      e.outcome == Pass && |Puts(e.issued)| == 1
    requires Discover(ip2) == Discover(ip)
    ensures var e := Cycle(zoneId, record, cachedId, Reply(StatusOK, Decoded(ListResponse(true, errors, rs))), ip, put);
      var after := ApplyUpdate(rs, Puts(e.issued)[0]);
      var e2 := Cycle(zoneId, record, e.recordId, Reply(StatusOK, Decoded(ListResponse(true, errors2, after))), ip2, put2);
      e2.outcome == Pass && Puts(e2.issued) == [] && e2.recordId == e.recordId
  {
    var list := Reply(StatusOK, Decoded(ListResponse(true, errors, rs)));
    var e := Cycle(zoneId, record, cachedId, list, ip, put);
    assert Lookup(list, record).Success? && Discover(ip).Success?;
    CycleQuietIff(zoneId, record, cachedId, list, ip, put);
    CycleUpdatesOnceWhenStale(zoneId, record, cachedId, list, ip, put);
    var req := Puts(e.issued)[0];
    SelectAfterUpdate(rs, record, req);
    var list2 := Reply(StatusOK, Decoded(ListResponse(true, errors2, ApplyUpdate(rs, req))));
    CycleSkipsUpdateWhenCurrent(zoneId, record, e.recordId, list2, ip2, put2);
  }
}
