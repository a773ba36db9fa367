/**
 * What one reconciliation cycle promises, stated over the `Cycle` specification
 * that `App.Sync` is proved to follow.
 */
module CycleProperties {
  import opened Wrappers
  import opened Http
  import opened Records
  import opened Discovery
  import opened Update
  import opened Reconciler

  /** When the stored content already equals the discovered address, nothing is updated and the cycle succeeds. */
  lemma CycleSkipsUpdateWhenCurrent(zoneId: string, record: string, cachedId: string,
                                    list: Reply<ListResponse>, ip: Reply<Addresses>, put: PutReply)
    requires Lookup(list, record).Success? && Discover(ip).Success?
    requires Lookup(list, record).value.content == Discover(ip).value
    ensures var e := Cycle(zoneId, record, cachedId, list, ip, put);
      e.outcome == Pass && Puts(e.issued) == [] && e.recordId == Lookup(list, record).value.id
  {
  }

  /**
   * When they differ, exactly one update is sent: to the record ID found in
   * this cycle, with type "A", the configured name and the discovered address;
   * the cycle succeeds exactly when that update is answered with 200.
   */
  lemma CycleUpdatesOnceWhenStale(zoneId: string, record: string, cachedId: string,
                                  list: Reply<ListResponse>, ip: Reply<Addresses>, put: PutReply)
    requires Lookup(list, record).Success? && Discover(ip).Success?
    requires Lookup(list, record).value.content != Discover(ip).value
    ensures var e := Cycle(zoneId, record, cachedId, list, ip, put);
      var found, newIp := Lookup(list, record).value, Discover(ip).value;
      e.recordId == found.id &&
      Puts(e.issued) == [UpdateRequest(zoneId, found.id, RecordBody("A", record, newIp))] &&
      (e.outcome == Pass <==> put == PutStatus(200)) &&
      (put.PutStatus? && put.code != 200 ==> e.outcome == Fail(UpdateRecordFailed(UnexpectedStatus(put.code))))
  {
    var e := Cycle(zoneId, record, cachedId, list, ip, put);
    var first := [ListRecords(zoneId, record), GetIp];
    assert e.issued == first + [e.issued[2]];
    PutsAppend(first, [e.issued[2]]);
  }

  /** A failed lookup ends the cycle before discovery: one call, and the cached ID is left as it was. */
  lemma CycleLookupFailureAborts(zoneId: string, record: string, cachedId: string,
                                 list: Reply<ListResponse>, ip: Reply<Addresses>, put: PutReply)
    requires Lookup(list, record).Failure?
    ensures var e := Cycle(zoneId, record, cachedId, list, ip, put);
      e.issued == [ListRecords(zoneId, record)] && e.recordId == cachedId &&
      e.outcome == Fail(GetRecordFailed(Lookup(list, record).error))
  {
  }

  /**
   * A failed discovery ends the cycle before any update, but only after the
   * cached ID has been refreshed to the one just looked up.
   */
  lemma CycleDiscoveryFailureAborts(zoneId: string, record: string, cachedId: string,
                                    list: Reply<ListResponse>, ip: Reply<Addresses>, put: PutReply)
    requires Lookup(list, record).Success? && Discover(ip).Failure?
    ensures var e := Cycle(zoneId, record, cachedId, list, ip, put);
      e.issued == [ListRecords(zoneId, record), GetIp] && Puts(e.issued) == [] &&
      e.recordId == Lookup(list, record).value.id &&
      e.outcome == Fail(CurrentIpFailed(Discover(ip).error))
  {
  }

  /** A cycle succeeds without updating exactly when the stored content is already the discovered address. */
  lemma CycleQuietIff(zoneId: string, record: string, cachedId: string,
                      list: Reply<ListResponse>, ip: Reply<Addresses>, put: PutReply)
    ensures var e := Cycle(zoneId, record, cachedId, list, ip, put);
      (e.outcome == Pass && Puts(e.issued) == []) <==>
      (Lookup(list, record).Success? && Discover(ip).Success? &&
       Lookup(list, record).value.content == Discover(ip).value)
  {
    var e := Cycle(zoneId, record, cachedId, list, ip, put);
    if Lookup(list, record).Success? && Discover(ip).Success? {
      if Lookup(list, record).value.content == Discover(ip).value {
        CycleSkipsUpdateWhenCurrent(zoneId, record, cachedId, list, ip, put);
      } else {
        CycleUpdatesOnceWhenStale(zoneId, record, cachedId, list, ip, put);
      }
    }
  }
}
