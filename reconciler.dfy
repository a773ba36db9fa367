/**
 * One reconciliation cycle (`sync`): look the record up and refresh the cached
 * record ID, discover the current address, and issue one update when the stored
 * content differs. Any failed step ends the cycle.
 */
module Reconciler {
  import opened Wrappers
  import opened Http
  import opened Records
  import opened Discovery
  import opened Update

  /** An outbound call, as recorded in the updater's call log. */
  datatype Call =
    | ListRecords(zoneId: string, name: string)
    | GetIp
    | PutRecord(request: UpdateRequest)

  /** Which step of the cycle failed, and why. */
  datatype SyncError =
    | GetRecordFailed(cause: Error)
    | CurrentIpFailed(cause: Error)
    | UpdateRecordFailed(cause: Error)

  /** What one cycle leaves behind: the cached record ID, the calls it issued, and its result. */
  datatype CycleEffect = CycleEffect(recordId: string, issued: seq<Call>, outcome: Outcome<SyncError>)

  /** The update requests among a sequence of calls, in order. */
  function Puts(cs: seq<Call>): (ps: seq<UpdateRequest>)
    ensures |ps| <= |cs|
    ensures forall p :: p in ps ==> PutRecord(p) in cs
  {
    if cs == [] then []
    else if cs[0].PutRecord? then [cs[0].request] + Puts(cs[1..])
    else Puts(cs[1..])
  }

  lemma {:induction false} PutsAppend(a: seq<Call>, b: seq<Call>)
    ensures Puts(a + b) == Puts(a) + Puts(b)
  {
    if a == [] {
      assert a + b == b;
    } else {
      assert (a + b)[0] == a[0];
      assert (a + b)[1..] == a[1..] + b;
      PutsAppend(a[1..], b);
    }
  }

  /** The request the cycle sends when the stored content is stale. */
  function RequestFor(zoneId: string, recordId: string, record: string, newIp: string): UpdateRequest
  {
    UpdateRequest(zoneId, recordId, RecordBody(AddressType, record, newIp))
  }

  /**
   * The specification of one cycle, given the cached record ID before it and
   * the answers of the three external calls.
   */
  function Cycle(zoneId: string, record: string, cachedId: string,
                 list: Reply<ListResponse>, ip: Reply<Addresses>, put: PutReply): CycleEffect
  {
    match Lookup(list, record)
    case Failure(e) => CycleEffect(cachedId, [ListRecords(zoneId, record)], Fail(GetRecordFailed(e)))
    case Success(found) =>
      match Discover(ip)
      case Failure(e) => CycleEffect(found.id, [ListRecords(zoneId, record), GetIp], Fail(CurrentIpFailed(e)))
      case Success(newIp) =>
        if found.content == newIp then
          CycleEffect(found.id, [ListRecords(zoneId, record), GetIp], Pass)
        else
          CycleEffect(found.id,
                      [ListRecords(zoneId, record), GetIp, PutRecord(RequestFor(zoneId, found.id, record, newIp))],
                      match PutOutcome(put)
                      case Pass => Pass
                      case Fail(e) => Fail(UpdateRecordFailed(e)))
  }

  /** Every update in a call log targets the configured zone and writes an address record of the configured name. */
  ghost predicate PutsWellFormed(cs: seq<Call>, zoneId: string, record: string)
  {
    forall c :: c in cs && c.PutRecord? ==>
      c.request.zoneId == zoneId && c.request.body.rtype == AddressType && c.request.body.name == record
  }

  /** The updater's state: its configuration, the cached record ID and the log of calls it has made. */
  class App {
    const apiToken: string
    const zoneId: string
    const record: string
    var recordId: string
    var calls: seq<Call>

    ghost predicate Valid()
      reads this
    {
      apiToken != "" && zoneId != "" && record != "" &&
      PutsWellFormed(calls, zoneId, record)
    }

    /** The updater after startup: the three required settings are present and no record ID is cached yet. */
    constructor (apiToken: string, zoneId: string, record: string)
      requires apiToken != "" && zoneId != "" && record != ""
      ensures Valid()
      ensures this.apiToken == apiToken && this.zoneId == zoneId && this.record == record
      ensures recordId == "" && calls == []
    {
      this.apiToken := apiToken;
      this.zoneId := zoneId;
      this.record := record;
      recordId := "";
      calls := [];
    }

    /** Lists the zone's records by name and selects the first address record with that name. */
    method GetRecord(list: Reply<ListResponse>, name: string) returns (r: Result<Found, Error>)
      requires Valid()
      modifies this`calls
      ensures Valid()
      ensures calls == old(calls) + [ListRecords(zoneId, name)]
      ensures r == Lookup(list, name)
    {
      calls := calls + [ListRecords(zoneId, name)];
      if list.NoReply? {
        return Failure(Transport);
      }
      if list.status != StatusOK {
        return Failure(UnexpectedStatus(list.status));
      }
      if list.body.Malformed? {
        return Failure(DecodeFailed);
      }
      var response := list.body.value;
      if !response.success {
        return Failure(ApiError(response.errors));
      }
      var found := FindRecord(response.result, name);
      if found.None? {
        return Failure(RecordNotFound);
      }
      return Success(found.value);
    }

    /** Asks the discovery service for the current public address. */
    method CurrentIp(ip: Reply<Addresses>) returns (r: Result<string, Error>)
      requires Valid()
      modifies this`calls
      ensures Valid()
      ensures calls == old(calls) + [GetIp]
      ensures r == Discover(ip)
    {
      calls := calls + [GetIp];
      if ip.NoReply? {
        return Failure(Transport);
      }
      if ip.body.Malformed? {
        return Failure(DecodeFailed);
      }
      var addresses := ip.body.value;
      if addresses.ipv4.Some? {
        return Success(addresses.ipv4.value);
      } else if addresses.ipv6.Some? {
        return Success(addresses.ipv6.value);
      }
      return Failure(NoIpAddress);
    }

    /** Sends the PUT for the cached record ID, setting its content to `newIp`. */
    method UpdateDnsRecord(newIp: string, put: PutReply) returns (r: Outcome<Error>)
      requires Valid()
      modifies this`calls
      ensures Valid()
      ensures calls == old(calls) + [PutRecord(RequestFor(zoneId, recordId, record, newIp))]
      ensures r == PutOutcome(put)
    {
      var request := UpdateRequest(zoneId, recordId, RecordBody(AddressType, record, newIp));
      calls := calls + [PutRecord(request)];
      if put.PutNoReply? {
        return Fail(Transport);
      }
      if put.code != StatusOK {
        return Fail(UnexpectedStatus(put.code));
      }
      return Pass;
    }

    /** One reconciliation cycle; the three replies are what the three calls would return. */
    method Sync(list: Reply<ListResponse>, ip: Reply<Addresses>, put: PutReply) returns (r: Outcome<SyncError>)
      requires Valid()
      modifies this`recordId, this`calls
      ensures Valid()
      ensures var e := Cycle(zoneId, record, old(recordId), list, ip, put);
        recordId == e.recordId && calls == old(calls) + e.issued && r == e.outcome
      ensures |Puts(calls)| <= |Puts(old(calls))| + 1
    {
      ghost var e := Cycle(zoneId, record, recordId, list, ip, put);
      ghost var before := calls;
      var found := GetRecord(list, record);
      if found.Failure? {
        r := Fail(GetRecordFailed(found.error));
      } else {
        if recordId != found.value.id {
          recordId := found.value.id;
        }
        var newIp := CurrentIp(ip);
        if newIp.Failure? {
          r := Fail(CurrentIpFailed(newIp.error));
        } else if found.value.content != newIp.value {
          var updated := UpdateDnsRecord(newIp.value, put);
          r := if updated.Fail? then Fail(UpdateRecordFailed(updated.error)) else Pass;
          assert calls == before + [ListRecords(zoneId, record), GetIp, PutRecord(RequestFor(zoneId, recordId, record, newIp.value))];
        } else {
          r := Pass;
        }
      }
      CycleIssuesAtMostOnePut(zoneId, record, old(recordId), list, ip, put);
      PutsAppend(before, e.issued);
    }
  }

  /** A cycle sends at most one update, and any update it sends targets the ID it cached. */
  lemma CycleIssuesAtMostOnePut(zoneId: string, record: string, cachedId: string,
                                list: Reply<ListResponse>, ip: Reply<Addresses>, put: PutReply)
    ensures var e := Cycle(zoneId, record, cachedId, list, ip, put);
      |Puts(e.issued)| <= 1 &&
      forall p :: p in Puts(e.issued) ==> p == RequestFor(zoneId, e.recordId, record, p.body.content)
  {
  }
}
