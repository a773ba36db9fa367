/** Concrete cycles, written as callers of `App.Sync` that rely on its contract only. */
module Scenarios {
  import opened Wrappers
  import opened Http
  import opened Records
  import opened Discovery
  import opened Update
  import opened Reconciler

  /** The preference rule on the three shapes of discovery response. */
  lemma AddressPreferenceCases()
    ensures ChooseAddress(Addresses(Some("1.2.3.4"), None)) == Success("1.2.3.4")
    ensures ChooseAddress(Addresses(Some("1.2.3.4"), Some("::1"))) == Success("1.2.3.4")
    ensures ChooseAddress(Addresses(None, Some("::1"))) == Success("::1")
    ensures ChooseAddress(Addresses(None, None)) == Failure(NoIpAddress)
  {
  }

  /** A stored 10.0.0.1 and a discovered 10.0.0.2: one PUT carrying 10.0.0.2, then success. */
  method StaleRecordCycle()
  {
    var app := new App("token", "zone", "home.example.com");
    var rec := DnsRecord("rec-1", "home.example.com", "A", "10.0.0.1");
    var list := Reply(StatusOK, Decoded(ListResponse(true, [], [rec])));
    var ip := Reply(StatusOK, Decoded(Addresses(Some("10.0.0.2"), None)));
    var r := app.Sync(list, ip, PutStatus(StatusOK));
    assert IsFirstMatch([rec], "home.example.com", 0);
    assert r == Pass;
    assert app.recordId == "rec-1";
    assert app.calls == [ListRecords("zone", "home.example.com"), GetIp,
                         PutRecord(UpdateRequest("zone", "rec-1", RecordBody("A", "home.example.com", "10.0.0.2")))];
  }

  /** An unsuccessful listing: the cycle fails at the lookup and nothing else is called. */
  method ProviderErrorCycle()
  {
    var app := new App("token", "zone", "home.example.com");
    var rec := DnsRecord("rec-1", "home.example.com", "A", "10.0.0.1");
    var list := Reply(StatusOK, Decoded(ListResponse(false, ["bad token"], [rec])));
    var ip := Reply(StatusOK, Decoded(Addresses(Some("10.0.0.2"), None)));
    var r := app.Sync(list, ip, PutStatus(StatusOK));
    assert r == Fail(GetRecordFailed(ApiError(["bad token"])));
    assert app.calls == [ListRecords("zone", "home.example.com")] && app.recordId == "";
  }

  /** An update answered with 500: the cycle fails after exactly one PUT. */
  method FailedUpdateCycle()
  {
    var app := new App("token", "zone", "home.example.com");
    var rec := DnsRecord("rec-1", "home.example.com", "A", "10.0.0.1");
    var list := Reply(StatusOK, Decoded(ListResponse(true, [], [rec])));
    var ip := Reply(StatusOK, Decoded(Addresses(None, Some("::1"))));
    var r := app.Sync(list, ip, PutStatus(500));
    assert IsFirstMatch([rec], "home.example.com", 0);
    assert r == Fail(UpdateRecordFailed(UnexpectedStatus(500)));
    assert |app.calls| == 3 && app.calls[2].PutRecord? && app.calls[2].request.body.content == "::1";
  }
}
