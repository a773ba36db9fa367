# ip-sync reconciliation core, in Dafny

ip-sync is a dynamic-DNS updater for Cloudflare. On every tick it lists the
zone's DNS records by name, picks the address record to keep up to date, asks a
discovery service for the machine's public address, and sends one PUT when the
stored content differs. This project models that decision core of `main.go`
with the network calls replaced by their decoded answers, and proves what one
reconciliation cycle does.

Modules, one per concern of `main.go`:

- `Wrappers`: `Option`, `Result`, `Outcome`.
- `Http`: a call's answer (`Reply<T>`: no reply, or a status with a decoded or
  malformed body; `PutReply` for the update), `StatusOK`, and the error kinds
  (transport, unexpected status, decode failure, API error, record not found,
  no IP address).
- `Records`: the post-request part of `getRecord`. `Lookup` is the
  specification. `FindRecord` is `getRecord`'s early-return loop over `result`,
  proved to return the *first* entry whose name is the requested one and whose
  type is `"A"`.
- `Discovery`: the post-request part of `currentIP`. IPv4 wins, IPv6 is the
  fallback, and having neither is `NoIpAddress`. The service's status code is
  never inspected.
- `Update`: the PUT body (`type`, `name`, `content`), its target (zone and
  record ID), and the check that only status 200 succeeds.
- `Reconciler`: class `App`. Its `recordId` field is the cached
  `Cloudflare.RecordID`. Its `calls` field logs every outbound call, which makes
  "zero or one update" and "aborts before discovery" statable. `Sync` is proved
  equal to the pure specification `Cycle`.
- `CycleProperties`: lemmas about `Cycle`, one per promise of `sync`.
- `Convergence`: a minimal provider model (a PUT overwrites type, name and
  content of the record with the targeted ID). It proves that after an accepted
  update, a cycle that sees the same address sends nothing.
- `Scenarios`: concrete cycles that call `App.Sync` and rely on its contract
  alone: stale record, provider error, update answered with 500.

Behaviour of `main.go` worth noting:
- The discovery call's HTTP status is not checked (`main.go:108-121`). A body
  that decodes is used whatever the status.
- A body that does not decode is its own error kind (`DecodeFailed`) rather
  than a transport error.
- An empty-string `ipv4` field counts as present and is chosen, because
  `currentIP` tests the field for nil and not for emptiness.

## Model

| member | source | states |
|---|---|---|
| `Records.FirstMatch` | main.go:205-211 | the index returned holds a record with the requested name and type "A" and no earlier index does; there is no index exactly when no record matches |
| `Records.FindRecord` | main.go:205-211 | the loop returns the ID and content of the first matching record, returns nothing exactly when no record matches, and agrees with the specification `Select` |
| `Records.Lookup` | main.go:174-211 | an undelivered request is a transport error and an undecodable 200 body a decode error; a lookup succeeds exactly when the reply is 200, decodes, has `success` set and some record matches; the result is then the first match; "record not found" exactly when the usable listing has no match; a non-200 status fails whatever the body holds; `success == false` fails with the API errors |
| `Records.FirstMatchIgnoresLater` | main.go:205-209 | entries appended after the first match never change the index found |
| `Records.LookupIgnoresLaterMatches` | main.go:205-209 | a successful lookup returns the same record whatever entries follow in the listing (first match wins) |
| `Discovery.ChooseAddress` | main.go:123-129 | succeeds exactly when IPv4 or IPv6 is present; IPv4 is returned whenever present; IPv6 only when IPv4 is absent; otherwise fails with `NoIpAddress` |
| `Discovery.Discover` | main.go:107-130 | an undelivered request is a transport error, an undecodable body a decode error; a delivered, decoded reply gives exactly what the preference rule `ChooseAddress` picks, so a success carries the IPv4 value, or the IPv6 value when IPv4 is absent |
| `Discovery.DiscoverIgnoresStatus` | main.go:108-121 | the discovery result does not depend on the HTTP status of the discovery reply |
| `Update.PutOutcome` | main.go:151-161 | the update succeeds exactly when it is delivered and answered with 200; any other status is an unexpected-status error |
| `Reconciler.CycleIssuesAtMostOnePut` | main.go:96-100 | a cycle sends at most one update, and that update targets the record ID the cycle leaves cached, with type "A" and the configured name |
| `Reconciler.App.constructor` | main.go:43-46 | the updater starts only with non-empty token, zone and record name, with no cached record ID and no calls made |
| `Reconciler.App.GetRecord` | main.go:163-212 | keeps the class invariant, logs one listing call for the zone and name and returns what `Lookup` specifies |
| `Reconciler.App.CurrentIp` | main.go:107-130 | keeps the class invariant, logs one discovery call and returns what `Discover` specifies |
| `Reconciler.App.UpdateDnsRecord` | main.go:134-162 | logs one PUT for the cached record ID in the configured zone with body type "A", the configured name and the new address, and returns what `PutOutcome` specifies |
| `Reconciler.App.Sync` | main.go:82-104 | the new cached ID, the calls appended to the log and the result are exactly those of the `Cycle` specification; the log gains at most one update; every update ever logged targets the configured zone with type "A" and the configured name |
| `CycleProperties.CycleSkipsUpdateWhenCurrent` | main.go:96-103 | when the stored content equals the discovered address, the cycle makes no update call and succeeds |
| `CycleProperties.CycleUpdatesOnceWhenStale` | main.go:96-101 | when they differ, exactly one update is sent, to the ID found in this cycle, with type "A", the configured name and the discovered address; the cycle succeeds exactly on status 200 and a non-200 status is reported as an update failure |
| `CycleProperties.CycleLookupFailureAborts` | main.go:83-86 | a failed lookup makes only the listing call, leaves the cached ID unchanged and reports a lookup failure |
| `CycleProperties.CycleDiscoveryFailureAborts` | main.go:87-94 | a failed discovery makes no update call but has already refreshed the cached ID to the looked-up one |
| `CycleProperties.CycleQuietIff` | main.go:96-103 | a cycle succeeds with no update exactly when lookup and discovery succeed and the stored content equals the discovered address |
| `Convergence.SelectAfterUpdate` | main.go:135-140 | after the provider applies the update built for the selected record, the next lookup selects a record with that ID and the new content |
| `Convergence.SecondCycleIsQuiet` | main.go:82-104 | after a cycle whose single update was accepted, a cycle that sees the updated listing and the same address succeeds, sends nothing and keeps the cached ID |
| `Scenarios.AddressPreferenceCases` | main.go:123-129 | IPv4 only, both, IPv6 only, and neither give the IPv4, IPv4, IPv6 and `NoIpAddress` results |

## Left out

- HTTP transport: building requests, the `Authorization` and `Content-Type` headers, the client and closing bodies. Each call is a parameter holding its answer. A request that cannot be built or delivered is `NoReply`/`PutNoReply`.
- JSON decoding and encoding, and the provider's `errors` list as structured data (kept as message strings). A body that fails to decode is `Malformed`.
- URL formatting with `fmt.Sprintf`. The listing call is identified by zone and name, the update by zone and record ID.
- `main`: flag and environment parsing, the version line, logging, `os.Exit`, the initial synchronous sync, the ticker loop, signal handling and context cancellation. These are process plumbing, timing and concurrency. The required-settings check is the constructor's precondition.
- Error message text and `%w` wrapping. Only the kind of error and the step that failed (`SyncError`) are kept.
- The informational log line written before an update.
- `Convergence` rests on a provider model (a PUT overwrites the targeted record) that is an assumption about Cloudflare, not code of this repository. It does not check that the content of an "A" record is an IPv4 address, although `currentIP` may return an IPv6 address that `updateDNSRecord` then sends in a body typed "A" (main.go:125-126, main.go:137).
