# ddns-cloudflare, modelled in Dafny

`ddns-cloudflare.py` is a dynamic-DNS updater that runs once per invocation. It keeps the
provider's AAAA record for the host name `api.cloudflare.com` (`RECORD.ZONE`) equal to the host's
current global IPv6 address. It first finds the address the host would use (`expected`). Only
when there is one does it ask the resolver for the address DNS currently publishes (`recorded`).
When the resolver gives no address or a different one, it takes the zone id and the
record id out of a small local cache file. If one of them is missing, it asks the provider for the
zone and for the record again. While it scans the record listing it deletes every CNAME record and
every AAAA record after the first one. It then creates or updates the record and writes the cache:
the ids after a successful lookup or create, and no ids after a failed update.

The model has five modules:

- `Wrappers` (wrappers.dfy) has the `Option` type that stands for Python's `None`.
- `Config` (config.dfy) has the compiled-in `ZONE`, `RECORD` and `DOMAIN`.
- `Cache` (cache.dfy) models the cache file as a value: absent, unreadable, or a stored
  `{domain, zone_id, record_id}` object. It defines `load_conf` as the function `LoadConf` and
  defines what `save_conf` and `clear_conf` leave on disk.
- `Records` (records.dfy) holds the two decisions over provider listings. One is the zone selection
  of `list_zones`. The other is the de-duplication rule of `list_records`, given independently of
  the loop: a record is doomed when it is a CNAME, or when it is an AAAA record with an earlier
  AAAA record.
- `Host` (host.dfy) has the class `Host`. Its fields are the cache file and a trace of every
  provider call and cache write. Its methods model `restful_api` (`Issue`), `list_zones`,
  `list_records`, `delete_record`, `create_record`, `update_record`, `save_conf` and
  `clear_conf`. `load_conf` is the function `Cache.LoadConf`, read from the host's cache field.
  `Reconcile` models `main`: it checks the guard of lines 137-139 and then calls two methods
  that are not source functions but the two halves of `main`. `LookUp` covers lines 140-146 and
  `Publish` covers lines 147-153. The ghost function `Reconciliation` says what one whole run
  does. The lemmas beside it state which calls and which cache writes happen on each path.

Every provider call is an oracle. A method records the call in the trace and receives the answer as an
`Option`, except `DeleteRecord`, which receives none because the program ignores the answer of a
delete (line 73). `Responses` bundles the answers one run receives: zone listing, record listing,
created id and updated id. Each of these calls happens at most once per run. `get_expected` and
`get_recorded` have no member: their answers `expected` and `recorded` are parameters of
`Reconcile`. When `expected` is `None`, the value of `recorded` plays no part, just as the source
does not call `get_recorded` then.

Two behaviours of the program are easy to miss:

- A run writes the cache twice when the listing finds the record and the update then fails. It
  first saves `(zone, record)` (lines 145-146), then clears the ids (lines 152-153).
  `FoundRecordSaved` and `WritesAreConfirmedOrClear` state this.
- `clear_conf` is `save_conf(None, None)`. It keeps the configured `domain` and writes null ids
  (lines 124, 132). `ClearThenLoad` states this.

## Model

| member | source | states |
|---|---|---|
| `Cache.LoadConf` | ddns-cloudflare.py:109-119 | returns the stored ids exactly when the file holds an object whose `domain` is `DOMAIN`; a missing file, an unreadable file, a missing domain or a foreign domain give `(None, None)` |
| `Cache.SaveThenLoad` | ddns-cloudflare.py:122-128 | after `save_conf(z, r)`, `load_conf` returns `(z, r)` |
| `Cache.ClearThenLoad` | ddns-cloudflare.py:131-132 | after `clear_conf`, the file still names `DOMAIN` and `load_conf` returns `(None, None)` |
| `Cache.ForeignDomainIgnored` | ddns-cloudflare.py:114-116 | any stored domain other than `DOMAIN` makes `load_conf` return `(None, None)`, whatever ids are stored |
| `Records.SelectZone` | ddns-cloudflare.py:43-52 | a zone id only when the listing has exactly one element, and then that element's id; zero, several or a failed call give `None` |
| `Records.FirstAaaaBelow` | ddns-cloudflare.py:56-67 | the position found is an AAAA record with no AAAA record before it; when none is found, the scanned prefix has no AAAA record |
| `Records.ScanStep` | ddns-cloudflare.py:60-67 | one loop step: record `i` is doomed exactly when it is a CNAME, or an AAAA record while `record_id` is already set; `record_id` is set only by the first AAAA record |
| `Records.KeptIdIsFirstAaaa` | ddns-cloudflare.py:56-68 | `list_records` returns an id exactly when the listing has an AAAA record, and then it is the id of an AAAA record with no AAAA record before it |
| `Records.DeletedBelow` | ddns-cloudflare.py:60-67 | the deleted positions are in range, strictly increasing, and are exactly the doomed positions |
| `Records.DeletionRule` | ddns-cloudflare.py:61-67 | a CNAME is deleted; an AAAA record is deleted exactly when it is not the first AAAA record; a record of any other type is neither deleted nor the kept one |
| `Records.DeletedOnce` | ddns-cloudflare.py:60-67 | each doomed record is deleted exactly once, and every other record is never deleted |
| `Records.NothingListed` | ddns-cloudflare.py:59-68 | a failed or empty listing deletes nothing and returns `None` |
| `Host.DeletionsAt` | ddns-cloudflare.py:60-73 | the k-th `delete_record` call during the scan deletes the record at the k-th doomed position |
| `Host.DeletionsOnlyDelete` | ddns-cloudflare.py:60-73 | the scan's side effects are only `delete_record` calls on the listed zone |
| `Host.NothingListedNoDeletes` | ddns-cloudflare.py:58-59 | a failed or empty record listing makes no delete call |
| `Host.CnameIdsDeleted` | ddns-cloudflare.py:61-62 | every CNAME's id is passed to `delete_record` |
| `Host.AaaaIdsDeleted` | ddns-cloudflare.py:63-67 | the first AAAA record is returned and not deleted; every later AAAA record is deleted exactly once and its id is passed to `delete_record` |
| `Host.InSync` | ddns-cloudflare.py:136-139 | with no expected address, or with `recorded == expected`, a run makes no provider call and no cache write |
| `Host.UpdateWithCachedIds` | ddns-cloudflare.py:140-153 | with both ids cached, the only call is the update; a failed update clears the cache, and a successful one writes nothing |
| `Host.NoZoneNoPublish` | ddns-cloudflare.py:141-147 | when the zone lookup finds no zone, the zone listing is the only call, and the cache is not written |
| `Host.FoundRecordSaved` | ddns-cloudflare.py:141-153 | a record found by the listing is saved with its zone, then updated; a failed update clears the cache again, and nothing is created |
| `Host.CreateSavesOnSuccess` | ddns-cloudflare.py:141-151 | with a zone and no record, the record is created, and the cache is written exactly when the create call returned an id |
| `Host.LookupOnlyWhenIdsMissing` | ddns-cloudflare.py:141-144 | the zone listing is called exactly when an id is missing from the cache; record listing and deletes happen only then, and only in the selected zone |
| `Host.PublishNeedsZone` | ddns-cloudflare.py:147-152 | create and update calls carry the expected address and go only to the cached zone or the zone the lookup selected |
| `Host.WritesAreConfirmedOrClear` | ddns-cloudflare.py:145-153 | every cache write names `DOMAIN`. It either holds no ids, after a failed update, or holds two present ids taken from this run's lookup: the ids were missing from the cache, the zone is the one `SelectZone` chose, and the record is the one the listing returned or the create call answered |
| `Host.PublishedIsRemembered` | ddns-cloudflare.py:145-153 | after a run whose create or update succeeded, the cache supplies both ids |
| `Host.NextRunOnlyUpdates` | ddns-cloudflare.py:135-153 | after such a run, the next run that finds DNS out of date makes a single update call: no listing, no delete, no create |
| `Host.CnameAndTwoAaaaListed` | ddns-cloudflare.py:55-68 | for the listing AAAA `a1`, CNAME `c1`, AAAA `a2`, the scan deletes `c1` and then `a2`, and returns `a1` |
| `Host.NoZoneFromEmptyCache` | ddns-cloudflare.py:135-147 | with no cache file and an empty zone listing, the run makes one zone listing call and leaves the cache absent |
| `Host.CreateFromEmptyCache` | ddns-cloudflare.py:135-151 | with no cache file, one zone and no records, the run creates `2400:3200::1` and saves the new id with the zone |
| `Host.Host.Issue` | ddns-cloudflare.py:21-40 | one provider call is appended to the trace, and the cache is unchanged |
| `Host.Host.ListZones` | ddns-cloudflare.py:43-52 | issues the zone listing and returns `SelectZone` of its answer |
| `Host.Host.DeleteRecord` | ddns-cloudflare.py:71-73 | issues one delete call for the given zone and record |
| `Host.Host.ListRecords` | ddns-cloudflare.py:55-68 | issues the record listing, then exactly the delete calls of the rule in listing order, and returns the first AAAA record's id |
| `Host.Host.CreateRecord` | ddns-cloudflare.py:76-81 | issues the create call with the content and returns the provider's id, or `None` |
| `Host.Host.UpdateRecord` | ddns-cloudflare.py:84-89 | issues the update call with the content and returns the provider's id, or `None` |
| `Host.Host.SaveConf` | ddns-cloudflare.py:122-128 | the cache file becomes `{DOMAIN, zone_id, record_id}`, and the write is appended to the trace |
| `Host.Host.ClearConf` | ddns-cloudflare.py:131-132 | the cache file becomes `{DOMAIN, None, None}`, and the write is appended to the trace |
| `Host.Host.LookUp` | ddns-cloudflare.py:140-146 | the calls, ids and cache after the lookup (lines 140-146) are those of `LookupStage` |
| `Host.Host.Publish` | ddns-cloudflare.py:147-153 | the calls and cache after the create-or-update (lines 147-153) are those of `PublishStage` |
| `Host.Host.Reconcile` | ddns-cloudflare.py:135-153 | the trace grows by exactly the events of `Reconciliation`, and the cache becomes its final file |

## Left out

- HTTPS transport, headers, the bearer token, JSON encoding and decoding, and logging of API
  errors (`restful_api`, lines 21-40) are not modelled. Each call is a trace entry, and its
  answer is an oracle `Option`.
- Malformed provider answers are not modelled. In the source, a listing element without `id` or
  `type`, or a result without `id`, raises an exception that nothing catches. The model's
  records always have both fields.
- Address discovery (`get_expected`, `get_recorded`, lines 92-106) uses a socket and the system
  resolver. The model takes both addresses as given optional strings.
- Cache file handling is not modelled: the path, `os.path.exists`, JSON reading and writing, and
  exception catching. A file that cannot be read is the `Unreadable` value. A failed write is not
  modelled: every `save_conf` is assumed to reach the disk.
- Request URLs and the fixed request body (type `AAAA`, TTL 120, not proxied) are not modelled.
  The trace records only the zone id, the record id and the content of each call.
- The oracle answers are fixed for a whole run. This is exact because each provider call
  happens at most once per run. It does not tie the record listing to the zone id asked for.
- Logging setup and the `__main__` entry point (lines 156-158) are not modelled. The API token
  constant is left out. `ZONE`, `RECORD` and `DOMAIN` are model constants.
- NextRunOnlyUpdates: the resolver's answer (`get_recorded`, line 94) is a parameter of each run.
  It is not tied to the update the previous run made. A later run that still sees the old
  address, for example within the record's 120 s TTL, makes one `update_record` call, and this
  lemma states exactly that call. A later run makes no create, update or delete call only when
  it sees the new address, which is `InSync`.
- Concurrency between two runs sharing the cache file is not modelled. The source does not guard
  against it.
