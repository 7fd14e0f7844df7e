/** The updater's run (`main`, ddns-cloudflare.py:135-153) over an abstract environment.
    The host holds the cache file the run reads and writes, and a trace of everything the
    run does to the outside world: each call to the provider's API and each cache write.
    The provider's answers are oracle values handed in by the caller. */
module Host {

  import opened Wrappers
  import opened Config
  import opened Cache
  import opened Records

  /** A call to the provider's management API, with the ids and content it carries. */
  datatype Request =
    | ZonesQuery
    | RecordsQuery(zoneId: string)
    | Delete(zoneId: string, recordId: string)
    | Create(zoneId: string, content: string)
    | Update(zoneId: string, recordId: string, content: string)

  /** Something the run does that is visible outside it. */
  datatype Event = Api(request: Request) | Saved(conf: CacheRecord)

  /** What the provider answers, reduced to what the program takes from each answer:
      the zone listing, the record listing, and the id in the result of the create and the
      update calls. `None` is a failed call or a missing `result`. Each call is made at most
      once per run, so one answer per call describes the whole run. */
  datatype Responses = Responses(
    zones: Option<seq<Zone>>,
    records: Option<seq<Record>>,
    created: Option<string>,
    updated: Option<string>)

  /** The delete calls the scan of `list_records` has made after the first `n` records of a
      listing of zone `zoneId`. It is written as a recursion on the prefix, one record per
      step, because that is the shape of the loop invariant of `Host.ListRecords`; the lemma
      `DeletionsAt` shows it is exactly the events for the positions of `Records.DeletedBelow`. */
  ghost function DeletionsBelow(zoneId: string, rs: seq<Record>, n: nat): seq<Event>
    requires n <= |rs|
  {
    if n == 0 then []
    else DeletionsBelow(zoneId, rs, n - 1) + (if Doomed(rs, n - 1) then [Api(Delete(zoneId, rs[n - 1].id))] else [])
  }

  /** The delete calls `list_records` makes for a listing of zone `zoneId`. */
  ghost function Deletions(zoneId: string, rs: seq<Record>): seq<Event>
  {
    DeletionsBelow(zoneId, rs, |rs|)
  }

  /** The delete calls, one by one, are those for the positions the rule dooms, in listing
      order: the k-th call deletes the record at the k-th doomed position. */
  lemma {:induction false} DeletionsAt(zoneId: string, rs: seq<Record>, n: nat)
    requires n <= |rs|
    ensures var ix, dels := DeletedBelow(rs, n), DeletionsBelow(zoneId, rs, n);
      |dels| == |ix| && forall k :: 0 <= k < |ix| ==> dels[k] == Api(Delete(zoneId, rs[ix[k]].id))
  {
    if n > 0 {
      DeletionsAt(zoneId, rs, n - 1);
    }
  }

  /** The deletes of `list_records` are delete calls on the listed zone and nothing else:
      no other API call and no cache write. */
  lemma DeletionsOnlyDelete(zoneId: string, rs: seq<Record>)
    ensures forall ev :: ev in Deletions(zoneId, rs) ==> ev.Api? && ev.request.Delete? && ev.request.zoneId == zoneId
  {
    var dels := Deletions(zoneId, rs);
    DeletionsAt(zoneId, rs, |rs|);
    forall ev | ev in dels
      ensures ev.Api? && ev.request.Delete? && ev.request.zoneId == zoneId
    {
      var k :| 0 <= k < |dels| && dels[k] == ev;
    }
  }

  /** A failed or empty record listing makes no delete call. */
  lemma NothingListedNoDeletes(zoneId: string, listing: Option<seq<Record>>)
    requires listing.None? || listing.value == []
    ensures Deletions(zoneId, Entries(listing)) == []
  {
  }

  /** Every CNAME of the listing has its id passed to `delete_record`. */
  lemma CnameIdsDeleted(zoneId: string, rs: seq<Record>, i: nat)
    requires i < |rs| && rs[i].rtype == CNAME
    ensures Api(Delete(zoneId, rs[i].id)) in Deletions(zoneId, rs)
  {
    DeletionRule(rs, i);
    DeletionsAt(zoneId, rs, |rs|);
    var ix := Deleted(rs);
    var k :| 0 <= k < |ix| && ix[k] == i;
    assert Deletions(zoneId, rs)[k] == Api(Delete(zoneId, rs[i].id));
  }

  /** The first AAAA record is kept and every later one is deleted: the delete calls are
      exactly one per record the rule dooms, and the first AAAA record is not among them. */
  lemma AaaaIdsDeleted(zoneId: string, rs: seq<Record>, i: nat)
    requires i < |rs| && rs[i].rtype == AAAA
    ensures KeptId(Some(rs)).Some?
    ensures FirstAaaaBelow(rs, |rs|) == Some(i) ==> KeptId(Some(rs)) == Some(rs[i].id) && i !in Deleted(rs)
    ensures FirstAaaaBelow(rs, |rs|) != Some(i) ==>
      multiset(Deleted(rs))[i] == 1 && Api(Delete(zoneId, rs[i].id)) in Deletions(zoneId, rs)
  {
    DeletionRule(rs, i);
    if FirstAaaaBelow(rs, |rs|) != Some(i) {
      DeletedOnce(rs, |rs|, i);
      DeletionsAt(zoneId, rs, |rs|);
      var ix := Deleted(rs);
      var k :| 0 <= k < |ix| && ix[k] == i;
      assert Deletions(zoneId, rs)[k] == Api(Delete(zoneId, rs[i].id));
    }
  }

  /** The events, ids and cache file in hand after the lookup of a run (ddns-cloudflare.py:140-146). */
  datatype Stage = Stage(events: seq<Event>, zoneId: Option<string>, recordId: Option<string>, cache: CacheFile)

  /** The end of a run: what it did, and the cache file it leaves. */
  datatype Outcome = Outcome(events: seq<Event>, cache: CacheFile)

  /** The run goes past the address check: an expected address is known and DNS does not
      already publish it. */
  predicate Proceeds(expected: Option<string>, recorded: Option<string>)
  {
    expected.Some? && recorded != expected
  }

  /** The cache does not supply both ids, so the run must ask the provider. */
  predicate Missing(f: CacheFile)
  {
    LoadConf(f).zoneId.None? || LoadConf(f).recordId.None?
  }

  /** The lookup of a run (ddns-cloudflare.py:140-146): the ids read from the cache and, when one
      of them is missing, the zone and record lookups and the save of what they found. */
  ghost function LookupStage(loaded: Ids, resp: Responses, f: CacheFile): Stage
  {
    if loaded.zoneId.Some? && loaded.recordId.Some? then Stage([], loaded.zoneId, loaded.recordId, f)
    else
      var zoneId := SelectZone(resp.zones);
      if zoneId.None? then Stage([Api(ZonesQuery)], None, loaded.recordId, f)
      else
        var recordId := KeptId(resp.records);
        var events := [Api(ZonesQuery), Api(RecordsQuery(zoneId.value))] + Deletions(zoneId.value, Entries(resp.records));
        if recordId.Some? then Stage(events + [Saved(ConfFor(zoneId, recordId))], zoneId, recordId, SavedFile(zoneId, recordId))
        else Stage(events, zoneId, None, f)
  }

  /** The create-or-update of a run (ddns-cloudflare.py:147-153): create or update the record with the ids
      in hand, and the cache write that follows; `f` is the cache file before it. */
  ghost function PublishStage(content: string, resp: Responses, zoneId: Option<string>, recordId: Option<string>, f: CacheFile): Outcome
  {
    if zoneId.None? then Outcome([], f)
    else if recordId.None? then
      var events := [Api(Create(zoneId.value, content))];
      if resp.created.Some? then Outcome(events + [Saved(ConfFor(zoneId, resp.created))], SavedFile(zoneId, resp.created))
      else Outcome(events, f)
    else
      var events := [Api(Update(zoneId.value, recordId.value, content))];
      if resp.updated.None? then Outcome(events + [Saved(ConfFor(None, None))], ClearedFile())
      else Outcome(events, f)
  }

  /** A whole run from cache file `f`. */
  ghost function Reconciliation(expected: Option<string>, recorded: Option<string>, resp: Responses, f: CacheFile): Outcome
  {
    if !Proceeds(expected, recorded) then Outcome([], f)
    else
      var s := LookupStage(LoadConf(f), resp, f);
      var p := PublishStage(expected.value, resp, s.zoneId, s.recordId, s.cache);
      Outcome(s.events + p.events, p.cache)
  }

  /** With no address, or with DNS already publishing it, a run calls nothing and writes nothing. */
  lemma InSync(expected: Option<string>, recorded: Option<string>, resp: Responses, f: CacheFile)
    requires !Proceeds(expected, recorded)
    ensures Reconciliation(expected, recorded, resp, f) == Outcome([], f)
  {
  }

  /** With both ids cached, the run makes one update call and nothing else: a failed update
      clears the cache, a successful one leaves the file as it was. */
  lemma UpdateWithCachedIds(expected: Option<string>, recorded: Option<string>, resp: Responses, f: CacheFile)
    requires Proceeds(expected, recorded) && !Missing(f)
    ensures var o := Reconciliation(expected, recorded, resp, f);
      var ids := LoadConf(f);
      && o.events == [Api(Update(ids.zoneId.value, ids.recordId.value, expected.value))]
                     + (if resp.updated.None? then [Saved(ConfFor(None, None))] else [])
      && o.cache == (if resp.updated.None? then ClearedFile() else f)
      && LoadConf(o.cache) == (if resp.updated.None? then Ids(None, None) else ids)
  {
  }

  /** Without a zone, the zone listing is the only call: nothing is listed, created, updated
      or deleted and the cache is not written. */
  lemma NoZoneNoPublish(expected: Option<string>, recorded: Option<string>, resp: Responses, f: CacheFile)
    requires Proceeds(expected, recorded) && Missing(f) && SelectZone(resp.zones).None?
    ensures Reconciliation(expected, recorded, resp, f) == Outcome([Api(ZonesQuery)], f)
  {
  }

  /** A record found by the listing is saved with its zone and then updated; a failed
      update clears the cache again. Nothing is created. */
  lemma FoundRecordSaved(expected: Option<string>, recorded: Option<string>, resp: Responses, f: CacheFile)
    requires Proceeds(expected, recorded) && Missing(f)
    requires SelectZone(resp.zones).Some? && KeptId(resp.records).Some?
    ensures var o := Reconciliation(expected, recorded, resp, f);
      var z, r := SelectZone(resp.zones).value, KeptId(resp.records).value;
      && o.events == [Api(ZonesQuery), Api(RecordsQuery(z))] + Deletions(z, Entries(resp.records))
                     + [Saved(ConfFor(Some(z), Some(r))), Api(Update(z, r, expected.value))]
                     + (if resp.updated.None? then [Saved(ConfFor(None, None))] else [])
      && o.cache == (if resp.updated.None? then ClearedFile() else SavedFile(Some(z), Some(r)))
      && LoadConf(o.cache) == (if resp.updated.None? then Ids(None, None) else Ids(Some(z), Some(r)))
  {
  }

  /** With a zone and no record, the record is created, and the cache is written exactly
      when the create call returned the new id. */
  lemma CreateSavesOnSuccess(expected: Option<string>, recorded: Option<string>, resp: Responses, f: CacheFile)
    requires Proceeds(expected, recorded) && Missing(f)
    requires SelectZone(resp.zones).Some? && KeptId(resp.records).None?
    ensures var o := Reconciliation(expected, recorded, resp, f);
      var z := SelectZone(resp.zones).value;
      && o.events == [Api(ZonesQuery), Api(RecordsQuery(z))] + Deletions(z, Entries(resp.records))
                     + [Api(Create(z, expected.value))]
                     + (if resp.created.Some? then [Saved(ConfFor(Some(z), resp.created))] else [])
      && o.cache == (if resp.created.Some? then SavedFile(Some(z), resp.created) else f)
      && (resp.created.Some? ==> LoadConf(o.cache) == Ids(Some(z), resp.created))
  {
  }

  /** The zone listing is asked exactly when the cache lacks an id; records are listed or
      deleted only then, and only in the zone the zone listing selected. */
  lemma LookupOnlyWhenIdsMissing(expected: Option<string>, recorded: Option<string>, resp: Responses, f: CacheFile)
    requires Proceeds(expected, recorded)
    ensures var o := Reconciliation(expected, recorded, resp, f);
      && (Api(ZonesQuery) in o.events <==> Missing(f))
      && (forall ev :: ev in o.events && ev.Api? && (ev.request.RecordsQuery? || ev.request.Delete?) ==>
            Missing(f) && SelectZone(resp.zones) == Some(ev.request.zoneId))
  {
    if !Missing(f) {
      UpdateWithCachedIds(expected, recorded, resp, f);
    } else if SelectZone(resp.zones).None? {
      NoZoneNoPublish(expected, recorded, resp, f);
    } else {
      DeletionsOnlyDelete(SelectZone(resp.zones).value, Entries(resp.records));
      if KeptId(resp.records).Some? {
        FoundRecordSaved(expected, recorded, resp, f);
      } else {
        CreateSavesOnSuccess(expected, recorded, resp, f);
      }
    }
  }

  /** Create and update calls go only to a known zone: the cached one, or the one the zone
      listing selected. */
  lemma PublishNeedsZone(expected: Option<string>, recorded: Option<string>, resp: Responses, f: CacheFile)
    ensures var o := Reconciliation(expected, recorded, resp, f);
      forall ev :: ev in o.events && ev.Api? && (ev.request.Create? || ev.request.Update?) ==>
        && Proceeds(expected, recorded)
        && ev.request.content == expected.value
        && (if Missing(f) then SelectZone(resp.zones) == Some(ev.request.zoneId) else LoadConf(f).zoneId == Some(ev.request.zoneId))
  {
    if !Proceeds(expected, recorded) {
    } else if !Missing(f) {
      UpdateWithCachedIds(expected, recorded, resp, f);
    } else if SelectZone(resp.zones).None? {
      NoZoneNoPublish(expected, recorded, resp, f);
    } else {
      DeletionsOnlyDelete(SelectZone(resp.zones).value, Entries(resp.records));
      if KeptId(resp.records).Some? {
        FoundRecordSaved(expected, recorded, resp, f);
      } else {
        CreateSavesOnSuccess(expected, recorded, resp, f);
      }
    }
  }

  /** Every cache write of a run names the configured domain and either both ids of a record
      the provider confirmed in this run (the zone the lookup selected, and the record the
      listing returned or the create call answered), or no id at all after a failed update. */
  lemma WritesAreConfirmedOrClear(expected: Option<string>, recorded: Option<string>, resp: Responses, f: CacheFile)
    ensures var o := Reconciliation(expected, recorded, resp, f);
      forall ev :: ev in o.events && ev.Saved? ==>
        && ev.conf.domain == Some(DOMAIN)
        && (|| (&& ev.conf.zoneId.Some? && ev.conf.recordId.Some?
                && Missing(f)
                && ev.conf.zoneId == SelectZone(resp.zones)
                && (ev.conf.recordId == KeptId(resp.records) || ev.conf.recordId == resp.created))
            || (ev.conf == ConfFor(None, None) && resp.updated.None?))
  {
    if !Proceeds(expected, recorded) {
    } else if !Missing(f) {
      UpdateWithCachedIds(expected, recorded, resp, f);
    } else if SelectZone(resp.zones).None? {
      NoZoneNoPublish(expected, recorded, resp, f);
    } else {
      DeletionsOnlyDelete(SelectZone(resp.zones).value, Entries(resp.records));
      if KeptId(resp.records).Some? {
        FoundRecordSaved(expected, recorded, resp, f);
      } else {
        CreateSavesOnSuccess(expected, recorded, resp, f);
      }
    }
  }

  /** The run reached the create-or-update (ddns-cloudflare.py:147-153) with a zone id, and its create or update call succeeded. */
  ghost predicate Published(expected: Option<string>, recorded: Option<string>, resp: Responses, f: CacheFile)
  {
    && Proceeds(expected, recorded)
    && var s := LookupStage(LoadConf(f), resp, f);
    && s.zoneId.Some?
    && (if s.recordId.None? then resp.created.Some? else resp.updated.Some?)
  }

  /** A run whose create or update call succeeded leaves a cache from which the next run
      takes both ids. */
  lemma PublishedIsRemembered(expected: Option<string>, recorded: Option<string>, resp: Responses, f: CacheFile)
    requires Published(expected, recorded, resp, f)
    ensures !Missing(Reconciliation(expected, recorded, resp, f).cache)
  {
  }

  /** Idempotence on the provider side: after a run whose create or update succeeded, the
      next run that finds DNS out of date, whatever the provider answers, asks for no
      listing, deletes nothing, creates nothing and makes a single update call. */
  lemma NextRunOnlyUpdates(
    expected1: Option<string>, recorded1: Option<string>, resp1: Responses, f: CacheFile,
    expected2: Option<string>, recorded2: Option<string>, resp2: Responses)
    requires Published(expected1, recorded1, resp1, f)
    requires Proceeds(expected2, recorded2)
    ensures var o1 := Reconciliation(expected1, recorded1, resp1, f);
      var ids := LoadConf(o1.cache);
      && !Missing(o1.cache)
      && Reconciliation(expected2, recorded2, resp2, o1.cache).events
         == [Api(Update(ids.zoneId.value, ids.recordId.value, expected2.value))]
            + (if resp2.updated.None? then [Saved(ConfFor(None, None))] else [])
  {
    var o1 := Reconciliation(expected1, recorded1, resp1, f);
    PublishedIsRemembered(expected1, recorded1, resp1, f);
    UpdateWithCachedIds(expected2, recorded2, resp2, o1.cache);
  }

  /** A listing with a CNAME between two AAAA records: the CNAME and the second AAAA record
      are deleted, in listing order, and the first AAAA record's id is returned. */
  lemma CnameAndTwoAaaaListed(zoneId: string)
    ensures var rs := [Record("a1", AAAA, DOMAIN, "2400:3200::1"), Record("c1", CNAME, DOMAIN, "cloudflare.com"),
                       Record("a2", AAAA, DOMAIN, "2400:3200::2")];
      && Deletions(zoneId, rs) == [Api(Delete(zoneId, "c1")), Api(Delete(zoneId, "a2"))]
      && KeptId(Some(rs)) == Some("a1")
  {
    var rs := [Record("a1", AAAA, DOMAIN, "2400:3200::1"), Record("c1", CNAME, DOMAIN, "cloudflare.com"),
               Record("a2", AAAA, DOMAIN, "2400:3200::2")];
    assert rs[0].rtype == AAAA && rs[1].rtype == CNAME && rs[2].rtype == AAAA;
    assert AaaaBefore(rs, 2);
    assert DeletionsBelow(zoneId, rs, 1) == [];
    assert DeletionsBelow(zoneId, rs, 2) == [Api(Delete(zoneId, "c1"))];
  }

  /** No cache, and no zone matches: one zone listing, then nothing; the cache stays absent. */
  lemma NoZoneFromEmptyCache(expected: string)
    ensures Reconciliation(Some(expected), None, Responses(Some([]), None, None, None), Absent)
            == Outcome([Api(ZonesQuery)], Absent)
  {
  }

  /** No cache, one zone, no record: the address is created and the new id saved with the zone. */
  lemma CreateFromEmptyCache(zoneId: string, recordId: string)
    ensures Reconciliation(Some("2400:3200::1"), None, Responses(Some([Zone(zoneId)]), Some([]), Some(recordId), None), Absent)
            == Outcome([Api(ZonesQuery), Api(RecordsQuery(zoneId)), Api(Create(zoneId, "2400:3200::1")),
                        Saved(ConfFor(Some(zoneId), Some(recordId)))],
                       SavedFile(Some(zoneId), Some(recordId)))
  {
    assert Deletions(zoneId, []) == [];
  }

  class Host {
    /** The cache file beside the program. */
    var cache: CacheFile
    /** Everything the runs so far did to the provider and to the cache, oldest first. */
    var trace: seq<Event>

    constructor (f: CacheFile)
      ensures cache == f && trace == []
    {
      cache := f;
      trace := [];
    }

    /** `restful_api`: one call to the provider; its answer is the caller's oracle value. */
    method Issue(q: Request)
      modifies this
      ensures trace == old(trace) + [Api(q)] && cache == old(cache)
    {
      trace := trace + [Api(q)];
    }

    /** `list_zones`. */
    method ListZones(zones: Option<seq<Zone>>) returns (zoneId: Option<string>)
      modifies this
      ensures trace == old(trace) + [Api(ZonesQuery)] && cache == old(cache)
      ensures zoneId == SelectZone(zones)
    {
      Issue(ZonesQuery);
      zoneId := SelectZone(zones);
    }

    /** `delete_record`; its answer is ignored. */
    method DeleteRecord(zoneId: string, recordId: string)
      modifies this
      ensures trace == old(trace) + [Api(Delete(zoneId, recordId))] && cache == old(cache)
    {
      Issue(Delete(zoneId, recordId));
    }

    /** `list_records`: one scan over the listing that deletes every CNAME and every AAAA
        record after the first, and returns the first AAAA record's id. */
    method ListRecords(zoneId: string, listing: Option<seq<Record>>) returns (recordId: Option<string>)
      modifies this
      ensures trace == old(trace) + [Api(RecordsQuery(zoneId))] + Deletions(zoneId, Entries(listing))
      ensures cache == old(cache)
      ensures recordId == KeptId(listing)
    {
      recordId := None;
      Issue(RecordsQuery(zoneId));
      if listing.Some? && |listing.value| > 0 {
        var rs := listing.value;
        ghost var start := trace;
        for i := 0 to |rs|
          invariant trace == start + DeletionsBelow(zoneId, rs, i)
          invariant cache == old(cache)
          invariant recordId == KeptBelow(rs, i)
        {
          ScanStep(rs, i);
          var record := rs[i];
          if record.rtype == CNAME {
            DeleteRecord(zoneId, record.id);
          } else if record.rtype == AAAA {
            if recordId.Some? {
              DeleteRecord(zoneId, record.id);
            } else {
              recordId := Some(record.id);
            }
          }
        }
      }
    }

    /** `create_record`: the id the provider assigned, or `None` when the call failed. */
    method CreateRecord(zoneId: string, content: string, response: Option<string>) returns (recordId: Option<string>)
      modifies this
      ensures trace == old(trace) + [Api(Create(zoneId, content))] && cache == old(cache)
      ensures recordId == response
    {
      Issue(Create(zoneId, content));
      recordId := response;
    }

    /** `update_record`: the record's id, or `None` when the call failed. */
    method UpdateRecord(zoneId: string, recordId: string, content: string, response: Option<string>) returns (updatedId: Option<string>)
      modifies this
      ensures trace == old(trace) + [Api(Update(zoneId, recordId, content))] && cache == old(cache)
      ensures updatedId == response
    {
      Issue(Update(zoneId, recordId, content));
      updatedId := response;
    }

    /** `save_conf`: overwrite the cache file with the configured domain and both ids. */
    method SaveConf(zoneId: Option<string>, recordId: Option<string>)
      modifies this
      ensures cache == SavedFile(zoneId, recordId)
      ensures trace == old(trace) + [Saved(ConfFor(zoneId, recordId))]
    {
      cache := SavedFile(zoneId, recordId);
      trace := trace + [Saved(ConfFor(zoneId, recordId))];
    }

    /** `clear_conf`: `save_conf` with no ids. */
    method ClearConf()
      modifies this
      ensures cache == ClearedFile()
      ensures trace == old(trace) + [Saved(ConfFor(None, None))]
    {
      SaveConf(None, None);
    }

    /** Lines 141-146 of `main`: when the cache lacks an id, look the zone and the record up
        and save them once both are known. */
    method LookUp(loaded: Ids, resp: Responses) returns (zoneId: Option<string>, recordId: Option<string>)
      modifies this
      ensures var s := LookupStage(loaded, resp, old(cache));
        && trace == old(trace) + s.events && cache == s.cache
        && zoneId == s.zoneId && recordId == s.recordId
    {
      zoneId, recordId := loaded.zoneId, loaded.recordId;
      if zoneId.None? || recordId.None? {
        ghost var start := trace;
        zoneId := ListZones(resp.zones);
        if zoneId.Some? {
          recordId := ListRecords(zoneId.value, resp.records);
          ghost var listed := [Api(ZonesQuery), Api(RecordsQuery(zoneId.value))] + Deletions(zoneId.value, Entries(resp.records));
          assert trace == start + listed;
          if recordId.Some? {
            SaveConf(zoneId, recordId);
            assert trace == start + (listed + [Saved(ConfFor(zoneId, recordId))]);
          }
        }
      }
    }

    /** Lines 147-153 of `main`: with a zone, create the record when its id is unknown and
        save the new id on success; otherwise update it and clear the cache on failure. */
    method Publish(content: string, resp: Responses, zoneId: Option<string>, recordId: Option<string>)
      modifies this
      ensures var p := PublishStage(content, resp, zoneId, recordId, old(cache));
        trace == old(trace) + p.events && cache == p.cache
    {
      if zoneId.Some? {
        if recordId.None? {
          var createdId := CreateRecord(zoneId.value, content, resp.created);
          if createdId.Some? {
            SaveConf(zoneId, createdId);
          }
        } else {
          var updated := UpdateRecord(zoneId.value, recordId.value, content, resp.updated);
          if updated.None? {
            ClearConf();
          }
        }
      }
    }

    /** `main`: one run, given the host's current address (`expected`), the address DNS
        publishes (`recorded`) and the provider's answers. */
    method Reconcile(expected: Option<string>, recorded: Option<string>, resp: Responses)
      modifies this
      ensures var o := Reconciliation(expected, recorded, resp, old(cache));
        trace == old(trace) + o.events && cache == o.cache
    {
      if expected.Some? {
        if recorded.None? || recorded != expected {
          var zoneId, recordId := LookUp(LoadConf(cache), resp);
          Publish(expected.value, resp, zoneId, recordId);
        }
      }
    }
  }
}
