/** The local cache of provider identifiers (ddns-cloudflare.py:109-132).
    The JSON file is modelled as the value it holds; path construction and
    (de)serialisation are not part of this model. */
module Cache {

  import opened Wrappers
  import opened Config

  /** The JSON object `{domain, zone_id, record_id}`; a key that is missing or `null`
      reads as `None`. */
  datatype CacheRecord = CacheRecord(domain: Option<string>, zoneId: Option<string>, recordId: Option<string>)

  /** What `load_conf` finds on disk: no file, a file it cannot read or parse (the
      exception branch), or a stored object. */
  datatype CacheFile = Absent | Unreadable | Stored(conf: CacheRecord)

  /** The pair `(zone_id, record_id)` returned by `load_conf`. */
  datatype Ids = Ids(zoneId: Option<string>, recordId: Option<string>)

  /** True when the file holds an object written for the configured domain. */
  predicate ForThisDomain(f: CacheFile)
  {
    f.Stored? && f.conf.domain == Some(DOMAIN)
  }

  /** `load_conf`: the stored ids when the stored domain is the configured one,
      and `(None, None)` for a missing file, an unreadable file or a foreign domain. */
  function LoadConf(f: CacheFile): (ids: Ids)
    ensures ForThisDomain(f) ==> ids == Ids(f.conf.zoneId, f.conf.recordId)
    ensures !ForThisDomain(f) ==> ids == Ids(None, None)
    ensures ids.zoneId.Some? || ids.recordId.Some? ==> f.Stored? && f.conf.domain == Some(DOMAIN)
  {
    match f
    case Stored(conf) =>
      if conf.domain.Some? && conf.domain == Some(DOMAIN) then Ids(conf.zoneId, conf.recordId)
      else Ids(None, None)
    case _ => Ids(None, None)
  }

  /** The object `save_conf(zone_id, record_id)` writes: always tagged with the configured domain. */
  function ConfFor(zoneId: Option<string>, recordId: Option<string>): CacheRecord
  {
    CacheRecord(Some(DOMAIN), zoneId, recordId)
  }

  /** The file as `save_conf(zone_id, record_id)` leaves it. */
  function SavedFile(zoneId: Option<string>, recordId: Option<string>): CacheFile
  {
    Stored(ConfFor(zoneId, recordId))
  }

  /** The file as `clear_conf` leaves it: `save_conf` with both ids left at `None`. */
  function ClearedFile(): CacheFile
  {
    SavedFile(None, None)
  }

  /** Round trip: what `save_conf` wrote is exactly what `load_conf` returns. */
  lemma SaveThenLoad(zoneId: Option<string>, recordId: Option<string>)
    ensures ForThisDomain(SavedFile(zoneId, recordId))
    ensures LoadConf(SavedFile(zoneId, recordId)) == Ids(zoneId, recordId)
  {
  }

  /** After `clear_conf`, `load_conf` returns `(None, None)`, although the file still names the domain. */
  lemma ClearThenLoad()
    ensures ClearedFile().Stored? && ClearedFile().conf.domain == Some(DOMAIN)
    ensures LoadConf(ClearedFile()) == Ids(None, None)
  {
  }

  /** The stale-configuration guard: whatever ids a file holds, a domain other than the
      configured one, or no domain at all, makes `load_conf` return `(None, None)`. */
  lemma ForeignDomainIgnored(domain: Option<string>, zoneId: Option<string>, recordId: Option<string>)
    requires domain != Some(DOMAIN)
    ensures LoadConf(Stored(CacheRecord(domain, zoneId, recordId))) == Ids(None, None)
  {
  }
}
