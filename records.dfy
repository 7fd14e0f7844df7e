/** The two decisions the updater takes over provider listings: which zone to use
    (`list_zones`, ddns-cloudflare.py:43-52) and which DNS records to delete and which to
    keep (`list_records`, ddns-cloudflare.py:55-68). The listing loop itself, with its
    delete calls, is `Host.Host.ListRecords`; this module states the rule it follows. */
module Records {

  import opened Wrappers

  const CNAME: string := "CNAME"
  const AAAA: string := "AAAA"

  /** One element of the zone listing; only its id is consulted. */
  datatype Zone = Zone(id: string)

  /** One element of the DNS record listing. */
  datatype Record = Record(id: string, rtype: string, name: string, content: string)

  /** `list_zones`: a zone id only when the listing holds exactly one zone, and then that
      zone's id; a failed call, no zone or several zones give `None`. */
  function SelectZone(zones: Option<seq<Zone>>): (zoneId: Option<string>)
    ensures zoneId.Some? <==> zones.Some? && |zones.value| == 1
    ensures zoneId.Some? ==> zoneId.value == zones.value[0].id
  {
    var number := if zones.Some? then |zones.value| else 0;
    if number == 1 then Some(zones.value[0].id) else None
  }

  /** The records of a listing; a failed call lists nothing. */
  function Entries(listing: Option<seq<Record>>): seq<Record>
  {
    if listing.Some? then listing.value else []
  }

  /** Some record before position `i` is an AAAA record. */
  ghost predicate AaaaBefore(rs: seq<Record>, i: nat)
    requires i <= |rs|
  {
    exists j :: 0 <= j < i && rs[j].rtype == AAAA
  }

  /** The reconciliation rule: the record at position `i` is to be deleted when it is a
      CNAME, or when it is an AAAA record and an earlier AAAA record exists. */
  ghost predicate Doomed(rs: seq<Record>, i: nat)
    requires i < |rs|
  {
    rs[i].rtype == CNAME || (rs[i].rtype == AAAA && AaaaBefore(rs, i))
  }

  /** The position of the first AAAA record among the first `n` records, if any. */
  function FirstAaaaBelow(rs: seq<Record>, n: nat): (first: Option<nat>)
    requires n <= |rs|
    ensures first.Some? ==> first.value < n && rs[first.value].rtype == AAAA && !AaaaBefore(rs, first.value)
    ensures first.None? ==> !AaaaBefore(rs, n)
  {
    if n == 0 then None
    else
      match FirstAaaaBelow(rs, n - 1)
      case Some(f) => Some(f)
      case None => if rs[n - 1].rtype == AAAA then Some(n - 1) else None
  }

  /** The id held in `record_id` after the first `n` records have been scanned. */
  function KeptBelow(rs: seq<Record>, n: nat): Option<string>
    requires n <= |rs|
  {
    match FirstAaaaBelow(rs, n)
    case None => None
    case Some(f) => Some(rs[f].id)
  }

  /** One step of the scan: whether record `i` is deleted and what `record_id` becomes
      depend only on its type and on whether an AAAA record was already kept. */
  lemma ScanStep(rs: seq<Record>, i: nat)
    requires i < |rs|
    ensures Doomed(rs, i) <==> rs[i].rtype == CNAME || (rs[i].rtype == AAAA && KeptBelow(rs, i).Some?)
    ensures KeptBelow(rs, i + 1) == if KeptBelow(rs, i).None? && rs[i].rtype == AAAA then Some(rs[i].id) else KeptBelow(rs, i)
  {
    if FirstAaaaBelow(rs, i).Some? {
      assert AaaaBefore(rs, i);
    }
  }

  /** What `list_records` returns. */
  function KeptId(listing: Option<seq<Record>>): Option<string>
  {
    var rs := Entries(listing);
    KeptBelow(rs, |rs|)
  }

  /** `list_records` returns the id of the first AAAA record in listing order, and `None`
      when the listing failed or holds no AAAA record. */
  lemma KeptIdIsFirstAaaa(listing: Option<seq<Record>>)
    ensures var rs, kept := Entries(listing), KeptId(listing);
      && (kept.Some? <==> exists i :: 0 <= i < |rs| && rs[i].rtype == AAAA)
      && (kept.Some? ==> exists i :: 0 <= i < |rs| && rs[i].rtype == AAAA && !AaaaBefore(rs, i) && rs[i].id == kept.value)
  {
    var rs := Entries(listing);
    if FirstAaaaBelow(rs, |rs|).None? {
      assert !AaaaBefore(rs, |rs|);
    }
  }

  /** The positions, in listing order, of the records among the first `n` that the rule deletes. */
  ghost function DeletedBelow(rs: seq<Record>, n: nat): (ix: seq<nat>)
    requires n <= |rs|
    ensures forall k :: 0 <= k < |ix| ==> ix[k] < n
    ensures forall k, l :: 0 <= k < l < |ix| ==> ix[k] < ix[l]
    ensures forall i :: 0 <= i < n ==> (i in ix <==> Doomed(rs, i))
  {
    if n == 0 then []
    else DeletedBelow(rs, n - 1) + (if Doomed(rs, n - 1) then [n - 1] else [])
  }

  /** The positions of all records of the listing that `list_records` deletes. */
  ghost function Deleted(rs: seq<Record>): seq<nat>
  {
    DeletedBelow(rs, |rs|)
  }

  /** The rule per record: a CNAME is deleted; an AAAA record is deleted exactly when it is
      not the first AAAA record, which is the one whose id is returned; a record of any other
      type is neither deleted nor returned. */
  lemma DeletionRule(rs: seq<Record>, i: nat)
    requires i < |rs|
    ensures rs[i].rtype == CNAME ==> i in Deleted(rs)
    ensures rs[i].rtype == AAAA ==> FirstAaaaBelow(rs, |rs|).Some?
    ensures rs[i].rtype == AAAA ==> (i in Deleted(rs) <==> FirstAaaaBelow(rs, |rs|) != Some(i))
    ensures rs[i].rtype != CNAME && rs[i].rtype != AAAA ==> i !in Deleted(rs) && FirstAaaaBelow(rs, |rs|) != Some(i)
  {
    if rs[i].rtype == AAAA {
      assert AaaaBefore(rs, i + 1);
      var f := FirstAaaaBelow(rs, |rs|).value;
      if f < i {
        assert AaaaBefore(rs, i);
      }
    }
  }

  /** Every record is deleted at most once: a position occurs once among the deleted
      positions of the first `n` records when the rule dooms it, and not at all otherwise. */
  lemma DeletedOnce(rs: seq<Record>, n: nat, i: nat)
    requires i < n <= |rs|
    ensures multiset(DeletedBelow(rs, n))[i] == if Doomed(rs, i) then 1 else 0
  {
    IncreasingCountsOnce(DeletedBelow(rs, n), i);
  }

  /** In a strictly increasing sequence every value occurs at most once. */
  lemma {:induction false} IncreasingCountsOnce(ix: seq<nat>, i: nat)
    requires forall k, l :: 0 <= k < l < |ix| ==> ix[k] < ix[l]
    ensures multiset(ix)[i] == if i in ix then 1 else 0
  {
    if ix != [] {
      var init, last := ix[..|ix| - 1], ix[|ix| - 1];
      assert ix == init + [last];
      IncreasingCountsOnce(init, i);
      if i == last {
        assert i !in init;
      }
    }
  }

  /** A listing that failed or came back empty leads to no deletion and no kept id. */
  lemma NothingListed(listing: Option<seq<Record>>)
    requires listing.None? || listing.value == []
    ensures Deleted(Entries(listing)) == [] && KeptId(listing) == None
  {
  }
}
