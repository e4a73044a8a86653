/**
 The scan's loop over one segment's zones, sorted by place then zone, against the list it is specified by.
 */
module DeviceScan {
  import opened Basics
  import opened DeviceModel
  import opened DeviceRecovery

  /** A zone's claim as the scan collects it: place, then zone. */
  datatype Part = Part(ord: nat, zone: nat)

  predicate Before(a: Part, b: Part) {
    a.ord < b.ord || (a.ord == b.ord && a.zone < b.zone)
  }

  /** Every zone whose header names segment `k`, in sorted order. */
  ghost predicate PartsOf(disk: seq<Zone>, k: Key, parts: seq<Part>) {
    && (forall i, j :: 0 <= i < j < |parts| ==> Before(parts[i], parts[j]))
    && (forall i :: 0 <= i < |parts| ==> parts[i].zone < |disk| && Owns(disk[parts[i].zone], k, parts[i].ord))
    && (forall z: nat, ord: nat {:trigger Owns(disk[z], k, ord)} :: z < |disk| && Owns(disk[z], k, ord) ==>
       Part(ord, z) in parts)
  }

  ghost predicate Sorted(parts: seq<Part>) {
    && (forall i, j :: 0 <= i < j < |parts| ==> Before(parts[i], parts[j]))
    && (forall i, j :: 0 <= i < j < |parts| ==> parts[i].zone != parts[j].zone)
  }

  predicate Listed(list: seq<nat>, p: Part) {
    p.ord < |list| && list[p.ord] == p.zone
  }

  ghost predicate Seen(parts: seq<Part>, n: nat, p: Part) {
    n <= |parts| && exists i :: 0 <= i < n && parts[i] == p
  }

  /** After `n` parts: each place listed has the lowest zone that claims it, and no part claims the next place. */
  ghost predicate ListDone(parts: seq<Part>, n: nat, list: seq<nat>) {
    && n <= |parts|
    && (forall i :: 0 <= i < n ==> parts[i].ord != |list|)
    && (forall ord :: 0 <= ord < |list| ==> Seen(parts, n, Part(ord, list[ord])))
    && (forall i :: 0 <= i < n && parts[i].ord < |list| ==> list[parts[i].ord] <= parts[i].zone)
  }

  ghost predicate OrphansDone(parts: seq<Part>, n: nat, list: seq<nat>, orphans: seq<nat>) {
    && n <= |parts|
    && (forall i :: 0 <= i < n ==> (parts[i].zone in orphans <==> !Listed(list, parts[i])))
    && (forall z :: z in orphans ==> exists i :: 0 <= i < n && parts[i].zone == z)
  }

  /** A segment's zones are those up to the first gap, the lowest zone for each place; the rest are orphans. */
  method ListZones(disk: seq<Zone>, k: Key, parts: seq<Part>) returns (list: seq<nat>, orphans: seq<nat>)
    requires PartsOf(disk, k, parts)
    ensures list == ZonesOf(disk, k)
    ensures forall z :: z in orphans <==> 0 <= z < |disk| && FoundRole(disk, z).Doomed? && FoundRole(disk, z).key == k
  {
    list, orphans := [], [];
    DistinctZones(disk, k, parts);
    for n := 0 to |parts|
      invariant ListDone(parts, n, list) && OrphansDone(parts, n, list, orphans)
    {
      hide ListDone, OrphansDone, PartsOf, Sorted;
      ghost var was, left := list, orphans;
      if parts[n].ord == |list| {
        list := list + [parts[n].zone];
      } else {
        orphans := orphans + [parts[n].zone];
      }
      OnePart(parts, n, was, left);
    }
    hide ListDone, OrphansDone, PartsOf, Sorted, ZonesOf, FoundRole;
    Complete(disk, k, parts, list);
    Orphans(disk, k, parts, list, orphans);
  }

  lemma DistinctZones(disk: seq<Zone>, k: Key, parts: seq<Part>)
    requires PartsOf(disk, k, parts)
    ensures Sorted(parts)
  {
    assert forall i :: 0 <= i < |parts| ==> Owns(disk[parts[i].zone], k, parts[i].ord);
  }

  lemma OnePart(parts: seq<Part>, n: nat, list: seq<nat>, orphans: seq<nat>)
    requires n < |parts| && Sorted(parts) && ListDone(parts, n, list) && OrphansDone(parts, n, list, orphans)
    ensures if parts[n].ord == |list| then
              ListDone(parts, n + 1, list + [parts[n].zone])
                       && OrphansDone(parts, n + 1, list + [parts[n].zone], orphans)
            else
              ListDone(parts, n + 1, list) && OrphansDone(parts, n + 1, list, orphans + [parts[n].zone])
  {
    hide ListDone, OrphansDone, Sorted;
    if parts[n].ord == |list| {
      ListGrows(parts, n, list);
      OrphansStay(parts, n, list, orphans);
    } else {
      ListStays(parts, n, list);
      OrphansGrow(parts, n, list, orphans);
    }
  }

  lemma SeenLater(parts: seq<Part>, n: nat, p: Part)
    requires n < |parts|
    ensures Seen(parts, n, p) ==> Seen(parts, n + 1, p)
    ensures Seen(parts, n + 1, parts[n])
  {
  }

  lemma ListGrows(parts: seq<Part>, n: nat, list: seq<nat>)
    requires n < |parts| && Sorted(parts) && ListDone(parts, n, list) && parts[n].ord == |list|
    ensures ListDone(parts, n + 1, list + [parts[n].zone])
  {
    var next := list + [parts[n].zone];
    assert forall i :: 0 <= i < n ==> Before(parts[i], parts[n]);
    forall ord | 0 <= ord < |next|
      ensures Seen(parts, n + 1, Part(ord, next[ord]))
    {
      SeenLater(parts, n, Part(ord, next[ord]));
    }
  }

  lemma ListStays(parts: seq<Part>, n: nat, list: seq<nat>)
    requires n < |parts| && Sorted(parts) && ListDone(parts, n, list) && parts[n].ord != |list|
    ensures ListDone(parts, n + 1, list)
  {
    forall ord | 0 <= ord < |list|
      ensures Seen(parts, n + 1, Part(ord, list[ord]))
    {
      SeenLater(parts, n, Part(ord, list[ord]));
    }
    if parts[n].ord < |list| {
      NotListed(parts, n, list);
    }
  }

  lemma NotListed(parts: seq<Part>, n: nat, list: seq<nat>)
    requires n < |parts| && Sorted(parts) && ListDone(parts, n, list) && parts[n].ord < |list|
    ensures list[parts[n].ord] < parts[n].zone
  {
    assert Seen(parts, n, Part(parts[n].ord, list[parts[n].ord]));
    var i :| 0 <= i < n && parts[i] == Part(parts[n].ord, list[parts[n].ord]);
    assert Before(parts[i], parts[n]);
  }

  lemma OrphansStay(parts: seq<Part>, n: nat, list: seq<nat>, orphans: seq<nat>)
    requires n < |parts| && Sorted(parts) && ListDone(parts, n, list) && OrphansDone(parts, n, list, orphans)
             && parts[n].ord == |list|
    ensures OrphansDone(parts, n + 1, list + [parts[n].zone], orphans)
  {
    assert forall i :: 0 <= i < n ==> Listed(list + [parts[n].zone], parts[i]) == Listed(list, parts[i]);
    assert parts[n].zone !in orphans;
  }

  lemma OrphansGrow(parts: seq<Part>, n: nat, list: seq<nat>, orphans: seq<nat>)
    requires n < |parts| && Sorted(parts) && ListDone(parts, n, list) && OrphansDone(parts, n, list, orphans)
             && parts[n].ord != |list|
    ensures OrphansDone(parts, n + 1, list, orphans + [parts[n].zone])
  {
    if parts[n].ord < |list| {
      NotListed(parts, n, list);
    }
    hide ListDone;
    assert forall i :: 0 <= i < n ==> parts[i].zone != parts[n].zone;
  }

  /** Nothing below the zone found claims the place. */
  lemma {:induction false} LowestIs(disk: seq<Zone>, k: Key, ord: nat, from: nat, z: nat)
    requires from <= z < |disk| && Owns(disk[z], k, ord)
    ensures ZoneFor(disk, k, ord, from).Some? && ZoneFor(disk, k, ord, from).value <= z
    decreases z - from
  {
    if !Owns(disk[from], k, ord) {
      LowestIs(disk, k, ord, from + 1, z);
    }
  }

  lemma PlaceIs(disk: seq<Zone>, k: Key, parts: seq<Part>, list: seq<nat>, ord: nat)
    requires PartsOf(disk, k, parts) && ListDone(parts, |parts|, list) && ord < |list|
    ensures list[ord] < |disk| && Owns(disk[list[ord]], k, ord) && ZoneFor(disk, k, ord) == Some(list[ord])
  {
    assert Seen(parts, |parts|, Part(ord, list[ord]));
    LowestIs(disk, k, ord, 0, list[ord]);
    var y := ZoneFor(disk, k, ord).value;
    assert Part(ord, y) in parts;
    var j :| 0 <= j < |parts| && parts[j] == Part(ord, y);
    assert list[parts[j].ord] <= parts[j].zone;
  }

  lemma Complete(disk: seq<Zone>, k: Key, parts: seq<Part>, list: seq<nat>)
    requires PartsOf(disk, k, parts) && ListDone(parts, |parts|, list)
    ensures list == ZonesOf(disk, k)
  {
    forall ord | 0 <= ord < |list|
      ensures list[ord] < |disk| && Owns(disk[list[ord]], k, ord) && ZoneFor(disk, k, ord) == Some(list[ord])
    {
      PlaceIs(disk, k, parts, list, ord);
    }
    forall z | 0 <= z < |disk|
      ensures !Owns(disk[z], k, |list|)
    {
      assert Part(|list|, z) !in parts;
    }
    hide PartsOf, ListDone;
    Pigeonhole(list, |disk|);
    ZonesOfIs(disk, k, list);
  }

  lemma Orphans(disk: seq<Zone>, k: Key, parts: seq<Part>, list: seq<nat>, orphans: seq<nat>)
    requires PartsOf(disk, k, parts) && OrphansDone(parts, |parts|, list, orphans) && list == ZonesOf(disk, k)
    ensures forall z :: z in orphans <==> 0 <= z < |disk| && FoundRole(disk, z).Doomed? && FoundRole(disk, z).key == k
  {
    forall i | 0 <= i < |parts|
      ensures parts[i].zone < |disk|
      ensures FoundRole(disk, parts[i].zone) == if Listed(list, parts[i]) then Held(k, parts[i].ord)
              else Doomed(k, parts[i].ord)
    {
      assert Owns(disk[parts[i].zone], k, parts[i].ord);
    }
    forall z | 0 <= z < |disk| && FoundRole(disk, z).Doomed? && FoundRole(disk, z).key == k
      ensures z in orphans
    {
      var ord := disk[z].head.durable.value.ord;
      assert Owns(disk[z], k, ord);
      var i :| 0 <= i < |parts| && parts[i] == Part(ord, z);
    }
  }
}
