/**
 Committing to a shard's delta log: an entry is put behind its objects in one segment, and that is how replay
 still finds it after any truncation.
 */
module DeltaCommit {
  import opened Basics
  import opened DeltaLog
  import opened DeltaTruncation

  // ---------------------------------------------------------------------------------------------
  // Committing.
  // ---------------------------------------------------------------------------------------------

  /** A record of a delta segment: an object, or an entry with the objects its inode needs. */
  datatype Rec = Obj(hash: nat) | Log(entry: Entry, needs: seq<nat>)

  /** Every entry's objects are in its own segment, ahead of it. */
  ghost predicate Together(seg: seq<Rec>) {
    forall i :: 0 <= i < |seg| && seg[i].Log? ==> forall h :: h in seg[i].needs ==> Obj(h) in seg[..i]
  }

  lemma TogetherObj(seg: seq<Rec>, h: nat)
    requires Together(seg)
    ensures Together(seg + [Obj(h)])
  {
    var t := seg + [Obj(h)];
    assert forall i :: 0 <= i < |seg| ==> t[..i] == seg[..i];
  }

  lemma TogetherLog(seg: seq<Rec>, e: Entry, needs: seq<nat>)
    requires Together(seg) && forall h :: h in needs ==> Obj(h) in seg
    ensures Together(seg + [Log(e, needs)])
  {
    var t := seg + [Log(e, needs)];
    assert forall i :: 0 <= i <= |seg| ==> t[..i] == seg[..i];
    assert seg[..|seg|] == seg;
  }

  ghost predicate Grew(a: map<nat, seq<Rec>>, b: map<nat, seq<Rec>>) {
    forall id :: id in a ==> id in b && a[id] <= b[id]
  }

  function Objects(hashes: seq<nat>): seq<Rec> {
    seq(|hashes|, i requires 0 <= i < |hashes| => Obj(hashes[i]))
  }

  lemma HasObjects(seg: seq<Rec>, hashes: seq<nat>)
    ensures forall h :: h in hashes ==> Obj(h) in seg + Objects(hashes)
  {
    forall h | h in hashes
      ensures Obj(h) in seg + Objects(hashes)
    {
      var i :| 0 <= i < |hashes| && hashes[i] == h;
      assert (seg + Objects(hashes))[|seg| + i] == Obj(h);
    }
  }

  lemma NoneGrew(a: map<nat, seq<Rec>>)
    ensures Grew(a, a)
  {
  }

  lemma OneGrew(a: map<nat, seq<Rec>>, b: map<nat, seq<Rec>>, id: nat)
    requires forall l :: l in a && l != id ==> l in b && b[l] == a[l]
    requires id in a ==> id in b && a[id] <= b[id]
    ensures Grew(a, b)
  {
  }

  lemma GrewTwice(a: map<nat, seq<Rec>>, b: map<nat, seq<Rec>>, c: map<nat, seq<Rec>>)
    requires Grew(a, b) && Grew(b, c)
    ensures Grew(a, c)
  {
  }

  /** One shard's log, as written. `superEpoch` is what its superblock on the device says. */
  class ShardDeltaLog {
    var segs: map<nat, seq<Rec>>
    var writer: Option<nat>
    var nextSegmentId: nat
    var localEpoch: nat
    var superEpoch: nat

    ghost predicate Valid()
      reads this
    {
      && (forall id :: id in segs ==> id < nextSegmentId && Together(segs[id]))
      && (writer.Some? ==> writer.value in segs) && superEpoch <= localEpoch
    }

    constructor (segs: map<nat, seq<Rec>>, next: nat, epoch: nat)
      requires forall id :: id in segs ==> id < next && Together(segs[id])
      ensures Valid() && this.segs == segs && writer.None? && localEpoch == epoch == superEpoch
    {
      this.segs, writer, nextSegmentId, localEpoch, superEpoch := segs, None, next, epoch, epoch;
    }

    method StartSegment(works: bool)
      requires Valid()
      modifies this
      ensures Valid() && localEpoch == old(localEpoch) && superEpoch == old(superEpoch)
      ensures if works then writer == Some(old(nextSegmentId)) && segs == old(segs)[old(nextSegmentId) := []]
              else writer == old(writer) && segs == old(segs)
      ensures Grew(old(segs), segs) && forall id :: id in old(segs) ==> segs[id] == old(segs)[id]
    {
      var id := nextSegmentId;
      nextSegmentId := nextSegmentId + 1;
      if works {
        segs, writer := segs[id := []], Some(id);
      }
    }

    /** The segment commits go to, or will once it is started. */
    ghost function Current(): nat
      reads this
    {
      if writer.Some? then writer.value else nextSegmentId
    }

    /** What it holds. */
    ghost function Held(): seq<Rec>
      reads this
    {
      if Current() in segs then segs[Current()] else []
    }

    /**
     `commit`: the objects, then the entry, to the current segment, started if there is none; flush;
     superblock; and only then, if the segment is full, a new one. `appends` is how many of the appends
     succeed; the rest says which later operations do.
     */
    method Commit(ino: nat, newObject: nat, hashes: seq<nat>, starts: bool, appends: nat, flushes: bool, claims: bool,
                  full: bool, rolls: bool)
      returns (ok: bool, id: nat)
      requires Valid()
      modifies this
      ensures Valid() && Grew(old(segs), segs)
      ensures ok <==> (old(writer).Some? || starts) && |hashes| < appends && flushes && claims && (full ==> rolls)
      ensures ok ==> localEpoch == superEpoch == old(localEpoch) + 1
      ensures ok ==> id == old(Current()) && id in segs
                     && segs[id] == old(Held()) + Objects(hashes) + [Log(Entry(ino, newObject, localEpoch), hashes)]
      ensures forall l :: l in old(segs) && l != old(Current()) ==> l in segs && segs[l] == old(segs)[l]
      ensures localEpoch == superEpoch || superEpoch == old(superEpoch)
      ensures old(localEpoch) <= localEpoch <= old(localEpoch) + 1
    {
      hide Together, Grew;
      ok, id := AppendAll(Entry(ino, newObject, localEpoch + 1), hashes, starts, appends);
      if !ok || !flushes {
        return false, id;
      }
      localEpoch := localEpoch + 1;
      if !claims {
        return false, id;
      }
      superEpoch := localEpoch;
      if full {
        ghost var d := segs;
        writer := None;
        StartSegment(rolls);
        GrewTwice(old(segs), d, segs);
        return rolls, id;
      }
      return true, id;
    }

    /** The current segment, started if there is none. */
    method Writer(starts: bool) returns (ok: bool)
      requires Valid()
      modifies this
      ensures Valid() && localEpoch == old(localEpoch) && superEpoch == old(superEpoch)
      ensures Grew(old(segs), segs) && (ok <==> old(writer).Some? || starts)
      ensures ok ==> writer == Some(old(Current())) && segs == old(segs)[old(Current()) := old(Held())]
      ensures !ok ==> segs == old(segs)
    {
      hide Together, Grew;
      NoneGrew(segs);
      ok := true;
      if writer.None? {
        StartSegment(starts);
        ok := starts;
      }
    }

    method AppendAll(entry: Entry, hashes: seq<nat>, starts: bool, appends: nat) returns (ok: bool, id: nat)
      requires Valid()
      modifies this
      ensures Valid() && localEpoch == old(localEpoch) && superEpoch == old(superEpoch)
      ensures Grew(old(segs), segs) && (ok <==> (old(writer).Some? || starts) && |hashes| < appends)
      ensures ok ==> id == old(Current()) && id in segs
                     && segs[id] == old(Held()) + Objects(hashes) + [Log(entry, hashes)]
      ensures forall l :: l in old(segs) && l != old(Current()) ==> l in segs && segs[l] == old(segs)[l]
    {
      hide Together, Grew;
      id := 0;
      ok := Writer(starts);
      if !ok {
        return;
      }
      id := writer.value;
      ghost var b := segs;
      ok := AppendObjects(id, hashes, appends);
      OneGrew(b, segs, id);
      GrewTwice(old(segs), b, segs);
      if !ok || |hashes| >= appends {
        return false, id;
      }
      HasObjects(b[id], hashes);
      TogetherLog(segs[id], entry, hashes);
      ghost var c := segs;
      segs := segs[id := segs[id] + [Log(entry, hashes)]];
      OneGrew(c, segs, id);
      GrewTwice(old(segs), c, segs);
    }

    method AppendObjects(id: nat, hashes: seq<nat>, appends: nat) returns (ok: bool)
      requires Valid() && writer == Some(id)
      modifies this`segs
      ensures Valid() && segs.Keys == old(segs).Keys && segs == old(segs)[id := segs[id]] && old(segs)[id] <= segs[id]
      ensures ok <==> |hashes| <= appends
      ensures ok ==> segs[id] == old(segs)[id] + Objects(hashes)
    {
      hide Together;
      for n := 0 to |hashes|
        invariant Valid() && segs.Keys == old(segs).Keys && segs == old(segs)[id := segs[id]] && n <= appends
        invariant segs[id] == old(segs)[id] + Objects(hashes[..n])
      {
        if n >= appends {
          return false;
        }
        assert Objects(hashes[..n + 1]) == Objects(hashes[..n]) + [Obj(hashes[n])];
        TogetherObj(segs[id], hashes[n]);
        segs := segs[id := segs[id] + [Obj(hashes[n])]];
      }
      assert hashes[..|hashes|] == hashes;
      return true;
    }
  }

  // ---------------------------------------------------------------------------------------------
  // Entries and their objects, across truncation and replay.
  // ---------------------------------------------------------------------------------------------

  /** A scanned record that reads is record `i` of the segment as written. */
  predicate FromRecord(seg: seq<Rec>, offsets: seq<nat>, c: Scanned, i: nat) {
    && i < |seg| && i < |offsets| && c.offset == offsets[i]
    && match seg[i]
       case Obj(h) => c.content.Object? && c.hash == h
       case Log(e, _) => c.content == Logged(e)
  }

  /** A scan of a device's copy of a segment: any of its records may be lost, torn or unreadable. */
  ghost predicate ScanOf(seg: seq<Rec>, offsets: seq<nat>, scan: seq<Scanned>) {
    forall c :: c in scan && Reads(c.content) ==> exists i: nat :: FromRecord(seg, offsets, c, i)
  }

  /** What the devices hold of the segments written, `offsets` saying where each record was put. */
  ghost predicate Holds(segs: map<nat, seq<Rec>>, offsets: map<nat, seq<nat>>, d: Device) {
    forall id :: id in d ==> id in segs && id in offsets && ScanOf(segs[id], offsets[id], d[id])
  }

  /** Whole segments were taken from a device, or none. */
  ghost predicate Fewer(was: Device, now: Device) {
    forall id :: id in now ==> id in was && now[id] == was[id]
  }

  lemma {:induction false} InsertMember(entries: seq<Entry>, e: Entry, x: Entry)
    requires x in Insert(entries, e)
    ensures x == e || x in entries
    decreases |entries|
  {
    if entries != [] && entries[|entries| - 1].epoch > e.epoch {
      if x != entries[|entries| - 1] {
        InsertMember(entries[..|entries| - 1], e, x);
      }
    }
  }

  lemma {:induction false} ByEpochMember(entries: seq<Entry>, x: Entry)
    requires x in ByEpoch(entries)
    ensures x in entries
    decreases |entries|
  {
    if entries != [] {
      InsertMember(ByEpoch(entries[..|entries| - 1]), entries[|entries| - 1], x);
      if x != entries[|entries| - 1] {
        ByEpochMember(entries[..|entries| - 1], x);
      }
    }
  }

  lemma {:induction false} AboveMember(entries: seq<Entry>, watermark: nat, x: Entry)
    requires x in Above(entries, watermark)
    ensures x in entries
  {
    if x != entries[0] {
      AboveMember(entries[1..], watermark, x);
    }
  }

  lemma {:induction false} AllMember(devs: seq<Device>, ids: seq<nat>, x: Entry) returns (id: nat)
    requires x in All(devs, ids)
    ensures id in ids && x in Collect(Copies(devs, id), {})
  {
    if x in Collect(Copies(devs, ids[0]), {}) {
      id := ids[0];
    } else {
      id := AllMember(devs, ids[1..], x);
    }
  }

  lemma {:induction false} CollectMember(copies: seq<Scanned>, seen: set<nat>, x: Entry) returns (c: Scanned)
    requires x in Collect(copies, seen)
    ensures c in copies && c.content == Logged(x)
    decreases |copies|
  {
    var first, rest := copies[0], copies[1..];
    if first.offset in seen || !Reads(first.content) {
      c := CollectMember(rest, seen, x);
    } else if first.content == Logged(x) {
      c := first;
    } else {
      c := CollectMember(rest, seen + {first.offset}, x);
    }
  }

  lemma {:induction false} CopiesMember(devs: seq<Device>, id: nat, c: Scanned) returns (d: nat)
    requires c in Copies(devs, id)
    ensures d < |devs| && id in devs[d] && c in devs[d][id]
  {
    if id in devs[0] && c in devs[0][id] {
      d := 0;
    } else {
      d := CopiesMember(devs[1..], id, c);
      d := d + 1;
    }
  }

  /** Where a replayed entry was read. */
  lemma ReplayMember(devs: seq<Device>, ids: seq<nat>, since: nat, e: Entry) returns (d: nat, id: nat, c: Scanned)
    requires e in Replay(devs, ids, since)
    ensures d < |devs| && id in ids && id in devs[d] && c in devs[d][id] && c.content == Logged(e)
  {
    hide Above, All, Collect, Copies;
    ByEpochMember(Above(All(devs, ids), since), e);
    AboveMember(All(devs, ids), since, e);
    id := AllMember(devs, ids, e);
    c := CollectMember(Copies(devs, id), {}, e);
    d := CopiesMember(devs, id, c);
  }

  /** An entry as committed, with every object it needs ahead of it in its segment. */
  ghost predicate Committed(segs: map<nat, seq<Rec>>, id: nat, e: Entry) {
    exists i, needs ::
      && id in segs && 0 <= i < |segs[id]| && segs[id][i] == Log(e, needs)
      && forall h :: h in needs ==> Obj(h) in segs[id][..i]
  }

  /**
   Whatever is damaged, and however far a truncation got, every entry a replay returns was committed to a segment
   behind all the objects it needs, and the device it was read from still has that segment whole.
   */
  lemma EntryKeepsObjects(segs: map<nat, seq<Rec>>, offsets: map<nat, seq<nat>>, devs: seq<Device>, now: seq<Device>,
                          left: seq<nat>, since: nat, e: Entry)
    requires forall id :: id in segs ==> Together(segs[id])
    requires |now| == |devs| && forall d :: 0 <= d < |devs| ==> Holds(segs, offsets, devs[d]) && Fewer(devs[d], now[d])
    requires e in Replay(now, left, since)
    ensures exists d, id :: 0 <= d < |now| && id in left && id in now[d] && id in devs[d] && now[d][id] == devs[d][id]
                            && Committed(segs, id, e)
  {
    hide Replay, Together;
    var d, id, c := ReplayMember(now, left, since, e);
    assert Holds(segs, offsets, devs[d]) && ScanOf(segs[id], offsets[id], devs[d][id]);
    var i: nat :| FromRecord(segs[id], offsets[id], c, i);
    assert segs[id][i] == Log(e, segs[id][i].needs);
    BehindObjects(segs, id, i, e);
  }

  lemma BehindObjects(segs: map<nat, seq<Rec>>, id: nat, i: nat, e: Entry)
    requires id in segs && Together(segs[id]) && i < |segs[id]| && segs[id][i].Log? && segs[id][i].entry == e
    ensures Committed(segs, id, e)
  {
    assert segs[id][i] == Log(e, segs[id][i].needs);
  }

  /** Both ends of a truncation, finished or failed part-way, only take whole segments. */
  lemma TruncationTakesWhole(devs: seq<Device>, left: seq<Device>, deleted: seq<nat>, part: nat, n: nat)
    requires Truncated(devs, left, deleted) || PartTruncated(devs, left, deleted, part, n)
    ensures |left| == |devs| && forall d :: 0 <= d < |devs| ==> Fewer(devs[d], left[d])
  {
  }
}
