/**
 Truncating a shard's delta log through a watermark: what it deletes, and what a replay then returns, for any
 damage to any copy and for a removal that fails part-way.
 */
module DeltaTruncation {
  import opened DeltaLog

  function Without(d: Device, gone: set<nat>): Device {
    map id | id in d && id !in gone :: d[id]
  }

  /** Segment `id` gone from the first `n` devices. */
  function Removed(devs: seq<Device>, id: nat, n: nat): seq<Device>
    requires n <= |devs|
  {
    seq(|devs|, d requires 0 <= d < |devs| => if d < n then Without(devs[d], {id}) else devs[d])
  }

  /** `truncate_through` on the segments below `current`, in order; a removal may fail on a device. */
  method Truncate(devs: seq<Device>, ids: seq<nat>, current: nat, watermark: nat, fails: set<(nat, nat)>)
    returns (left: seq<Device>, deleted: seq<nat>, ok: bool)
    requires Ascending(ids)
    ensures |left| == |devs|
    ensures forall id :: id in deleted ==> id in ids && id < current && Dead(Copies(devs, id), {}, {}, watermark)
    ensures Ascending(deleted)
    ensures ok ==> Truncated(devs, left, deleted)
    ensures ok ==> forall id :: id in ids && id < current && Dead(Copies(devs, id), {}, {}, watermark) ==> id in deleted
    ensures !ok ==> exists id, n :: n < |devs| && (n, id) in fails && id in ids && id < current && id !in deleted
                      && Dead(Copies(devs, id), {}, {}, watermark) && PartTruncated(devs, left, deleted, id, n)
  {
    hide Dead, Copies, Ascending, Removed;
    left, deleted := devs, [];
    NoneDeleted();
    for i := 0 to |ids|
      invariant |left| == |devs| && Truncated(devs, left, deleted)
      invariant forall id :: id in deleted ==>
                  id in ids[..i] && id < current && Dead(Copies(devs, id), {}, {}, watermark)
      invariant forall id :: id in ids[..i] && id < current && Dead(Copies(devs, id), {}, {}, watermark) ==>
                  id in deleted
      invariant Ascending(deleted)
    {
      var id := ids[i];
      assert ids[..i + 1] == ids[..i] + [id];
      DeletedBelow(ids, i, deleted);
      if id < current {
        SameCopies(devs, left, deleted, id);
        var dead := SegmentIsDead(left, id, watermark);
        if dead {
          ghost var was := left;
          NotRemoved(was, id);
          for n := 0 to |devs|
            invariant left == Removed(was, id, n)
          {
            RemovedNext(was, id, n);
            if (n, id) in fails && id in left[n] {
              PartlyGone(devs, was, left, deleted, id, n);
              return left, deleted, false;
            }
            left := left[n := Without(left[n], {id})];
          }
          OneMoreGone(devs, was, left, deleted, id);
          deleted := deleted + [id];
        }
      }
    }
    ok := true;
    assert ids[..|ids|] == ids;
  }

  lemma NoneDeleted()
    ensures Ascending([])
  {
  }

  /** The next segment is above all deleted so far. */
  lemma DeletedBelow(ids: seq<nat>, i: nat, deleted: seq<nat>)
    requires Ascending(ids) && i < |ids| && Ascending(deleted) && forall id :: id in deleted ==> id in ids[..i]
    ensures ids[i] !in deleted && Ascending(deleted + [ids[i]])
  {
    assert forall n :: 0 <= n < |deleted| ==> deleted[n] in deleted;
  }

  lemma NotRemoved(devs: seq<Device>, id: nat)
    ensures Removed(devs, id, 0) == devs
  {
  }

  lemma RemovedNext(devs: seq<Device>, id: nat, n: nat)
    requires n < |devs|
    ensures var left := Removed(devs, id, n);
            |left| == |devs| && left[n := Without(left[n], {id})] == Removed(devs, id, n + 1)
  {
  }

  /** Exactly the deleted segments are gone, from every device. */
  ghost predicate Truncated(devs: seq<Device>, left: seq<Device>, deleted: seq<nat>) {
    |left| == |devs| && forall d :: 0 <= d < |devs| ==> left[d] == Without(devs[d], set id | id in deleted)
  }

  /** And segment `id` from the first `n` devices besides. */
  ghost predicate PartTruncated(devs: seq<Device>, left: seq<Device>, deleted: seq<nat>, id: nat, n: nat) {
    && |left| == |devs| && n <= |devs|
    && forall d :: 0 <= d < |devs| ==> left[d] == Without(devs[d], (set i | i in deleted) + if d < n then {id} else {})
  }

  lemma SameCopies(devs: seq<Device>, left: seq<Device>, deleted: seq<nat>, id: nat)
    requires Truncated(devs, left, deleted) && id !in deleted
    ensures Copies(left, id) == Copies(devs, id)
  {
    CopiesSame(devs, left, id);
  }

  lemma {:induction false} CopiesSame(devs: seq<Device>, left: seq<Device>, id: nat)
    requires |left| == |devs|
    requires forall d :: 0 <= d < |devs| ==>
               (id in left[d] <==> id in devs[d]) && (id in devs[d] ==> left[d][id] == devs[d][id])
    ensures Copies(left, id) == Copies(devs, id)
    decreases |devs|
  {
    if devs != [] {
      CopiesSame(devs[1..], left[1..], id);
    }
  }

  lemma OneMoreGone(devs: seq<Device>, was: seq<Device>, left: seq<Device>, deleted: seq<nat>, id: nat)
    requires Truncated(devs, was, deleted) && left == Removed(was, id, |was|)
    ensures Truncated(devs, left, deleted + [id])
  {
    forall d | 0 <= d < |devs|
      ensures left[d] == Without(devs[d], set i | i in deleted + [id])
    {
      assert left[d] == Without(Without(devs[d], set i | i in deleted), {id});
    }
  }

  lemma PartlyGone(devs: seq<Device>, was: seq<Device>, left: seq<Device>, deleted: seq<nat>, id: nat, n: nat)
    requires Truncated(devs, was, deleted) && n <= |was| && left == Removed(was, id, n)
    ensures PartTruncated(devs, left, deleted, id, n)
  {
    forall d | 0 <= d < |devs|
      ensures left[d] == Without(devs[d], (set i | i in deleted) + if d < n then {id} else {})
    {
      assert d < n ==> left[d] == Without(Without(devs[d], set i | i in deleted), {id});
    }
  }

  /** The segments left are those that were there and not deleted. */
  ghost predicate LeftOf(ids: seq<nat>, left: seq<nat>, deleted: seq<nat>) {
    Ascending(ids) && Ascending(left) && forall id :: id in left <==> id in ids && id !in deleted
  }

  /**
   After a truncation through `watermark` that met no error, whatever damage any device has, a replay since
   that watermark or any later one returns the same entries in the same order.
   */
  lemma TruncationIsUnseen(devs: seq<Device>, now: seq<Device>, ids: seq<nat>, left: seq<nat>, deleted: seq<nat>,
                           watermark: nat, since: nat)
    requires Truncated(devs, now, deleted) && LeftOf(ids, left, deleted) && watermark <= since
    requires forall id :: id in deleted ==> id in ids && Dead(Copies(devs, id), {}, {}, watermark)
    ensures Replay(now, left, since) == Replay(devs, ids, since)
  {
    forall id | id in ids
      ensures id !in left ==> Above(Collect(Copies(devs, id), {}), since) == []
      ensures Alike(devs, now, id, since)
    {
      hide Collect, Copies, Above, Dead;
      if id in deleted {
        DeadIsBelow(Copies(devs, id), {}, {}, watermark);
        AboveNone(Collect(Copies(devs, id), {}), since);
        NoCopies(devs, now, deleted, id);
        NothingAbove(since);
      } else {
        SameCopies(devs, now, deleted, id);
      }
    }
    hide Collect, Copies, Above, Dead;
    SameAbove(devs, now, ids, left, since);
  }

  lemma NothingAbove(since: nat)
    ensures Above(Collect([], {}), since) == []
  {
  }

  lemma NoCopies(devs: seq<Device>, now: seq<Device>, deleted: seq<nat>, id: nat)
    requires Truncated(devs, now, deleted) && id in deleted
    ensures Copies(now, id) == []
  {
    CopiesNone(now, id);
  }

  lemma {:induction false} CopiesNone(devs: seq<Device>, id: nat)
    requires forall d :: 0 <= d < |devs| ==> id !in devs[d]
    ensures Copies(devs, id) == []
  {
    if devs != [] {
      CopiesNone(devs[1..], id);
    }
  }

  // ---------------------------------------------------------------------------------------------
  // A truncation that fails half-way through a segment.
  // ---------------------------------------------------------------------------------------------

  /** Copies of one record that read at all read the same. */
  ghost predicate Agree(copies: seq<Scanned>) {
    forall c, d :: c in copies && d in copies && c.offset == d.offset && Reads(c.content) && Reads(d.content) ==>
      c.content == d.content
  }

  /** In a dead segment every copy that reads is, or agrees with, one at or below the watermark. */
  lemma {:induction false} DeadCopies(copies: seq<Scanned>, resolved: set<nat>, unresolved: set<nat>, watermark: nat,
                                      done: seq<Scanned>)
    requires Dead(copies, resolved, unresolved, watermark) && Agree(done + copies)
    requires forall o :: o in resolved ==>
               exists c :: c in done && c.offset == o && Reads(c.content) && Low(c, watermark)
    ensures forall c :: c in copies ==> Low(c, watermark)
    decreases |copies|
  {
    if copies != [] {
      var c, rest := copies[0], copies[1..];
      assert done + copies == (done + [c]) + rest;
      if c.offset in resolved {
        var d :| d in done && d.offset == c.offset && Reads(d.content) && Low(d, watermark);
        assert d in done + copies && c in done + copies;
        DeadCopies(rest, resolved, unresolved, watermark, done + [c]);
      } else if Reads(c.content) {
        assert c in done + [c];
        DeadCopies(rest, resolved + {c.offset}, unresolved - {c.offset}, watermark, done + [c]);
      } else {
        DeadCopies(rest, resolved, unresolved + {c.offset}, watermark, done + [c]);
      }
    }
  }

  predicate Low(c: Scanned, watermark: nat) {
    c.content.Logged? ==> c.content.entry.epoch <= watermark
  }

  lemma {:induction false} LowCollects(copies: seq<Scanned>, seen: set<nat>, watermark: nat)
    requires forall c :: c in copies ==> Low(c, watermark)
    ensures forall e :: e in Collect(copies, seen) ==> e.epoch <= watermark
    decreases |copies|
  {
    if copies != [] {
      assert copies[0] in copies;
      LowCollects(copies[1..], seen, watermark);
      LowCollects(copies[1..], seen + {copies[0].offset}, watermark);
    }
  }

  /** What a segment gone from the first `n` devices still has. */
  lemma {:induction false} CopiesBehind(devs: seq<Device>, now: seq<Device>, id: nat, n: nat)
    requires |now| == |devs| && n <= |devs|
    requires forall d :: 0 <= d < n ==> id !in now[d]
    requires forall d :: n <= d < |devs| ==>
               (id in now[d] <==> id in devs[d]) && (id in devs[d] ==> now[d][id] == devs[d][id])
    ensures Copies(now, id) == Copies(devs[n..], id)
    decreases n
  {
    if n == 0 {
      CopiesSame(devs, now, id);
      assert devs[0..] == devs;
    } else {
      CopiesBehind(devs[1..], now[1..], id, n - 1);
      assert devs[1..][n - 1..] == devs[n..];
    }
  }

  lemma {:induction false} CopiesFewer(devs: seq<Device>, n: nat, id: nat)
    requires n <= |devs|
    ensures forall c :: c in Copies(devs[n..], id) ==> c in Copies(devs, id)
  {
    if n > 0 {
      CopiesFewer(devs[1..], n - 1, id);
      assert devs[1..][n - 1..] == devs[n..];
    } else {
      assert devs[0..] == devs;
    }
  }

  lemma {:induction false} AboveSome(a: seq<Entry>, watermark: nat)
    requires Above(a, watermark) == []
    ensures forall e :: e in a ==> e.epoch <= watermark
  {
    if a != [] {
      AboveSome(a[1..], watermark);
    }
  }

  lemma {:induction false} ByEpochLength(entries: seq<Entry>)
    ensures |ByEpoch(entries)| == |entries|
    decreases |entries|
  {
    if entries != [] {
      ByEpochLength(entries[..|entries| - 1]);
      InsertLength(ByEpoch(entries[..|entries| - 1]), entries[|entries| - 1]);
    }
  }

  lemma {:induction false} InsertLength(entries: seq<Entry>, e: Entry)
    ensures |Insert(entries, e)| == |entries| + 1
    decreases |entries|
  {
    if entries != [] && entries[|entries| - 1].epoch > e.epoch {
      InsertLength(entries[..|entries| - 1], e);
    }
  }

  /** How many entries of a segment a replay returns. */
  function CountOf(devs: seq<Device>, id: nat, since: nat): nat {
    |Above(Collect(Copies(devs, id), {}), since)|
  }

  function Count(devs: seq<Device>, ids: seq<nat>, since: nat): nat {
    if ids == [] then 0 else CountOf(devs, ids[0], since) + Count(devs, ids[1..], since)
  }

  lemma {:induction false} CountIs(devs: seq<Device>, ids: seq<nat>, since: nat)
    ensures |Replay(devs, ids, since)| == Count(devs, ids, since)
  {
    ByEpochLength(Above(All(devs, ids), since));
    if ids != [] {
      hide Collect, Copies;
      CountIs(devs, ids[1..], since);
      ByEpochLength(Above(All(devs, ids[1..]), since));
      AboveApp(Collect(Copies(devs, ids[0]), {}), All(devs, ids[1..]), since);
    }
  }

  /** If one segment returns more than before, and every other as much, the whole returns more. */
  lemma {:induction false} CountMore(devs: seq<Device>, now: seq<Device>, ids: seq<nat>, left: seq<nat>, part: nat,
                                     since: nat)
    requires Ascending(ids) && Ascending(left) && (forall id :: id in left ==> id in ids)
    requires forall id :: id in ids && id in left && id != part ==> CountOf(devs, id, since) == CountOf(now, id, since)
    requires forall id :: id in ids && (id !in left || id == part) ==> CountOf(devs, id, since) == 0
    ensures Count(now, left, since) == Count(devs, ids, since) + if part in left then CountOf(now, part, since) else 0
    decreases |ids|
  {
    hide CountOf;
    if left != [] {
      assert left[0] in left;
    }
    if ids != [] {
      var first, rest := ids[0], ids[1..];
      assert first in ids && forall id :: id in rest ==> id in ids;
      if first in left {
        FirstInBoth(ids, left);
        assert left == [first] + left[1..];
        if first == part {
          assert part !in left[1..];
        }
        CountMore(devs, now, rest, left[1..], part, since);
      } else {
        assert forall id :: id in left ==> id in rest by {
          assert forall id :: id in left ==> id in ids && id != first;
          assert ids == [first] + rest;
        }
        CountMore(devs, now, rest, left, part, since);
      }
    }
  }

  /** Every entry a segment would replay is at or below the watermark. */
  ghost predicate NothingLeft(devs: seq<Device>, id: nat, since: nat) {
    forall e :: e in Collect(Copies(devs, id), {}) ==> e.epoch <= since
  }

  lemma NothingLeftIff(devs: seq<Device>, id: nat, since: nat)
    ensures NothingLeft(devs, id, since) <==> CountOf(devs, id, since) == 0
    ensures NothingLeft(devs, id, since) ==> Above(Collect(Copies(devs, id), {}), since) == []
  {
    hide Collect, Copies, Above;
    if NothingLeft(devs, id, since) {
      AboveNone(Collect(Copies(devs, id), {}), since);
    } else if CountOf(devs, id, since) == 0 {
      AboveSome(Collect(Copies(devs, id), {}), since);
    }
  }

  /** What a truncation failed part-way makes of each segment. */
  lemma PartSegment(devs: seq<Device>, now: seq<Device>, deleted: seq<nat>, part: nat, n: nat, id: nat,
                    watermark: nat, since: nat)
    requires PartTruncated(devs, now, deleted, part, n) && part !in deleted && watermark <= since
    requires id in deleted + [part] ==> Dead(Copies(devs, id), {}, {}, watermark)
    ensures id in deleted + [part] ==>
              CountOf(devs, id, since) == 0 && Above(Collect(Copies(devs, id), {}), since) == []
    ensures id in deleted ==> Copies(now, id) == []
    ensures id == part ==> Copies(now, id) == Copies(devs[n..], id)
    ensures id !in deleted + [part] ==> Copies(now, id) == Copies(devs, id)
  {
    hide Collect, Copies, Above, Dead;
    if id in deleted + [part] {
      DeadIsBelow(Copies(devs, id), {}, {}, watermark);
      NothingLeftIff(devs, id, since);
    }
    if id in deleted {
      CopiesNone(now, id);
    } else if id == part {
      CopiesBehind(devs, now, id, n);
    } else {
      CopiesSame(devs, now, id);
    }
  }

  /**
   A truncation that failed part-way through a segment, on the `n`-th device, is unseen if and only if what the
   devices not reached would replay of that segment is at or below the replay's watermark.
   */
  lemma PartTruncationIsUnseen(devs: seq<Device>, now: seq<Device>, ids: seq<nat>, left: seq<nat>, deleted: seq<nat>,
                               part: nat, n: nat, watermark: nat, since: nat)
    requires PartTruncated(devs, now, deleted, part, n) && part !in deleted && part in ids && watermark <= since
    requires LeftOf(ids, left, deleted) || LeftOf(ids, left, deleted + [part])
    requires part !in left ==> Copies(now, part) == []
    requires forall id :: id in deleted + [part] ==> id in ids && Dead(Copies(devs, id), {}, {}, watermark)
    ensures Replay(now, left, since) == Replay(devs, ids, since) <==>
            forall e :: e in Collect(Copies(devs[n..], part), {}) ==> e.epoch <= since
  {
    forall id | id in ids
      ensures id in deleted + [part] ==>
                CountOf(devs, id, since) == 0 && Above(Collect(Copies(devs, id), {}), since) == []
      ensures id in deleted ==> Copies(now, id) == []
      ensures id == part ==> Copies(now, id) == Copies(devs[n..], id)
      ensures id !in deleted + [part] ==> Copies(now, id) == Copies(devs, id)
    {
      hide Dead;
      PartSegment(devs, now, deleted, part, n, id, watermark, since);
    }
    NothingAbove(since);
    hide Collect, Copies, Above, Dead, PartTruncated, Replay;
    NothingLeftIff(devs[n..], part, since);
    if NothingLeft(devs[n..], part, since) {
      PartUnseen(devs, now, ids, left, deleted, part, since);
    } else {
      assert forall id :: id in ids && id in left && id != part ==> id !in deleted + [part];
      CountMore(devs, now, ids, left, part, since);
      CountIs(devs, ids, since);
      CountIs(now, left, since);
    }
  }

  lemma PartUnseen(devs: seq<Device>, now: seq<Device>, ids: seq<nat>, left: seq<nat>, deleted: seq<nat>, part: nat,
                   since: nat)
    requires LeftOf(ids, left, deleted) || LeftOf(ids, left, deleted + [part])
    requires forall id :: id in ids && id in deleted + [part] ==>
               Above(Collect(Copies(devs, id), {}), since) == [] && Above(Collect(Copies(now, id), {}), since) == []
    requires forall id :: id in ids && id !in deleted + [part] ==> Copies(now, id) == Copies(devs, id)
    ensures Replay(now, left, since) == Replay(devs, ids, since)
  {
    hide Collect, Copies, Above;
    assert forall id :: id in ids ==> Alike(devs, now, id, since);
    SameAbove(devs, now, ids, left, since);
  }

  /** Readable copies that agree are enough: then what is left of a dead segment is low everywhere. */
  lemma AgreeingCopiesAreUnseen(devs: seq<Device>, part: nat, n: nat, watermark: nat, since: nat)
    requires n <= |devs| && watermark <= since
    requires Dead(Copies(devs, part), {}, {}, watermark) && Agree(Copies(devs, part))
    ensures forall e :: e in Collect(Copies(devs[n..], part), {}) ==> e.epoch <= since
  {
    hide Collect, Copies, Dead;
    assert [] + Copies(devs, part) == Copies(devs, part);
    DeadCopies(Copies(devs, part), {}, {}, watermark, []);
    hide Agree;
    CopiesFewer(devs, n, part);
    LowCollects(Copies(devs[n..], part), {}, watermark);
  }

  /** Copies that disagree: losing the one that was judged brings back the other. */
  lemma DisagreeingCopyComesBack()
    ensures var low, high := Scanned(4096, 1, Logged(Entry(1, 1, 3))), Scanned(4096, 2, Logged(Entry(1, 2, 9)));
            var devs := [map[7 := [low]], map[7 := [high]]];
            var now := [map[], map[7 := [high]]];
            && Dead(Copies(devs, 7), {}, {}, 5) && PartTruncated(devs, now, [], 7, 1)
            && Replay(devs, [7], 5) == [] && Replay(now, [7], 5) == [Entry(1, 2, 9)]
  {
    var low, high := Scanned(4096, 1, Logged(Entry(1, 1, 3))), Scanned(4096, 2, Logged(Entry(1, 2, 9)));
    var devs: seq<Device> := [map[7 := [low]], map[7 := [high]]];
    var now: seq<Device> := [map[], map[7 := [high]]];
    TwoDevices(devs, 7);
    TwoDevices(now, 7);
    assert Copies(devs, 7) == [low, high] && Copies(now, 7) == [high];
    assert [low, high][1..] == [high];
    OneCopy(high, {4096});
    OneCopy(high, {});
    assert Collect([low, high], {}) == [low.content.entry];
    OneSegment(devs, 7);
    OneSegment(now, 7);
    assert All(devs, [7]) == [low.content.entry] && All(now, [7]) == [high.content.entry];
    OneAbove(low.content.entry, 5);
    OneAbove(high.content.entry, 5);
  }

  lemma OneCopy(c: Scanned, seen: set<nat>)
    requires c.content.Logged?
    ensures Collect([c], seen) == if c.offset in seen then [] else [c.content.entry]
    ensures c.offset in seen ==> forall watermark :: Dead([c], seen, {}, watermark)
  {
    assert [c][1..] == [];
  }

  lemma OneSegment(devs: seq<Device>, id: nat)
    ensures All(devs, [id]) == Collect(Copies(devs, id), {})
  {
    assert [id][1..] == [];
  }

  lemma TwoDevices(devs: seq<Device>, id: nat)
    requires |devs| == 2
    ensures Copies(devs, id) == (if id in devs[0] then devs[0][id] else [])
            + (if id in devs[1] then devs[1][id] else [])
  {
    assert devs[1..][1..] == [];
    assert Copies(devs[1..], id) == if id in devs[1] then devs[1][id] else [];
  }

  lemma OneAbove(e: Entry, watermark: nat)
    ensures Above([e], watermark) == (if e.epoch > watermark then [e] else []) && ByEpoch([e]) == [e]
            && ByEpoch([]) == []
  {
    assert [e][1..] == [] && [e][..0] == [];
  }
}
