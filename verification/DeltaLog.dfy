/**
 A shard's delta log on several devices: when a segment is dead, and what a replay since a watermark returns.

 A device is, for each segment it has, what a scan of its copy yields, record by record, and what reading
 each one gives there. Any device may have lost, torn or rotted any of it.
 */
module DeltaLog {
  datatype Entry = Entry(ino: nat, newObject: nat, epoch: nat)

  /** What reading a record gives: an object, an entry, an entry that does not decode, or an error. */
  datatype Content = Object | Logged(entry: Entry) | Garbled | Unreadable

  datatype Scanned = Scanned(offset: nat, hash: nat, content: Content)

  type Device = map<nat, seq<Scanned>>

  predicate Reads(c: Content) {
    c.Object? || c.Logged?
  }

  // ---------------------------------------------------------------------------------------------
  // One segment.
  // ---------------------------------------------------------------------------------------------

  /** Every copy of a segment's records, device after device. */
  function Copies(devs: seq<Device>, id: nat): seq<Scanned> {
    if devs == [] then [] else (if id in devs[0] then devs[0][id] else []) + Copies(devs[1..], id)
  }

  /** The entries of a segment: each offset counts once, from the first copy that reads. */
  function Collect(copies: seq<Scanned>, seen: set<nat>): seq<Entry> {
    if copies == [] then []
    else
      var c, rest := copies[0], copies[1..];
      if c.offset in seen || !Reads(c.content) then Collect(rest, seen)
      else (if c.content.Logged? then [c.content.entry] else []) + Collect(rest, seen + {c.offset})
  }

  /** The offsets that read somewhere. */
  function Seen(copies: seq<Scanned>, seen: set<nat>): set<nat> {
    if copies == [] then seen
    else Seen(copies[1..], if Reads(copies[0].content) then seen + {copies[0].offset} else seen)
  }

  lemma {:induction false} CollectApp(a: seq<Scanned>, b: seq<Scanned>, seen: set<nat>)
    ensures Collect(a + b, seen) == Collect(a, seen) + Collect(b, Seen(a, seen))
    ensures Seen(a + b, seen) == Seen(b, Seen(a, seen))
    decreases |a|
  {
    if a == [] {
      assert a + b == b;
    } else {
      assert (a + b)[1..] == a[1..] + b;
      var c := a[0];
      if Reads(c.content) {
        CollectApp(a[1..], b, seen + {c.offset});
        if c.offset in seen {
          assert seen + {c.offset} == seen;
        }
      } else {
        CollectApp(a[1..], b, seen);
      }
    }
  }

  /** The copy at `i` is the first of its offset that reads. */
  predicate FirstRead(copies: seq<Scanned>, i: nat) {
    && i < |copies| && (copies[i].content.Object? || copies[i].content.Logged?)
    && forall j :: 0 <= j < i && copies[j].offset == copies[i].offset ==>
         copies[j].content.Garbled? || copies[j].content.Unreadable?
  }

  /** `entries` are, in order, those at the indices `at`: the entries among the first copies that read, below `n`. */
  ghost predicate PicksSoFar(copies: seq<Scanned>, n: nat, entries: seq<Entry>, at: seq<nat>)
    requires n <= |copies|
  {
    && Ascending(at) && |at| == |entries|
    && (forall k :: 0 <= k < |at| ==> at[k] < n && copies[at[k]].content == Logged(entries[k]))
    && (forall i: nat :: i in at <==> i < n && FirstRead(copies, i) && copies[i].content.Logged?)
  }

  ghost predicate Picks(copies: seq<Scanned>, entries: seq<Entry>, at: seq<nat>) {
    PicksSoFar(copies, |copies|, entries, at)
  }

  /** And the offsets it has seen read. */
  ghost predicate SeenSoFar(copies: seq<Scanned>, n: nat, seen: set<nat>)
    requires n <= |copies|
  {
    forall o :: o in seen <==> exists j :: 0 <= j < n && copies[j].offset == o && Reads(copies[j].content)
  }

  lemma SeeNext(copies: seq<Scanned>, n: nat, seen: set<nat>)
    requires n < |copies| && SeenSoFar(copies, n, seen)
    ensures (copies[n].offset !in seen && Reads(copies[n].content)) <==> FirstRead(copies, n)
    ensures SeenSoFar(copies, n + 1, if Reads(copies[n].content) then seen + {copies[n].offset} else seen)
    ensures copies[n].offset in seen ==> seen + {copies[n].offset} == seen
  {
  }

  lemma {:induction false} CollectFrom(copies: seq<Scanned>, n: nat, seen: set<nat>, before: seq<Entry>, at: seq<nat>)
    returns (all: seq<nat>)
    requires n <= |copies| && PicksSoFar(copies, n, before, at) && SeenSoFar(copies, n, seen)
    ensures PicksSoFar(copies, |copies|, before + Collect(copies[n..], seen), all)
    decreases |copies| - n
  {
    hide PicksSoFar, SeenSoFar, FirstRead;
    if n == |copies| {
      assert before + Collect(copies[n..], seen) == before;
      return at;
    }
    var c := copies[n];
    assert copies[n..][1..] == copies[n + 1..];
    SeeNext(copies, n, seen);
    var more := if Reads(c.content) then seen + {c.offset} else seen;
    if FirstRead(copies, n) && c.content.Logged? {
      OnePick(copies, n, before, at);
      all := CollectFrom(copies, n + 1, more, before + [c.content.entry], at + [n]);
      assert before + [c.content.entry] + Collect(copies[n + 1..], more) == before + Collect(copies[n..], seen);
    } else {
      NoPick(copies, n, before, at);
      all := CollectFrom(copies, n + 1, more, before, at);
      assert Collect(copies[n..], seen) == Collect(copies[n + 1..], more);
    }
  }

  lemma NoPick(copies: seq<Scanned>, n: nat, before: seq<Entry>, at: seq<nat>)
    requires n < |copies| && PicksSoFar(copies, n, before, at) && !(FirstRead(copies, n) && copies[n].content.Logged?)
    ensures PicksSoFar(copies, n + 1, before, at)
  {
  }

  lemma OnePick(copies: seq<Scanned>, n: nat, before: seq<Entry>, at: seq<nat>)
    requires n < |copies| && PicksSoFar(copies, n, before, at) && FirstRead(copies, n) && copies[n].content.Logged?
    ensures PicksSoFar(copies, n + 1, before + [copies[n].content.entry], at + [n])
  {
    var now := at + [n];
    forall k | 0 <= k < |at|
      ensures at[k] < n
    {
    }
    assert forall i :: i in now <==> i in at || i == n;
  }

  /** Each offset counts once, from its first copy that reads, in the order of those copies. */
  lemma CollectIs(copies: seq<Scanned>)
    ensures exists at :: Picks(copies, Collect(copies, {}), at)
  {
    assert copies[..0] == [] && copies[0..] == copies;
    var at := CollectFrom(copies, 0, {}, [], []);
    assert [] + Collect(copies, {}) == Collect(copies, {});
    assert Picks(copies, Collect(copies, {}), at);
  }

  lemma {:induction false} CopiesApp(devs: seq<Device>, d: Device, id: nat)
    ensures Copies(devs + [d], id) == Copies(devs, id) + (if id in d then d[id] else [])
  {
    if devs == [] {
      assert devs + [d] == [d];
      assert [d][1..] == [];
    } else {
      assert (devs + [d])[1..] == devs[1..] + [d];
      CopiesApp(devs[1..], d, id);
    }
  }

  /** The judgement, copy after copy: offsets settled so far, and offsets seen and not settled yet. */
  predicate Dead(copies: seq<Scanned>, resolved: set<nat>, unresolved: set<nat>, watermark: nat) {
    if copies == [] then unresolved == {}
    else
      var c, rest := copies[0], copies[1..];
      if c.offset in resolved then Dead(rest, resolved, unresolved, watermark)
      else
        match c.content
        case Object => Dead(rest, resolved + {c.offset}, unresolved - {c.offset}, watermark)
        case Logged(e) => e.epoch <= watermark && Dead(rest, resolved + {c.offset}, unresolved - {c.offset}, watermark)
        case Garbled => false
        case Unreadable => Dead(rest, resolved, unresolved + {c.offset}, watermark)
  }

  /** What a dead segment would replay is below every watermark that matters. */
  lemma {:induction false} DeadIsBelow(copies: seq<Scanned>, seen: set<nat>, unresolved: set<nat>, watermark: nat)
    requires Dead(copies, seen, unresolved, watermark)
    ensures forall e :: e in Collect(copies, seen) ==> e.epoch <= watermark
    decreases |copies|
  {
    if copies != [] {
      var c, rest := copies[0], copies[1..];
      if c.offset in seen {
        DeadIsBelow(rest, seen, unresolved, watermark);
      } else if Reads(c.content) {
        DeadIsBelow(rest, seen + {c.offset}, unresolved - {c.offset}, watermark);
      } else {
        DeadIsBelow(rest, seen, unresolved + {c.offset}, watermark);
      }
    }
  }

  /** The copy at `i` is the first of offset `o` that is not unreadable. */
  predicate FirstSays(copies: seq<Scanned>, o: nat, i: nat) {
    && i < |copies| && copies[i].offset == o && !copies[i].content.Unreadable?
    && forall j :: 0 <= j < i && copies[j].offset == o ==> copies[j].content.Unreadable?
  }

  predicate Harmless(c: Content, watermark: nat) {
    c.Object? || (c.Logged? && c.entry.epoch <= watermark)
  }

  ghost predicate Settled(copies: seq<Scanned>, o: nat, watermark: nat) {
    exists i: nat :: FirstSays(copies, o, i) && Harmless(copies[i].content, watermark)
  }

  /** Every offset there is has a copy that can be read at all, and the first of those needs no replay. */
  ghost predicate AllSettled(copies: seq<Scanned>, watermark: nat) {
    forall k :: 0 <= k < |copies| ==> Settled(copies, copies[k].offset, watermark)
  }

  lemma FirstSaysOnce(copies: seq<Scanned>, o: nat, i: nat, j: nat)
    requires FirstSays(copies, o, i) && FirstSays(copies, o, j)
    ensures i == j
  {
  }

  lemma {:induction false} DeadFrom(copies: seq<Scanned>, n: nat, resolved: set<nat>, unresolved: set<nat>,
                                    watermark: nat)
    requires n <= |copies|
    requires forall o :: o in resolved <==> exists i: nat :: i < n && FirstSays(copies, o, i)
    requires forall o :: o in resolved ==> Settled(copies, o, watermark)
    requires forall o :: o in unresolved <==> o !in resolved && exists k :: 0 <= k < n && copies[k].offset == o
    ensures Dead(copies[n..], resolved, unresolved, watermark) <==> AllSettled(copies, watermark)
    decreases |copies| - n
  {
    if n == |copies| {
      NoneLeft(copies, resolved, unresolved, watermark);
      return;
    }
    var c := copies[n];
    assert copies[n..][1..] == copies[n + 1..];
    if c.offset in resolved {
      assert forall o :: !FirstSays(copies, o, n) by {
        var i: nat :| i < n && FirstSays(copies, c.offset, i);
      }
      DeadFrom(copies, n + 1, resolved, unresolved, watermark);
    } else if c.content.Unreadable? {
      DeadFrom(copies, n + 1, resolved, unresolved + {c.offset}, watermark);
    } else {
      assert FirstSays(copies, c.offset, n) by {
        NoneSaid(copies, n, c.offset);
      }
      if Harmless(c.content, watermark) {
        assert Settled(copies, c.offset, watermark);
        DeadFrom(copies, n + 1, resolved + {c.offset}, unresolved - {c.offset}, watermark);
      } else {
        assert !Settled(copies, c.offset, watermark) by {
          if i: nat :| FirstSays(copies, c.offset, i) && Harmless(copies[i].content, watermark) {
            FirstSaysOnce(copies, c.offset, i, n);
          }
        }
      }
    }
  }

  lemma {:induction false} NoneSaid(copies: seq<Scanned>, n: nat, o: nat)
    requires n <= |copies| && forall i: nat :: i < n ==> !FirstSays(copies, o, i)
    ensures forall j :: 0 <= j < n && copies[j].offset == o ==> copies[j].content.Unreadable?
  {
    if n > 0 {
      NoneSaid(copies, n - 1, o);
      assert !FirstSays(copies, o, n - 1);
    }
  }

  lemma NoneLeft(copies: seq<Scanned>, resolved: set<nat>, unresolved: set<nat>, watermark: nat)
    requires forall o :: o in resolved <==> exists i: nat :: i < |copies| && FirstSays(copies, o, i)
    requires forall o :: o in resolved ==> Settled(copies, o, watermark)
    requires forall o :: o in unresolved <==> o !in resolved && exists k :: 0 <= k < |copies| && copies[k].offset == o
    ensures unresolved == {} <==> AllSettled(copies, watermark)
  {
    if unresolved != {} {
      var o :| o in unresolved;
      assert !Settled(copies, o, watermark);
    }
  }

  /**
   A segment is judged dead exactly when the first copy of each record that reads at all is an object or a low entry.
   */
  lemma DeadIs(copies: seq<Scanned>, watermark: nat)
    ensures Dead(copies, {}, {}, watermark) <==> AllSettled(copies, watermark)
  {
    assert copies[0..] == copies;
    DeadFrom(copies, 0, {}, {}, watermark);
  }

  /** `segment_is_dead`. */
  method SegmentIsDead(devs: seq<Device>, id: nat, watermark: nat) returns (dead: bool)
    ensures dead == Dead(Copies(devs, id), {}, {}, watermark)
    ensures dead <==> AllSettled(Copies(devs, id), watermark)
  {
    DeadIs(Copies(devs, id), watermark);
    hide AllSettled;
    var resolved, unresolved: set<nat> := {}, {};
    for d := 0 to |devs|
      invariant Dead(Copies(devs, id), {}, {}, watermark) ==
                Dead(Copies(devs[d..], id), resolved, unresolved, watermark)
    {
      if id in devs[d] {
        var copy := devs[d][id];
        ghost var behind := Copies(devs[d + 1..], id);
        assert devs[d..][1..] == devs[d + 1..];
        assert copy[0..] == copy;
        for n := 0 to |copy|
          invariant Dead(Copies(devs, id), {}, {}, watermark) ==
                    Dead(copy[n..] + behind, resolved, unresolved, watermark)
        {
          var c := copy[n];
          assert (copy[n..] + behind)[0] == c && (copy[n..] + behind)[1..] == copy[n + 1..] + behind;
          if c.offset !in resolved {
            match c.content
            case Object =>
              resolved, unresolved := resolved + {c.offset}, unresolved - {c.offset};
            case Logged(e) =>
              if e.epoch > watermark {
                return false;
              }
              resolved, unresolved := resolved + {c.offset}, unresolved - {c.offset};
            case Garbled => return false;
            case Unreadable => unresolved := unresolved + {c.offset};
          }
        }
        assert copy[|copy|..] + behind == behind;
      } else {
        assert devs[d..][1..] == devs[d + 1..];
        assert Copies(devs[d..], id) == Copies(devs[d + 1..], id);
      }
    }
    return unresolved == {};
  }

  /** One segment of `replay_since`. */
  method ReplaySegment(devs: seq<Device>, id: nat) returns (entries: seq<Entry>)
    ensures entries == Collect(Copies(devs, id), {})
    ensures exists at :: Picks(Copies(devs, id), entries, at)
  {
    CollectIs(Copies(devs, id));
    hide Picks;
    entries := [];
    var seen: set<nat> := {};
    for d := 0 to |devs|
      invariant entries == Collect(Copies(devs[..d], id), {}) && seen == Seen(Copies(devs[..d], id), {})
    {
      assert devs[..d + 1] == devs[..d] + [devs[d]];
      CopiesApp(devs[..d], devs[d], id);
      if id in devs[d] {
        var copy := devs[d][id];
        ghost var front := Copies(devs[..d], id);
        assert front + copy[..0] == front;
        for n := 0 to |copy|
          invariant entries == Collect(front + copy[..n], {}) && seen == Seen(front + copy[..n], {})
        {
          var c := copy[n];
          assert front + copy[..n + 1] == (front + copy[..n]) + [c];
          CollectApp(front + copy[..n], [c], {});
          assert [c][1..] == [];
          if c.offset !in seen {
            match c.content
            case Object => seen := seen + {c.offset};
            case Logged(e) =>
              entries := entries + [e];
              seen := seen + {c.offset};
            case Garbled =>
            case Unreadable =>
          } else {
            assert seen + {c.offset} == seen;
          }
        }
        assert copy[..|copy|] == copy;
      } else {
        assert Copies(devs[..d], id) + [] == Copies(devs[..d], id);
      }
    }
    assert devs[..|devs|] == devs;
  }

  // ---------------------------------------------------------------------------------------------
  // The whole log.
  // ---------------------------------------------------------------------------------------------

  function IdsOn(devs: seq<Device>): set<nat> {
    if devs == [] then {} else devs[0].Keys + IdsOn(devs[1..])
  }

  predicate Ascending(ids: seq<nat>) {
    forall i, j :: 0 <= i < j < |ids| ==> ids[i] < ids[j]
  }

  function All(devs: seq<Device>, ids: seq<nat>): seq<Entry> {
    if ids == [] then [] else Collect(Copies(devs, ids[0]), {}) + All(devs, ids[1..])
  }

  function Above(entries: seq<Entry>, watermark: nat): seq<Entry> {
    if entries == [] then []
    else (if entries[0].epoch > watermark then [entries[0]] else []) + Above(entries[1..], watermark)
  }

  /** Into an epoch-ordered list, behind everything of its own epoch. */
  function Insert(entries: seq<Entry>, e: Entry): seq<Entry> {
    if entries == [] || entries[|entries| - 1].epoch <= e.epoch then entries + [e]
    else Insert(entries[..|entries| - 1], e) + [entries[|entries| - 1]]
  }

  /** By epoch, and within one epoch as they came. */
  function ByEpoch(entries: seq<Entry>): seq<Entry> {
    if entries == [] then [] else Insert(ByEpoch(entries[..|entries| - 1]), entries[|entries| - 1])
  }

  /** What `replay_since(watermark)` returns, the segments being `ids`. */
  function Replay(devs: seq<Device>, ids: seq<nat>, watermark: nat): seq<Entry> {
    ByEpoch(Above(All(devs, ids), watermark))
  }

  function OfEpoch(entries: seq<Entry>, epoch: nat): seq<Entry> {
    if entries == [] then []
    else OfEpoch(entries[..|entries| - 1], epoch) + if entries[|entries| - 1].epoch == epoch
      then [entries[|entries| - 1]] else []
  }

  predicate EpochOrdered(entries: seq<Entry>) {
    forall i, j :: 0 <= i < j < |entries| ==> entries[i].epoch <= entries[j].epoch
  }

  lemma {:induction false} InsertOrdered(entries: seq<Entry>, e: Entry)
    requires EpochOrdered(entries)
    ensures EpochOrdered(Insert(entries, e)) && forall x :: x in Insert(entries, e) ==> x == e || x in entries
    decreases |entries|
  {
    if entries != [] && entries[|entries| - 1].epoch > e.epoch {
      var front, last := entries[..|entries| - 1], entries[|entries| - 1];
      InsertOrdered(front, e);
      assert forall x :: x in front ==> x.epoch <= last.epoch;
      assert forall i :: 0 <= i < |Insert(front, e)| ==> Insert(front, e)[i] in Insert(front, e);
    }
  }

  lemma {:induction false} InsertStable(entries: seq<Entry>, e: Entry, epoch: nat)
    ensures OfEpoch(Insert(entries, e), epoch) == OfEpoch(entries, epoch) + if e.epoch == epoch then [e] else []
    decreases |entries|
  {
    if entries == [] || entries[|entries| - 1].epoch <= e.epoch {
      assert (entries + [e])[..|entries|] == entries;
    } else {
      var front, last := entries[..|entries| - 1], entries[|entries| - 1];
      InsertStable(front, e, epoch);
      var r := Insert(front, e);
      assert (r + [last])[..|r|] == r;
    }
  }

  /** The replay order: by epoch, and entries of one epoch, all of them, in the order they were found. */
  lemma {:induction false} ByEpochIs(entries: seq<Entry>, epoch: nat)
    ensures EpochOrdered(ByEpoch(entries)) && OfEpoch(ByEpoch(entries), epoch) == OfEpoch(entries, epoch)
    decreases |entries|
  {
    if entries != [] {
      ByEpochIs(entries[..|entries| - 1], epoch);
      InsertOrdered(ByEpoch(entries[..|entries| - 1]), entries[|entries| - 1]);
      InsertStable(ByEpoch(entries[..|entries| - 1]), entries[|entries| - 1], epoch);
    }
  }

  lemma {:induction false} AllApp(devs: seq<Device>, ids: seq<nat>, id: nat)
    ensures All(devs, ids + [id]) == All(devs, ids) + Collect(Copies(devs, id), {})
  {
    if ids == [] {
      assert ids + [id] == [id] && [id][1..] == [];
    } else {
      assert (ids + [id])[1..] == ids[1..] + [id];
      AllApp(devs, ids[1..], id);
    }
  }

  lemma AboveOne(entries: seq<Entry>, e: Entry, watermark: nat)
    ensures Above(entries + [e], watermark) == Above(entries, watermark) + if e.epoch > watermark then [e] else []
  {
    AboveApp(entries, [e], watermark);
    assert [e][1..] == [];
  }

  lemma {:induction false} OfEpochApp(a: seq<Entry>, b: seq<Entry>, epoch: nat)
    ensures OfEpoch(a + b, epoch) == OfEpoch(a, epoch) + OfEpoch(b, epoch)
    decreases |b|
  {
    if b == [] {
      assert a + b == a;
    } else {
      var front, last := b[..|b| - 1], b[|b| - 1];
      assert (a + b)[..|a + b| - 1] == a + front && (a + b)[|a + b| - 1] == last;
      OfEpochApp(a, front, epoch);
      var own := if last.epoch == epoch then [last] else [];
      assert OfEpoch(a, epoch) + OfEpoch(front, epoch) + own == OfEpoch(a, epoch) + (OfEpoch(front, epoch) + own);
    }
  }

  lemma {:induction false} AboveOfEpoch(entries: seq<Entry>, watermark: nat, epoch: nat)
    ensures OfEpoch(Above(entries, watermark), epoch) == if epoch > watermark then OfEpoch(entries, epoch) else []
  {
    if entries != [] {
      var first, rest := entries[0], entries[1..];
      assert entries == [first] + rest;
      AboveOfEpoch(rest, watermark, epoch);
      OfEpochApp([first], rest, epoch);
      OfEpochApp([first], Above(rest, watermark), epoch);
      assert [first][..0] == [] && [] + Above(rest, watermark) == Above(rest, watermark);
      assert OfEpoch([first], epoch) == if first.epoch == epoch then [first] else [];
    }
  }

  /** What is found of an epoch above the watermark is replayed, all of it and in the order found; nothing else is. */
  ghost predicate Replayed(found: seq<Entry>, watermark: nat, entries: seq<Entry>) {
    && EpochOrdered(entries)
    && forall epoch: nat :: OfEpoch(entries, epoch) == if epoch > watermark then OfEpoch(found, epoch) else []
  }

  lemma ReplayIs(devs: seq<Device>, ids: seq<nat>, watermark: nat)
    ensures Replayed(All(devs, ids), watermark, Replay(devs, ids, watermark))
  {
    hide All, Above;
    ByEpochIs(Above(All(devs, ids), watermark), 0);
    forall epoch: nat
      ensures OfEpoch(Replay(devs, ids, watermark), epoch) ==
              if epoch > watermark then OfEpoch(All(devs, ids), epoch) else []
    {
      ByEpochIs(Above(All(devs, ids), watermark), epoch);
      AboveOfEpoch(All(devs, ids), watermark, epoch);
    }
  }

  /** `replay_since`, the segment ids found on the devices being `ids`. */
  method ReplaySince(devs: seq<Device>, ids: seq<nat>, watermark: nat) returns (entries: seq<Entry>)
    ensures entries == Replay(devs, ids, watermark)
    ensures EpochOrdered(entries)
    ensures forall epoch: nat ::
              OfEpoch(entries, epoch) == if epoch > watermark then OfEpoch(All(devs, ids), epoch) else []
  {
    hide Collect, Copies, OfEpoch, EpochOrdered;
    var found := [];
    for i := 0 to |ids|
      invariant found == All(devs, ids[..i])
    {
      assert ids[..i + 1] == ids[..i] + [ids[i]];
      AllApp(devs, ids[..i], ids[i]);
      var more := ReplaySegment(devs, ids[i]);
      found := found + more;
    }
    assert ids[..|ids|] == ids;
    var kept := [];
    for i := 0 to |found|
      invariant kept == Above(found[..i], watermark)
    {
      assert found[..i + 1] == found[..i] + [found[i]];
      AboveOne(found[..i], found[i], watermark);
      if found[i].epoch > watermark {
        kept := kept + [found[i]];
      }
    }
    assert found[..|found|] == found;
    entries := [];
    for i := 0 to |kept|
      invariant entries == ByEpoch(kept[..i])
    {
      assert kept[..i + 1][..i] == kept[..i];
      entries := Insert(entries, kept[i]);
    }
    assert kept[..|kept|] == kept;
    hide All, Above, ByEpoch;
    ReplayIs(devs, ids, watermark);
  }

  lemma {:induction false} AboveApp(a: seq<Entry>, b: seq<Entry>, watermark: nat)
    ensures Above(a + b, watermark) == Above(a, watermark) + Above(b, watermark)
  {
    if a == [] {
      assert a + b == b;
    } else {
      assert (a + b)[1..] == a[1..] + b;
      AboveApp(a[1..], b, watermark);
    }
  }

  lemma {:induction false} AboveNone(a: seq<Entry>, watermark: nat)
    requires forall e :: e in a ==> e.epoch <= watermark
    ensures Above(a, watermark) == []
  {
    if a != [] {
      assert a[0] in a;
      AboveNone(a[1..], watermark);
    }
  }

  /** A segment whose entries above the watermark are the same, wherever they are read. */
  ghost predicate Alike(devs: seq<Device>, now: seq<Device>, id: nat, watermark: nat) {
    Above(Collect(Copies(devs, id), {}), watermark) == Above(Collect(Copies(now, id), {}), watermark)
  }

  /** Segments nothing above the watermark comes from, and that are gone, make no difference. */
  lemma {:induction false} SameAbove(devs: seq<Device>, now: seq<Device>, ids: seq<nat>, left: seq<nat>, watermark: nat)
    requires Ascending(ids) && Ascending(left) && (forall id :: id in left ==> id in ids)
    requires forall id :: id in ids ==> Alike(devs, now, id, watermark)
    requires forall id :: id in ids && id !in left ==> Above(Collect(Copies(devs, id), {}), watermark) == []
    ensures Above(All(devs, ids), watermark) == Above(All(now, left), watermark)
    decreases |ids|
  {
    hide Collect, Copies;
    if left != [] {
      assert left[0] in left;
    }
    if ids != [] {
      var first, rest := ids[0], ids[1..];
      assert first in ids;
      AboveApp(Collect(Copies(devs, first), {}), All(devs, rest), watermark);
      if first in left {
        FirstInBoth(ids, left);
        AboveApp(Collect(Copies(now, first), {}), All(now, left[1..]), watermark);
        SameAbove(devs, now, rest, left[1..], watermark);
      } else {
        assert forall id :: id in left ==> id in rest by {
          assert forall id :: id in left ==> id in ids && id != first;
          assert ids == [first] + rest;
        }
        SameAbove(devs, now, rest, left, watermark);
      }
    }
  }

  lemma FirstInBoth(ids: seq<nat>, left: seq<nat>)
    requires Ascending(ids) && Ascending(left) && (forall id :: id in left ==> id in ids) && ids != [] && ids[0] in left
    ensures left != [] && left[0] == ids[0]
    ensures forall id :: id in left[1..] ==> id in ids[1..]
    ensures forall id :: id in ids[1..] ==> (id in left <==> id in left[1..])
  {
    assert left[0] in left;
    assert left[0] in ids && ids[0] <= left[0];
    assert ids == [ids[0]] + ids[1..] && left == [left[0]] + left[1..];
    forall id | id in left[1..]
      ensures id in ids[1..]
    {
      var j :| 0 <= j < |left[1..]| && left[1..][j] == id;
      assert left[0] < left[j + 1] && left[j + 1] in left;
    }
  }
}
