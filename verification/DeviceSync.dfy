/**
 What a sync buys, over whole runs: the length a segment had when its sync began survives every later crash, and
 if nothing is written to it after that, so does every byte.
 */
module DeviceSync {
  import opened Basics
  import opened DeviceModel
  import opened DeviceInvariant
  import opened DeviceSafety

  // ---------------------------------------------------------------------------------------------
  // What lengths and bytes are, from the writes.
  // ---------------------------------------------------------------------------------------------

  /** A segment's length covers what it was mounted with and every write, and no more than the farthest of them. */
  lemma {:induction false} LenIsFarthest(baseLen: nat, log: seq<Wr>)
    ensures baseLen <= LenAfter(baseLen, log)
    ensures forall m :: 0 <= m < |log| ==> log[m].off + |log[m].data| <= LenAfter(baseLen, log)
    ensures LenAfter(baseLen, log) == baseLen
            || exists m :: 0 <= m < |log| && log[m].off + |log[m].data| == LenAfter(baseLen, log)
    decreases |log|
  {
    if log != [] {
      var front := log[..|log| - 1];
      LenIsFarthest(baseLen, front);
      assert forall m :: 0 <= m < |front| ==> front[m] == log[m];
    }
  }

  /** A byte is what the last write that covers it put there. */
  lemma {:induction false} AtIsLast(base: seq<seq<Byte>>, log: seq<Wr>, zoneLen: nat, k: nat, j: nat, m: nat)
    requires m < |log| && Covers(log[m], k * zoneLen + j)
    requires forall n :: m < n < |log| ==> !Covers(log[n], k * zoneLen + j)
    ensures At(base, log, zoneLen, k, j) == log[m].data[k * zoneLen + j - log[m].off]
    decreases |log|
  {
    if m < |log| - 1 {
      var front := log[..|log| - 1];
      assert forall n :: 0 <= n < |front| ==> front[n] == log[n];
      AtIsLast(base, front, zoneLen, k, j, m);
    }
  }

  // ---------------------------------------------------------------------------------------------
  // Steps that do not write, sync or remove the segment.
  // ---------------------------------------------------------------------------------------------

  /** A segment that may have been flushed and may have grown. */
  ghost predicate Grown(x: Seg, y: Seg) {
    && y == x.(flushed := y.flushed, zones := y.zones, growing := y.growing)
    && x.zones <= y.zones && (y.flushed == x.flushed || y.flushed == |x.log|)
  }

  predicate Syncs(a: Step, k: Key) {
    a == ByIo(SyncLoad(k)) || a == ByIo(SyncData(k)) || a == ByIo(SyncHead(k)) || a == ByIo(SyncEnd(k))
  }

  predicate Writes(a: Step, k: Key) {
    a.ByIo? && a.io.Write? && a.io.key == k
  }

  predicate Removes(a: Step, k: Key) {
    a.ByRemove? && a.remove.Remove? && a.remove.key == k
  }

  lemma OtherClaim(s: State, a: ClaimOp, k: Key)
    requires ClaimEnabled(s, a) && k in s.segs
    ensures k in ClaimApply(s, a).segs && Grown(s.segs[k], ClaimApply(s, a).segs[k])
  {
  }

  lemma OtherIo(s: State, a: IoOp, k: Key)
    requires IoEnabled(s, a) && k in s.segs && !Syncs(ByIo(a), k) && !Writes(ByIo(a), k)
    ensures k in IoApply(s, a).segs && Grown(s.segs[k], IoApply(s, a).segs[k])
  {
    hide WriteAll;
  }

  lemma OtherRemove(s: State, a: RemoveOp, k: Key)
    requires RemoveEnabled(s, a) && k in s.segs && !Removes(ByRemove(a), k)
    ensures k in RemoveApply(s, a).segs && Grown(s.segs[k], RemoveApply(s, a).segs[k])
  {
    hide Demote, MarkRest;
  }

  lemma OtherFree(s: State, a: FreeOp, k: Key)
    requires FreeEnabled(s, a) && k in s.segs
    ensures k in FreeApply(s, a).segs && Grown(s.segs[k], FreeApply(s, a).segs[k])
  {
  }

  lemma OtherStep(s: State, a: Step, k: Key)
    requires Enabled(s, a) && k in s.segs && !a.Crash? && !Syncs(a, k) && !Writes(a, k) && !Removes(a, k)
    ensures k in Apply(s, a).segs && Grown(s.segs[k], Apply(s, a).segs[k])
  {
    hide ClaimEnabled, IoEnabled, RemoveEnabled, FreeEnabled, ClaimApply, IoApply, RemoveApply, FreeApply, Grown;
    match a
    case ByClaim(b) => OtherClaim(s, b, k);
    case ByIo(b) => OtherIo(s, b, k);
    case ByRemove(b) => OtherRemove(s, b, k);
    case ByFree(b) => OtherFree(s, b, k);
  }

  lemma SameZoneLen(s: State, a: Step)
    requires Enabled(s, a)
    ensures Apply(s, a).zoneLen == s.zoneLen
  {
    hide ClaimEnabled, IoEnabled, RemoveEnabled, FreeEnabled, WriteAll, Demote, MarkRest, ZeroZone, PutHead, Claimed;
  }

  // ---------------------------------------------------------------------------------------------
  // From the start of a sync to its end.
  // ---------------------------------------------------------------------------------------------

  /** A sync of `k` is under way that found it `len` bytes long. */
  ghost predicate Syncing(s: State, k: Key, len: nat) {
    k in s.segs && !s.segs[k].sync.Unsynced? && s.segs[k].sync.len == len
  }

  /** No sync of `k` is under way. */
  ghost predicate NotSyncing(s: State, k: Key) {
    k in s.segs ==> s.segs[k].sync.Unsynced?
  }

  /** The segment's writes are those of `g`. */
  ghost predicate SameWrites(s: State, k: Key, g: Seg) {
    && k in s.segs && g.zones <= s.segs[k].zones
    && s.segs[k].base == g.base && s.segs[k].baseLen == g.baseLen && s.segs[k].log == g.log
  }

  lemma NotSyncingStep(s: State, a: Step, k: Key)
    requires Enabled(s, a) && NotSyncing(s, k) && a != ByIo(SyncLoad(k))
    ensures NotSyncing(Apply(s, a), k)
  {
    if a.Crash? {
    } else if k !in s.segs {
      AbsentStep(s, a, k);
    } else if Writes(a, k) {
      hide WriteAll;
    } else if !Removes(a, k) && !Syncs(a, k) {
      hide Enabled, Apply;
      OtherStep(s, a, k);
    }
  }

  lemma AbsentStep(s: State, a: Step, k: Key)
    requires Enabled(s, a) && k !in s.segs && !a.Crash?
    ensures NotSyncing(Apply(s, a), k)
  {
    hide WriteAll, Demote, MarkRest;
  }

  lemma SyncingStep(s: State, a: Step, k: Key, len: nat, g: Seg)
    requires Enabled(s, a) && Syncing(s, k, len) && a != ByIo(SyncLoad(k))
    ensures Syncing(Apply(s, a), k, len) || NotSyncing(Apply(s, a), k)
    ensures SameWrites(s, k, g) && !Writes(a, k) && Syncing(Apply(s, a), k, len) ==> SameWrites(Apply(s, a), k, g)
  {
    if a.Crash? {
    } else if Writes(a, k) {
      hide WriteAll;
    } else if Syncs(a, k) {
    } else {
      assert !Removes(a, k);
      hide Enabled, Apply;
      OtherStep(s, a, k);
    }
  }

  predicate NoLoad(run: seq<Step>, k: Key) {
    forall i :: 0 <= i < |run| ==> run[i] != ByIo(SyncLoad(k))
  }

  predicate NoWrite(run: seq<Step>, k: Key) {
    forall i :: 0 <= i < |run| ==> !Writes(run[i], k)
  }

  predicate NoRemove(run: seq<Step>, k: Key) {
    forall i :: 0 <= i < |run| ==> !Removes(run[i], k)
  }

  lemma {:induction false} NotSyncingRun(s: State, run: seq<Step>, k: Key)
    requires Runs(s, run) && NotSyncing(s, k) && NoLoad(run, k)
    ensures NotSyncing(Final(s, run), k)
    decreases |run|
  {
    hide NotSyncing, Enabled, Apply;
    if run != [] {
      NotSyncingStep(s, run[0], k);
      NotSyncingRun(Apply(s, run[0]), run[1..], k);
    }
  }

  lemma {:induction false} SyncingRun(s: State, run: seq<Step>, k: Key, len: nat, g: Seg)
    requires Runs(s, run) && Syncing(s, k, len) && NoLoad(run, k)
    ensures Syncing(Final(s, run), k, len) || NotSyncing(Final(s, run), k)
    ensures SameWrites(s, k, g) && NoWrite(run, k) && Syncing(Final(s, run), k, len) ==> SameWrites(Final(s, run), k, g)
    decreases |run|
  {
    hide Syncing, NotSyncing, SameWrites, Enabled, Apply;
    if run != [] {
      SyncingStep(s, run[0], k, len, g);
      var t := Apply(s, run[0]);
      if Syncing(t, k, len) {
        SyncingRun(t, run[1..], k, len, g);
      } else {
        NotSyncingRun(t, run[1..], k);
        NotBoth(Final(s, run), k, len);
      }
    }
  }

  lemma NotBoth(s: State, k: Key, len: nat)
    ensures !(Syncing(s, k, len) && NotSyncing(s, k))
  {
  }

  // ---------------------------------------------------------------------------------------------
  // After it.
  // ---------------------------------------------------------------------------------------------

  /** A length no crash takes back. */
  ghost predicate Kept(s: State, k: Key, len: nat) {
    k in s.segs && len <= s.segs[k].synced
  }

  /** All of `g`, no more and no less, durable. */
  ghost predicate Exact(s: State, k: Key, g: Seg) {
    && k in s.segs
    && var x := s.segs[k];
       && x.flushed == |x.log| && x.sync.Unsynced? && x.synced == Len(x) == Len(g) && g.zones <= x.zones
       && SameBytes(s.zoneLen, g, x)
  }

  ghost predicate SameBytes(zoneLen: nat, g: Seg, x: Seg) {
    forall i: nat, j: nat :: i < |g.zones| && j < zoneLen ==>
      At(x.base, x.log, zoneLen, i, j) == At(g.base, g.log, zoneLen, i, j)
  }

  lemma SyncEnds(s: State, k: Key, len: nat, g: Seg)
    requires Inv(s) && Enabled(s, ByIo(SyncEnd(k))) && Syncing(s, k, len)
    ensures Kept(Apply(s, ByIo(SyncEnd(k))), k, len)
    ensures SameWrites(s, k, g) && len == Len(g) ==> Exact(Apply(s, ByIo(SyncEnd(k))), k, g)
  {
    assert SegOk(s, k);
    FlushLen(s.zoneLen, s.segs[k]);
    hide ZonesOk, SegsOk, HoldersOk, DyingOk, ClaimsOk;
  }

  lemma CrashKeeps(s: State, k: Key, len: nat, left: seq<Zone>)
    requires Inv(s) && CrashOf(s.disk, left) && Kept(s, k, len)
    ensures Kept(Mount(s.zoneLen, left), k, len)
  {
    hide Inv, Mount, CrashOf;
    CrashRecovers(s, left);
  }

  lemma KeptStep(s: State, a: Step, k: Key, len: nat)
    requires Inv(s) && Enabled(s, a) && Kept(s, k, len) && !Removes(a, k)
    ensures Kept(Apply(s, a), k, len)
  {
    hide Inv;
    if a.Crash? {
      CrashKeeps(s, k, len, a.left);
    } else if Writes(a, k) {
      hide WriteAll;
    } else if Syncs(a, k) {
    } else {
      hide Enabled, Apply;
      OtherStep(s, a, k);
    }
  }

  lemma CrashExact(s: State, k: Key, g: Seg, left: seq<Zone>)
    requires Inv(s) && CrashOf(s.disk, left) && Exact(s, k, g)
    ensures Exact(Mount(s.zoneLen, left), k, g)
  {
    MountUnsynced(s.zoneLen, left, k);
    hide Inv, Mount, CrashOf;
    CrashRecovers(s, left);
    var x, r := s.segs[k], Mount(s.zoneLen, left).segs[k];
    SyncedIsExact(s.zoneLen, x, r);
    assert g.zones <= r.zones;
  }

  lemma MountUnsynced(zoneLen: nat, left: seq<Zone>, k: Key)
    ensures var t := Mount(zoneLen, left);
            t.zoneLen == zoneLen && (k in t.segs ==> t.segs[k].sync.Unsynced? && t.segs[k].flushed == 0)
  {
  }

  lemma ExactStep(s: State, a: Step, k: Key, g: Seg)
    requires Inv(s) && Enabled(s, a) && Exact(s, k, g) && !Removes(a, k) && !Writes(a, k)
    ensures Exact(Apply(s, a), k, g)
  {
    if a.Crash? {
      hide Inv;
      CrashExact(s, k, g, a.left);
    } else {
      assert !Syncs(a, k);
      SameZoneLen(s, a);
      hide Inv, Enabled, Apply;
      OtherStep(s, a, k);
    }
  }

  lemma {:induction false} KeptRun(s: State, run: seq<Step>, k: Key, len: nat, g: Seg)
    requires Inv(s) && Runs(s, run) && Kept(s, k, len) && NoRemove(run, k)
    ensures Kept(Final(s, run), k, len)
    ensures Exact(s, k, g) && NoWrite(run, k) ==> Exact(Final(s, run), k, g)
    decreases |run|
  {
    hide Inv, Kept, Exact, Enabled, Apply;
    if run != [] {
      StepInv(s, run[0]);
      KeptStep(s, run[0], k, len);
      if Exact(s, k, g) && NoWrite(run, k) {
        ExactStep(s, run[0], k, g);
      }
      KeptRun(Apply(s, run[0]), run[1..], k, len, g);
    }
  }

  // ---------------------------------------------------------------------------------------------
  // The whole run.
  // ---------------------------------------------------------------------------------------------

  lemma {:induction false} RunsApp(s: State, a: seq<Step>, b: seq<Step>)
    requires Runs(s, a + b)
    ensures Runs(s, a) && Runs(Final(s, a), b) && Final(s, a + b) == Final(Final(s, a), b)
    decreases |a|
  {
    hide Enabled, Apply;
    if a == [] {
      assert a + b == b;
    } else {
      assert (a + b)[0] == a[0] && (a + b)[1..] == a[1..] + b;
      RunsApp(Apply(s, a[0]), a[1..], b);
    }
  }

  lemma OneRun(s: State, a: Step)
    requires Runs(s, [a])
    ensures Enabled(s, a) && Final(s, [a]) == Apply(s, a)
  {
    assert [a][1..] == [];
  }

  lemma LoadStarts(s: State, k: Key)
    requires Enabled(s, ByIo(SyncLoad(k)))
    ensures var t := Apply(s, ByIo(SyncLoad(k)));
            k in s.segs && Syncing(t, k, Len(s.segs[k])) && SameWrites(t, k, s.segs[k])
  {
  }

  lemma EndNeedsSync(s: State, k: Key)
    requires Enabled(s, ByIo(SyncEnd(k)))
    ensures !NotSyncing(s, k)
  {
  }

  /** The run up to the end of the sync. */
  lemma ThroughSync(s: State, before: seq<Step>, during: seq<Step>, k: Key)
    requires Formatted(s) && NoLoad(during, k)
    requires Runs(s, before + [ByIo(SyncLoad(k))] + during + [ByIo(SyncEnd(k))])
    ensures Runs(s, before) && k in Final(s, before).segs
    ensures var g, t := Final(s, before).segs[k], Final(s, before + [ByIo(SyncLoad(k))] + during + [ByIo(SyncEnd(k))]);
            Inv(t) && Kept(t, k, Len(g)) && (NoWrite(during, k) ==> Exact(t, k, g)) && t.zoneLen == s.zoneLen
  {
    FormattedInv(s);
    var load, end := ByIo(SyncLoad(k)), ByIo(SyncEnd(k));
    RunInv(s, before + [load] + during + [end]);
    ZoneLenRun(s, before + [load] + during + [end]);
    hide Inv, Enabled, Apply, Formatted, Kept, Exact, Syncing, NotSyncing, SameWrites;
    RunsApp(s, before + [load] + during, [end]);
    RunsApp(s, before + [load], during);
    RunsApp(s, before, [load]);
    var a := Final(s, before);
    OneRun(a, load);
    LoadStarts(a, k);
    var b := Final(s, before + [load]);
    var g := a.segs[k];
    SyncingRun(b, during, k, Len(g), g);
    var c := Final(s, before + [load] + during);
    RunInv(s, before + [load] + during);
    OneRun(c, end);
    EndNeedsSync(c, k);
    SyncEnds(c, k, Len(g), g);
  }

  lemma {:induction false} ZoneLenRun(s: State, run: seq<Step>)
    requires Runs(s, run)
    ensures Final(s, run).zoneLen == s.zoneLen
    decreases |run|
  {
    if run != [] {
      SameZoneLen(s, run[0]);
      hide Enabled, Apply;
      ZoneLenRun(Apply(s, run[0]), run[1..]);
    }
  }

  /**
   In every run with a sync of segment `k` in it, from the step that reads its length to the one that ends it, as
   long as the segment is not removed after that, and whatever else happens, crashes included: after any crash the
   segment comes back at least as long as it was when the sync began; and if nothing was written to it since then,
   it comes back exactly as it was then, in length and in every byte.
   */
  lemma SyncSurvives(s: State, before: seq<Step>, during: seq<Step>, after: seq<Step>, k: Key, left: seq<Zone>)
    requires Formatted(s) && NoLoad(during, k) && NoRemove(after, k)
    requires Runs(s, before + [ByIo(SyncLoad(k))] + during + [ByIo(SyncEnd(k))] + after)
    requires CrashOf(Final(s, before + [ByIo(SyncLoad(k))] + during + [ByIo(SyncEnd(k))] + after).disk, left)
    ensures Runs(s, before) && k in Final(s, before).segs && k in Mount(s.zoneLen, left).segs
    ensures var g, r := Final(s, before).segs[k], Mount(s.zoneLen, left).segs[k];
            && Len(g) <= Len(r)
            && (NoWrite(during + after, k) ==>
                  && Len(r) == Len(g)
                  && forall i: nat, j: nat :: i < |g.zones| && j < s.zoneLen ==>
                       At(r.base, r.log, s.zoneLen, i, j) == At(g.base, g.log, s.zoneLen, i, j))
  {
    var synced := before + [ByIo(SyncLoad(k))] + during + [ByIo(SyncEnd(k))];
    RunsApp(s, synced, after);
    ThroughSync(s, before, during, k);
    var g, t, u := Final(s, before).segs[k], Final(s, synced), Final(s, synced + after);
    ZoneLenRun(t, after);
    assert NoWrite(during + after, k) ==> NoWrite(during, k) && NoWrite(after, k) by {
      NoWriteApp(during, after, k);
    }
    hide Inv, Formatted, Runs, CrashOf, Mount, NoWrite, NoLoad, NoRemove;
    KeptRun(t, after, k, Len(g), g);
    FinalInv(t, after);
    CrashKeeps(u, k, Len(g), left);
    LenOfMount(u, left, k);
    if NoWrite(during + after, k) {
      CrashExact(u, k, g, left);
    }
  }

  lemma FinalInv(s: State, run: seq<Step>)
    requires Inv(s) && Runs(s, run)
    ensures Inv(Final(s, run))
  {
    hide Inv, Runs, Final;
    RunInv(s, run);
  }

  lemma LenOfMount(s: State, left: seq<Zone>, k: Key)
    requires Inv(s) && CrashOf(s.disk, left) && k in s.segs
    ensures k in Mount(s.zoneLen, left).segs
    ensures var r := Mount(s.zoneLen, left).segs[k]; Len(r) == r.synced
  {
    hide Inv, CrashOf, Mount;
    CrashRecovers(s, left);
  }

  lemma NoWriteApp(a: seq<Step>, b: seq<Step>, k: Key)
    ensures NoWrite(a + b, k) ==> NoWrite(a, k) && NoWrite(b, k)
  {
    assert forall i :: 0 <= i < |a| ==> (a + b)[i] == a[i];
    assert forall i :: 0 <= i < |b| ==> (a + b)[|a| + i] == b[i];
  }

  // ---------------------------------------------------------------------------------------------
  // A flush alone: what a sync does when the length has not changed.
  // ---------------------------------------------------------------------------------------------

  /** Every byte of `g` is durable. */
  ghost predicate Flushed(s: State, k: Key, g: Seg) {
    && k in s.segs && s.segs[k].flushed == |s.segs[k].log| && g.zones <= s.segs[k].zones
    && SameBytes(s.zoneLen, g, s.segs[k])
  }

  lemma FlushStarts(s: State, k: Key)
    requires k in s.segs
    ensures Flushed(Apply(s, ByIo(FlushAll)), k, s.segs[k])
  {
  }

  lemma CrashFlushed(s: State, k: Key, g: Seg, left: seq<Zone>)
    requires Inv(s) && CrashOf(s.disk, left) && Flushed(s, k, g)
    ensures Flushed(Mount(s.zoneLen, left), k, g)
  {
    MountUnsynced(s.zoneLen, left, k);
    hide Inv, Mount, CrashOf;
    CrashRecovers(s, left);
    var x, r := s.segs[k], Mount(s.zoneLen, left).segs[k];
    assert Restored(s.zoneLen, x, r) && g.zones <= r.zones;
    forall i: nat, j: nat | i < |g.zones| && j < s.zoneLen
      ensures At(r.base, r.log, s.zoneLen, i, j) == At(g.base, g.log, s.zoneLen, i, j)
    {
      assert !Touched(s.zoneLen, x, i, j);
    }
  }

  lemma FlushedStep(s: State, a: Step, k: Key, g: Seg)
    requires Inv(s) && Enabled(s, a) && Flushed(s, k, g) && !Removes(a, k) && !Writes(a, k)
    ensures Flushed(Apply(s, a), k, g)
  {
    hide Inv;
    if a.Crash? {
      CrashFlushed(s, k, g, a.left);
    } else if !Syncs(a, k) {
      SameZoneLen(s, a);
      hide Enabled, Apply;
      OtherStep(s, a, k);
    }
  }

  lemma {:induction false} FlushedRun(s: State, run: seq<Step>, k: Key, g: Seg)
    requires Inv(s) && Runs(s, run) && Flushed(s, k, g) && NoRemove(run, k) && NoWrite(run, k)
    ensures Flushed(Final(s, run), k, g)
    decreases |run|
  {
    hide Inv, Flushed, Enabled, Apply;
    if run != [] {
      StepInv(s, run[0]);
      FlushedStep(s, run[0], k, g);
      FlushedRun(Apply(s, run[0]), run[1..], k, g);
    }
  }

  /**
   In every run with a flush in it, whatever else happens after, as long as segment `k` is neither written nor removed:
   after any crash every byte of its zones is as it was at the flush.
   */
  lemma FlushSurvives(s: State, before: seq<Step>, after: seq<Step>, k: Key, left: seq<Zone>)
    requires Formatted(s) && NoWrite(after, k) && NoRemove(after, k)
    requires Runs(s, before + [ByIo(FlushAll)] + after)
    requires CrashOf(Final(s, before + [ByIo(FlushAll)] + after).disk, left)
    ensures Runs(s, before)
    ensures k in Final(s, before).segs ==>
              && k in Mount(s.zoneLen, left).segs
              && var g, r := Final(s, before).segs[k], Mount(s.zoneLen, left).segs[k];
                 && g.zones <= r.zones
                 && forall i: nat, j: nat :: i < |g.zones| && j < s.zoneLen ==>
                      At(r.base, r.log, s.zoneLen, i, j) == At(g.base, g.log, s.zoneLen, i, j)
  {
    var flush := ByIo(FlushAll);
    FormattedInv(s);
    hide Inv, Formatted, CrashOf, Mount, Enabled, Apply, NoWrite, NoRemove;
    RunsApp(s, before + [flush], after);
    RunsApp(s, before, [flush]);
    var a := Final(s, before);
    OneRun(a, flush);
    if k in a.segs {
      FlushStarts(a, k);
      FinalInv(s, before + [flush]);
      var b := Final(s, before + [flush]);
      ZoneLenRun(s, before + [flush] + after);
      FlushedRun(b, after, k, a.segs[k]);
      FinalInv(b, after);
      CrashFlushed(Final(b, after), k, a.segs[k], left);
      MountUnsynced(s.zoneLen, left, k);
    }
  }
}
