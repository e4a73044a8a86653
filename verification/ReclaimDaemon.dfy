/**
 Steps of the coalescing daemon keep the invariant: a pass marks, repacks one segment at a time, and
 deletes it only when nothing referenced is left without a copy elsewhere.
 */
module ReclaimDaemon {
  import opened ReclaimModel
  import opened ReclaimInvariant
  import opened ReclaimEnvironment
  import opened ReclaimCheckpoint

  /** Daemon steps touch neither writes, pins, roots, generations, checkpoint nor scanner. */
  ghost predicate DaemonFrame(s: State, t: State) {
    t == s.(segs := t.segs, nextSeg := t.nextSeg, cache := t.cache, gens := t.gens, stamps := t.stamps, co := t.co)
  }

  lemma FrameRest(s: State, t: State)
    requires DaemonFrame(s, t) && PinsOk(s) && CheckpointOk(s)
    ensures PinsOk(t) && CheckpointOk(t)
  {
  }

  lemma FrameScan(s: State, t: State)
    requires DaemonFrame(s, t) && ScanOk(s) && (!s.co.Rest? || s.scan.Quiet?)
    ensures ScanOk(t)
  {
  }

  // ---------------------------------------------------------------------------------------------
  // Steps that only move the daemon along.
  // ---------------------------------------------------------------------------------------------

  lemma MoveTables(s: State, t: State)
    requires t == s.(co := t.co) && CacheOk(s) && IdsOk(s) && GensOk(s)
    ensures CacheOk(t) && IdsOk(t) && GensOk(t)
  {
  }

  lemma MoveCopies(s: State, t: State)
    requires t == s.(co := t.co) && FreshOk(s) && CopiesOk(s)
    ensures FreshOk(t) && CopiesOk(t)
  {
    SameWrites(s, t);
    forall w | Pending(t, w) && t.writes[w].Fresh? ensures FreshWrite(t, w) {
      assert Pending(s, w) && FreshWrite(s, w);
    }
    forall h | Referenced(t, h) ensures HasCopy(t, h) {
      var l: Loc :| ValidLoc(s, h, l);
      assert ValidLoc(t, h, l);
    }
  }

  lemma MoveKeeps(cfg: Config, s: State, t: State)
    requires Inv(cfg, s) && t == s.(co := t.co) && PassOk(t) && JobOk(cfg, t)
    requires !s.co.Rest? || s.scan.Quiet?
    ensures Inv(cfg, t)
  {
    hide CacheOk, IdsOk, GensOk, FreshOk, PinsOk, CheckpointOk, CopiesOk, PassOk, JobOk, ScanOk;
    MoveTables(s, t);
    MoveCopies(s, t);
    FrameRest(s, t);
    FrameScan(s, t);
  }

  lemma MarkPass(cfg: Config, s: State, a: MarkOp)
    requires Sound(cfg) && PassOk(s) && CheckpointOk(s) && MarkEnabled(cfg, s, a)
    ensures var t := MarkApply(cfg, s, a);
            t == s.(co := t.co) && PassOk(t) && JobOk(cfg, t) && (!s.co.Rest? || s.scan.Quiet?)
  {
    var t := MarkApply(cfg, s, a);
    SameWrites(s, t);
  }

  lemma StepMark(cfg: Config, s: State, a: MarkOp)
    requires Sound(cfg) && Inv(cfg, s) && MarkEnabled(cfg, s, a)
    ensures Inv(cfg, MarkApply(cfg, s, a))
  {
    hide CacheOk, IdsOk, GensOk, FreshOk, PinsOk, CheckpointOk, CopiesOk, PassOk, JobOk, ScanOk, MarkApply;
    MarkPass(cfg, s, a);
    MoveKeeps(cfg, s, MarkApply(cfg, s, a));
  }

  lemma PickJob(cfg: Config, s: State, g: SegId, elsewhere: set<nat>)
    requires Sound(cfg) && GensOk(s) && RepackEnabled(cfg, s, Pick(g, elsewhere))
    ensures var t := RepackApply(cfg, s, Pick(g, elsewhere)); JobOk(cfg, t) && GensOk(t)
  {
    var t := RepackApply(cfg, s, Pick(g, elsewhere));
    var keep := t.co.job.keep;
    assert forall i :: 0 <= i < |keep| ==> keep[i] in keep;
  }

  lemma PickPass(cfg: Config, s: State, g: SegId, elsewhere: set<nat>)
    requires PassOk(s) && RepackEnabled(cfg, s, Pick(g, elsewhere))
    ensures PassOk(RepackApply(cfg, s, Pick(g, elsewhere)))
  {
    SameWrites(s, RepackApply(cfg, s, Pick(g, elsewhere)));
  }

  lemma PickRest(s: State, t: State)
    requires t == s.(co := t.co, gens := t.gens) && CacheOk(s) && IdsOk(s) && FreshOk(s) && CopiesOk(s)
    ensures CacheOk(t) && IdsOk(t) && FreshOk(t) && CopiesOk(t)
  {
    SameWrites(s, t);
    forall w | Pending(t, w) && t.writes[w].Fresh? ensures FreshWrite(t, w) {
      assert Pending(s, w) && FreshWrite(s, w);
    }
    forall h | Referenced(t, h) ensures HasCopy(t, h) {
      var l: Loc :| ValidLoc(s, h, l);
      assert ValidLoc(t, h, l);
    }
  }

  lemma StepPick(cfg: Config, s: State, g: SegId, elsewhere: set<nat>)
    requires Sound(cfg) && Inv(cfg, s) && RepackEnabled(cfg, s, Pick(g, elsewhere))
    ensures Inv(cfg, RepackApply(cfg, s, Pick(g, elsewhere)))
  {
    hide CacheOk, IdsOk, GensOk, FreshOk, PinsOk, CheckpointOk, CopiesOk, PassOk, JobOk, ScanOk;
    var t := RepackApply(cfg, s, Pick(g, elsewhere));
    PickJob(cfg, s, g, elsewhere);
    PickPass(cfg, s, g, elsewhere);
    PickRest(s, t);
    FrameRest(s, t);
    FrameScan(s, t);
  }

  lemma SamePass(s: State, t: State)
    requires PassOk(s) && t == s.(co := t.co) && s.co.Repacking? && t.co.Repacking? && t.co.pass == s.co.pass
    ensures PassOk(t)
  {
    SameWrites(s, t);
  }

  lemma StepRecheck(cfg: Config, s: State, pinned: set<nat>)
    requires Inv(cfg, s) && RepackEnabled(cfg, s, Recheck(pinned))
    ensures Inv(cfg, RepackApply(cfg, s, Recheck(pinned)))
  {
    hide CacheOk, IdsOk, GensOk, FreshOk, PinsOk, CheckpointOk, CopiesOk, PassOk, ScanOk;
    var t := RepackApply(cfg, s, Recheck(pinned));
    var keep := t.co.job.keep;
    assert forall i :: 0 <= i < |keep| ==> keep[i] in keep;
    SamePass(s, t);
    MoveKeeps(cfg, s, t);
  }

  // ---------------------------------------------------------------------------------------------
  // Entering the removal and the gate.
  // ---------------------------------------------------------------------------------------------

  /** The facts about a repack that hold from the moment its copy, if any, is in place. */
  ghost predicate JobBase(s: State) {
    && s.co.Repacking?
    && s.co.job.seg in s.segs && s.segs[s.co.job.seg].state == Sealed
    && (s.co.job.seg in s.stamps ==> s.published >= s.stamps[s.co.job.seg] + 2)
    && (forall i :: 0 <= i < |s.co.job.keep| ==> s.co.job.keep[i] < |s.segs[s.co.job.seg].records|)
    && (forall o :: 0 <= o < |s.segs[s.co.job.seg].records| && Loc(s.co.job.seg, o) in s.co.pass.bits ==>
       o in s.co.job.keep)
    && CopyShape(s, s.co.job) && Copied(s, s.co.pass.gm, s.co.job)
  }

  lemma DeadOrCopied(s: State, h: Hash)
    requires JobBase(s) && HasCopy(s, h)
    ensures CopyOutside(s, h, s.co.job.seg) || h in JobDead(s)
  {
    var j := s.co.job;
    var l: Loc :| ValidLoc(s, h, l);
    if l.seg == j.seg && l.off in j.keep {
      var i :| 0 <= i < |j.keep| && j.keep[i] == l.off;
      assert ValidLoc(s, h, Loc(j.copy[0], i));
    }
  }

  lemma GateEntry(s: State)
    requires JobBase(s) && CacheOk(s) && FreshOk(s) && PassOk(s) && CopiesOk(s)
    requires NoCacheIn(s, s.co.job.seg)
    ensures GateOk(s, s.co.job.seg, s.co.pass.gm, JobDead(s))
  {
    forall h | Referenced(s, h) && s.published <= s.co.pass.gm && !CopyOutside(s, h, s.co.job.seg)
      ensures h in JobDead(s) && Held(s, h)
    {
      CopyOrPin(s, s.co.job.seg, h);
      DeadOrCopied(s, h);
    }
  }

  /** A state whose removal list has just been cut down is in order, whichever stage that leads to. */
  lemma RemovalOk(cfg: Config, s: State, todo: set<Hash>, removed: map<Hash, Loc>)
    requires JobBase(s) && CacheOk(s) && FreshOk(s) && PassOk(s) && CopiesOk(s)
    requires s.co.job.stage == AfterRemoval(JobDead(s), todo, removed)
    requires Repointed(s, s.co.job, |s.co.job.keep|) && todo <= JobDead(s)
    requires forall h :: h in s.cache && s.cache[h].seg == s.co.job.seg ==> h in todo
    requires RemovedOk(s, s.co.job.seg, removed)
    ensures JobOk(cfg, s)
  {
    hide CacheOk, FreshOk, PassOk, CopiesOk, GateOk;
    if todo == {} {
      GateEntry(s);
    }
  }

  lemma AllDead(s: State)
    requires JobBase(s) && CacheOk(s) && Repointed(s, s.co.job, |s.co.job.keep|)
    ensures forall h :: h in s.cache && s.cache[h].seg == s.co.job.seg ==> h in JobDead(s)
  {
    forall h | h in s.cache && s.cache[h].seg == s.co.job.seg ensures h in JobDead(s) {
      var l := s.cache[h];
      assert ValidLoc(s, h, l);
    }
  }

  lemma BaseCarries(s: State, t: State)
    requires JobBase(s) && t == s.(co := t.co, cache := t.cache) && t.co.Repacking? && t.co.pass == s.co.pass
    requires t.co.job == s.co.job.(stage := t.co.job.stage)
    ensures JobBase(t) && JobDead(t) == JobDead(s)
  {
  }

  lemma EnterRemoval(cfg: Config, s: State)
    requires Inv(cfg, s) && JobBase(s) && Repointed(s, s.co.job, |s.co.job.keep|)
    ensures Inv(cfg, WithStage(s, AfterRemoval(JobDead(s), JobDead(s), map[])))
  {
    hide CacheOk, IdsOk, GensOk, FreshOk, PinsOk, CheckpointOk, CopiesOk, PassOk, ScanOk, JobOk, GateOk;
    var t := WithStage(s, AfterRemoval(JobDead(s), JobDead(s), map[]));
    BaseCarries(s, t);
    AllDead(s);
    SamePass(s, t);
    MoveTables(s, t);
    MoveCopies(s, t);
    RemovalOk(cfg, t, JobDead(t), map[]);
    MoveKeeps(cfg, s, t);
  }

  // ---------------------------------------------------------------------------------------------
  // Copying forward.
  // ---------------------------------------------------------------------------------------------

  lemma JobBaseOf(cfg: Config, s: State)
    requires JobOk(cfg, s) && s.co.Repacking?
    requires !s.co.job.stage.Splitting? && !s.co.job.stage.Copying?
             && (s.co.job.stage.Rechecked? ==> s.co.job.keep == [])
    ensures JobBase(s)
  {
  }

  lemma CopyForwardTables(cfg: Config, s: State)
    requires CacheOk(s) && IdsOk(s) && GensOk(s) && RepackEnabled(cfg, s, CopyForward) && s.co.job.keep != []
    ensures var t := RepackApply(cfg, s, CopyForward); CacheOk(t) && IdsOk(t) && GensOk(t) && KeepsRecords(s, t)
  {
    var t := RepackApply(cfg, s, CopyForward);
    assert s.nextSeg !in s.segs && s.nextSeg !in s.stamps;
    assert KeepsRecords(s, t);
    forall h | h in t.cache ensures ValidLoc(t, h, t.cache[h]) {
      CopySurvives(s, t, h, s.cache[h]);
    }
  }

  lemma GrowCopies(s: State, t: State)
    requires DaemonFrame(s, t) && KeepsRecords(s, t) && FreshOk(s) && CopiesOk(s)
    requires forall g :: g in s.segs && s.segs[g].owner == Shard ==> t.segs[g] == s.segs[g]
    requires forall g :: g in s.stamps ==> g in t.stamps && t.stamps[g] == s.stamps[g]
    ensures FreshOk(t) && CopiesOk(t)
  {
    SameWrites(s, t);
    forall w | Pending(t, w) && t.writes[w].Fresh? ensures FreshWrite(t, w) {
      assert Pending(s, w) && FreshWrite(s, w);
    }
    forall h | Referenced(t, h) ensures HasCopy(t, h) {
      var l: Loc :| ValidLoc(s, h, l);
      CopySurvives(s, t, h, l);
    }
  }

  lemma GrowPass(s: State, t: State)
    requires DaemonFrame(s, t) && PassOk(s) && t.cache == s.cache && s.co.Repacking? && t.co.Repacking?
             && t.co.pass == s.co.pass
    requires forall g :: NewSince(s, s.co.pass.gm, g) ==> NewSince(t, s.co.pass.gm, g)
    ensures PassOk(t)
  {
    SameWrites(s, t);
  }

  lemma CopyForwardJob(cfg: Config, s: State)
    requires IdsOk(s) && JobOk(cfg, s) && RepackEnabled(cfg, s, CopyForward) && s.co.job.keep != []
    ensures JobOk(cfg, RepackApply(cfg, s, CopyForward))
  {
    assert s.nextSeg !in s.segs && s.nextSeg !in s.stamps;
  }

  lemma StepCopyForward(cfg: Config, s: State)
    requires Inv(cfg, s) && RepackEnabled(cfg, s, CopyForward)
    ensures Inv(cfg, RepackApply(cfg, s, CopyForward))
  {
    hide CacheOk, IdsOk, GensOk, FreshOk, PinsOk, CheckpointOk, CopiesOk, PassOk, ScanOk, JobOk, KeepsRecords;
    if s.co.job.keep == [] {
      JobBaseOf(cfg, s);
      EnterRemoval(cfg, s);
    } else {
      var t := RepackApply(cfg, s, CopyForward);
      CopyForwardTables(cfg, s);
      CopyForwardJob(cfg, s);
      FreshId(s);
      GrowCopies(s, t);
      GrowPass(s, t);
      FrameRest(s, t);
      FrameScan(s, t);
    }
  }

  lemma FreshId(s: State)
    requires IdsOk(s)
    ensures s.nextSeg !in s.segs && s.nextSeg !in s.stamps
  {
  }

  lemma StampCopyTables(cfg: Config, s: State)
    requires CacheOk(s) && IdsOk(s) && GensOk(s) && JobOk(cfg, s) && PassOk(s) && RepackEnabled(cfg, s, StampCopy)
    ensures var t := RepackApply(cfg, s, StampCopy); CacheOk(t) && IdsOk(t) && GensOk(t) && JobOk(cfg, t)
    ensures s.co.job.copy[0] !in s.stamps && s.co.pass.gm <= s.published + 1
  {
  }

  lemma StepStampCopy(cfg: Config, s: State)
    requires Inv(cfg, s) && RepackEnabled(cfg, s, StampCopy)
    ensures Inv(cfg, RepackApply(cfg, s, StampCopy))
  {
    hide CacheOk, IdsOk, GensOk, FreshOk, PinsOk, CheckpointOk, CopiesOk, PassOk, ScanOk, JobOk;
    var t := RepackApply(cfg, s, StampCopy);
    StampCopyTables(cfg, s);
    GrowCopies(s, t);
    GrowPass(s, t);
    FrameRest(s, t);
    FrameScan(s, t);
  }

  lemma SealCopyTables(cfg: Config, s: State)
    requires CacheOk(s) && IdsOk(s) && GensOk(s) && JobOk(cfg, s) && RepackEnabled(cfg, s, SealCopy)
    ensures var t := RepackApply(cfg, s, SealCopy); CacheOk(t) && IdsOk(t) && GensOk(t) && JobOk(cfg, t)
    ensures forall g :: NewSince(s, s.co.pass.gm, g) ==> NewSince(RepackApply(cfg, s, SealCopy), s.co.pass.gm, g)
  {
  }

  lemma SealCopyCopies(cfg: Config, s: State)
    requires FreshOk(s) && CopiesOk(s) && JobOk(cfg, s) && RepackEnabled(cfg, s, SealCopy)
    ensures FreshOk(RepackApply(cfg, s, SealCopy)) && CopiesOk(RepackApply(cfg, s, SealCopy))
  {
    var t := RepackApply(cfg, s, SealCopy);
    SameWrites(s, t);
    forall w | Pending(t, w) && t.writes[w].Fresh? ensures FreshWrite(t, w) {
      assert Pending(s, w) && FreshWrite(s, w);
    }
    forall h | Referenced(t, h) ensures HasCopy(t, h) {
      var l: Loc :| ValidLoc(s, h, l);
      assert ValidLoc(t, h, l);
    }
  }

  lemma StepSealCopy(cfg: Config, s: State)
    requires Inv(cfg, s) && RepackEnabled(cfg, s, SealCopy)
    ensures Inv(cfg, RepackApply(cfg, s, SealCopy))
  {
    hide CacheOk, IdsOk, GensOk, FreshOk, PinsOk, CheckpointOk, CopiesOk, PassOk, ScanOk, JobOk;
    var t := RepackApply(cfg, s, SealCopy);
    SealCopyTables(cfg, s);
    SealCopyCopies(cfg, s);
    GrowPass(s, t);
    FrameRest(s, t);
    FrameScan(s, t);
  }

  // ---------------------------------------------------------------------------------------------
  // Repointing, removing and putting back cache entries.
  // ---------------------------------------------------------------------------------------------

  ghost predicate CacheStep(s: State, t: State) {
    t == s.(cache := t.cache, co := t.co) && s.co.Repacking? && t.co.Repacking? && t.co.pass == s.co.pass
  }

  lemma CacheRest(s: State, t: State)
    requires CacheStep(s, t) && IdsOk(s) && GensOk(s) && FreshOk(s) && CopiesOk(s)
    ensures IdsOk(t) && GensOk(t) && FreshOk(t) && CopiesOk(t)
  {
    SameWrites(s, t);
    forall w | Pending(t, w) && t.writes[w].Fresh? ensures FreshWrite(t, w) {
      assert Pending(s, w) && FreshWrite(s, w);
    }
    forall h | Referenced(t, h) ensures HasCopy(t, h) {
      var l: Loc :| ValidLoc(s, h, l);
      assert ValidLoc(t, h, l);
    }
  }

  lemma CachePass(s: State, t: State)
    requires CacheStep(s, t) && PassOk(s)
    requires s.published <= s.co.pass.gm ==> forall h :: h in s.co.pass.live && h in s.cache ==>
               h in t.cache && (t.cache[h] == s.cache[h] || NewSince(s, s.co.pass.gm, t.cache[h].seg))
    ensures PassOk(t)
  {
    SameWrites(s, t);
    forall g ensures NewSince(t, s.co.pass.gm, g) <==> NewSince(s, s.co.pass.gm, g) {}
  }

  lemma CacheKeeps(cfg: Config, s: State, t: State)
    requires Inv(cfg, s) && CacheStep(s, t) && CacheOk(t) && PassOk(t) && JobOk(cfg, t)
    ensures Inv(cfg, t)
  {
    hide CacheOk, IdsOk, GensOk, FreshOk, PinsOk, CheckpointOk, CopiesOk, PassOk, ScanOk, JobOk;
    CacheRest(s, t);
    FrameRest(s, t);
    FrameScan(s, t);
  }

  lemma RepointCache(cfg: Config, s: State)
    requires CacheOk(s) && JobOk(cfg, s) && RepackEnabled(cfg, s, Repoint) && s.co.job.stage.done < |s.co.job.keep|
    ensures var t := RepackApply(cfg, s, Repoint); CacheStep(s, t) && CacheOk(t) && JobOk(cfg, t)
    ensures NewSince(s, s.co.pass.gm, s.co.job.copy[0])
  {
    var j := s.co.job;
    var k := j.stage.done;
    var t := RepackApply(cfg, s, Repoint);
    var h := s.segs[j.seg].records[j.keep[k]];
    assert ValidLoc(s, h, Loc(j.copy[0], k));
    assert Repointed(t, t.co.job, k + 1);
  }

  lemma StepRepoint(cfg: Config, s: State)
    requires Inv(cfg, s) && RepackEnabled(cfg, s, Repoint)
    ensures Inv(cfg, RepackApply(cfg, s, Repoint))
  {
    hide CacheOk, IdsOk, GensOk, FreshOk, PinsOk, CheckpointOk, CopiesOk, PassOk, ScanOk, JobOk, NewSince;
    if s.co.job.stage.done < |s.co.job.keep| {
      var t := RepackApply(cfg, s, Repoint);
      RepointCache(cfg, s);
      CachePass(s, t);
      CacheKeeps(cfg, s, t);
    } else {
      JobBaseOf(cfg, s);
      RepointedAll(cfg, s);
      EnterRemoval(cfg, s);
    }
  }

  lemma RepointedAll(cfg: Config, s: State)
    requires JobOk(cfg, s) && JobBase(s) && s.co.job.stage.Repointing? && s.co.job.stage.done >= |s.co.job.keep|
    ensures Repointed(s, s.co.job, |s.co.job.keep|)
  {
  }

  /** While no newer generation is out, nothing live resolves into a segment whose kept records have moved. */
  lemma LiveOutside(s: State, h: Hash)
    requires JobBase(s) && CacheOk(s) && PassOk(s) && Repointed(s, s.co.job, |s.co.job.keep|)
    requires s.published <= s.co.pass.gm && h in s.co.pass.live
    ensures h in s.cache && s.cache[h].seg != s.co.job.seg
  {
    var j := s.co.job;
    var l := s.cache[h];
    assert ValidLoc(s, h, l);
    assert l == Loc(l.seg, l.off);
  }

  lemma RemoveShape(cfg: Config, s: State, h: Hash)
    requires CacheOk(s) && JobOk(cfg, s) && PassOk(s) && RepackEnabled(cfg, s, RemoveOne(h))
    ensures var t := RepackApply(cfg, s, RemoveOne(h)); CacheStep(s, t) && CacheOk(t) && PassOk(t)
    ensures JobBase(s)
  {
    JobBaseOf(cfg, s);
    var t := RepackApply(cfg, s, RemoveOne(h));
    if s.published <= s.co.pass.gm && h in s.co.pass.live {
      LiveOutside(s, h);
    }
    CachePass(s, t);
  }

  lemma RemoveJob(cfg: Config, s: State, h: Hash)
    requires CacheOk(s) && JobOk(cfg, s) && RepackEnabled(cfg, s, RemoveOne(h)) && JobBase(s)
    requires var t := RepackApply(cfg, s, RemoveOne(h));
               CacheStep(s, t) && CacheOk(t) && FreshOk(t) && PassOk(t) && CopiesOk(t)
    ensures JobOk(cfg, RepackApply(cfg, s, RemoveOne(h)))
  {
    hide FreshOk, PassOk, CopiesOk;
    var t := RepackApply(cfg, s, RemoveOne(h));
    var st := s.co.job.stage;
    BaseCarries(s, t);
    var removed := if h in s.cache && s.cache[h].seg == s.co.job.seg then st.removed[h := s.cache[h]] else st.removed;
    RemovalOk(cfg, t, st.todo - {h}, removed);
  }

  lemma StepRemove(cfg: Config, s: State, h: Hash)
    requires Inv(cfg, s) && RepackEnabled(cfg, s, RemoveOne(h))
    ensures Inv(cfg, RepackApply(cfg, s, RemoveOne(h)))
  {
    hide CacheOk, IdsOk, GensOk, FreshOk, PinsOk, CheckpointOk, CopiesOk, PassOk, ScanOk, JobOk;
    var t := RepackApply(cfg, s, RemoveOne(h));
    RemoveShape(cfg, s, h);
    CacheRest(s, t);
    RemoveJob(cfg, s, h);
    CacheKeeps(cfg, s, t);
  }

  lemma PutBackShape(cfg: Config, s: State, h: Hash)
    requires CacheOk(s) && JobOk(cfg, s) && PassOk(s) && RepackEnabled(cfg, s, PutBack(h))
    ensures var t := RepackApply(cfg, s, PutBack(h)); CacheStep(s, t) && CacheOk(t) && JobOk(cfg, t) && PassOk(t)
  {
    var t := RepackApply(cfg, s, PutBack(h));
    CachePass(s, t);
  }

  lemma StepPutBack(cfg: Config, s: State, h: Hash)
    requires Inv(cfg, s) && RepackEnabled(cfg, s, PutBack(h))
    ensures Inv(cfg, RepackApply(cfg, s, PutBack(h)))
  {
    hide CacheOk, IdsOk, GensOk, FreshOk, PinsOk, CheckpointOk, CopiesOk, PassOk, ScanOk, JobOk;
    PutBackShape(cfg, s, h);
    CacheKeeps(cfg, s, RepackApply(cfg, s, PutBack(h)));
  }

  // ---------------------------------------------------------------------------------------------
  // The gate and the deletion.
  // ---------------------------------------------------------------------------------------------

  /** A gate test that fails keeps the segment; one that passes narrows what is left to test. */
  lemma GateMoves(cfg: Config, s: State, genOk: bool, left: set<Hash>)
    requires JobOk(cfg, s) && InGate(s) && left <= s.co.job.stage.left
    requires GateOk(s, s.co.job.seg, s.co.pass.gm, left)
    requires genOk ==> s.published == s.co.pass.gm && (!cfg.pinsFirst || left == {})
    ensures JobOk(cfg, WithStage(s, GateState(genOk, left, s.co.job.stage.removed)))
  {
    var t := WithStage(s, GateState(genOk, left, s.co.job.stage.removed));
    var g := s.co.job.seg;
    SameWrites(s, t);
    forall h | Referenced(t, h) && !CopyOutside(t, h, g)
      ensures t.published > s.co.pass.gm || (h in left && Held(t, h))
    {
      assert forall l: Loc :: ValidLoc(s, h, l) ==> ValidLoc(t, h, l);
      assert Referenced(s, h);
    }
  }

  lemma GateFails(cfg: Config, s: State)
    requires JobOk(cfg, s) && InGate(s)
    ensures JobOk(cfg, WithStage(s, Restoring(s.co.job.stage.removed)))
  {
  }

  lemma TestPinGate(cfg: Config, s: State, h: Hash)
    requires PinsOk(s) && JobOk(cfg, s) && InGate(s) && h !in s.pins
    ensures GateOk(s, s.co.job.seg, s.co.pass.gm, s.co.job.stage.left - {h})
  {
    assert Holders(s.writes, h) == {};
    assert forall w :: w in s.writes && s.writes[w] == Hit(h) ==> w in Holders(s.writes, h);
  }

  lemma GateStage(cfg: Config, s: State, a: RepackOp)
    requires PinsOk(s) && JobOk(cfg, s) && (a.LoadGeneration? || a.TestPin?) && RepackEnabled(cfg, s, a)
    ensures JobOk(cfg, RepackApply(cfg, s, a))
  {
    hide JobOk, PinsOk;
    if a.LoadGeneration? {
      if s.published == s.co.pass.gm {
        GateNow(cfg, s);
        GateMoves(cfg, s, true, s.co.job.stage.left);
      } else {
        GateFails(cfg, s);
      }
    } else if a.h in s.pins {
      GateFails(cfg, s);
    } else {
      TestPinGate(cfg, s, a.h);
      GateNow(cfg, s);
      GateMoves(cfg, s, s.co.job.stage.genOk, s.co.job.stage.left - {a.h});
    }
  }

  lemma GateNow(cfg: Config, s: State)
    requires JobOk(cfg, s) && InGate(s)
    ensures GateOk(s, s.co.job.seg, s.co.pass.gm, s.co.job.stage.left)
    ensures s.co.job.stage.genOk ==> s.published == s.co.pass.gm && !cfg.pinsFirst
  {
  }

  lemma StepGate(cfg: Config, s: State, a: RepackOp)
    requires Inv(cfg, s) && (a.LoadGeneration? || a.TestPin?) && RepackEnabled(cfg, s, a)
    ensures Inv(cfg, RepackApply(cfg, s, a))
  {
    hide CacheOk, IdsOk, GensOk, FreshOk, PinsOk, CheckpointOk, CopiesOk, PassOk, ScanOk, JobOk;
    var t := RepackApply(cfg, s, a);
    GateStage(cfg, s, a);
    SamePass(s, t);
    MoveKeeps(cfg, s, t);
  }

  lemma DeleteTables(cfg: Config, s: State)
    requires CacheOk(s) && IdsOk(s) && GensOk(s) && JobOk(cfg, s) && PassOk(s) && RepackEnabled(cfg, s, Delete)
    ensures var t := RepackApply(cfg, s, Delete); CacheOk(t) && IdsOk(t) && GensOk(t) && PassOk(t)
  {
    SameWrites(s, RepackApply(cfg, s, Delete));
  }

  lemma DeleteCopies(cfg: Config, s: State)
    requires FreshOk(s) && JobOk(cfg, s) && RepackEnabled(cfg, s, Delete)
    ensures FreshOk(RepackApply(cfg, s, Delete)) && CopiesOk(RepackApply(cfg, s, Delete))
  {
    var t := RepackApply(cfg, s, Delete);
    var g := s.co.job.seg;
    SameWrites(s, t);
    forall w | Pending(t, w) && t.writes[w].Fresh? ensures FreshWrite(t, w) {
      assert Pending(s, w) && FreshWrite(s, w);
      assert s.writes[w].loc.seg != g;
    }
    forall h | Referenced(t, h) ensures HasCopy(t, h) {
      assert Referenced(s, h) && CopyOutside(s, h, g);
      var l: Loc :| l.seg != g && ValidLoc(s, h, l);
      assert ValidLoc(t, h, l);
    }
  }

  lemma StepDelete(cfg: Config, s: State)
    requires Inv(cfg, s) && RepackEnabled(cfg, s, Delete)
    ensures Inv(cfg, RepackApply(cfg, s, Delete))
  {
    hide CacheOk, IdsOk, GensOk, FreshOk, PinsOk, CheckpointOk, CopiesOk, PassOk, ScanOk;
    var t := RepackApply(cfg, s, Delete);
    DeleteTables(cfg, s);
    DeleteCopies(cfg, s);
    FrameRest(s, t);
    FrameScan(s, t);
  }
}
