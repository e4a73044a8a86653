/**
 Steps of the checkpoint and of the duplicate scanner keep the invariant.
 */
module ReclaimCheckpoint {
  import opened ReclaimModel
  import opened ReclaimInvariant
  import opened ReclaimEnvironment

  // ---------------------------------------------------------------------------------------------
  // Draining, capturing, giving up, and ending: only the checkpoint's own place changes.
  // ---------------------------------------------------------------------------------------------

  predicate CheckpointOnly(a: CheckpointOp) {
    a.Drain? || a.Capture? || a.Abort? || a.EndCheckpoint?
  }

  lemma SamePending(s: State, t: State)
    requires t.writes == s.writes && t.root == s.root && (forall w :: Pending(t, w) <==> Pending(s, w))
    ensures forall h :: PendingHash(t, h) <==> PendingHash(s, h)
    ensures forall h :: Held(t, h) <==> Held(s, h)
    ensures forall h :: Referenced(t, h) <==> Referenced(s, h)
  {
  }

  lemma PlaceShape(cfg: Config, s: State, a: CheckpointOp)
    requires CheckpointOk(s) && CheckpointOnly(a) && CheckpointEnabled(cfg, s, a)
    ensures var t := CheckpointApply(cfg, s, a);
            && t == s.(ck := t.ck) && CheckpointOk(t)
            && (forall w :: Pending(t, w) <==> Pending(s, w))
            && (forall w :: Pending(s, w) && Covered(s.ck, w) ==> Covered(t.ck, w))
  {
  }

  lemma PlaceFresh(s: State, t: State)
    requires t == s.(ck := t.ck) && FreshOk(s)
    requires forall w :: Pending(t, w) <==> Pending(s, w)
    requires forall w :: Pending(s, w) && Covered(s.ck, w) ==> Covered(t.ck, w)
    ensures FreshOk(t)
  {
    forall w | Pending(t, w) && t.writes[w].Fresh? ensures FreshWrite(t, w) {
      assert Pending(s, w) && FreshWrite(s, w);
    }
  }

  lemma PlaceRest(s: State, t: State)
    requires t == s.(ck := t.ck) && CacheOk(s) && IdsOk(s) && GensOk(s) && PinsOk(s) && ScanOk(s)
    ensures CacheOk(t) && IdsOk(t) && GensOk(t) && PinsOk(t) && ScanOk(t)
  {
  }

  lemma PlaceEnv(s: State, t: State)
    requires t == s.(ck := t.ck) && CacheOk(s)
    requires forall w :: Pending(t, w) <==> Pending(s, w)
    ensures EnvStep(s, t)
  {
    SamePending(s, t);
  }

  lemma StepPlace(cfg: Config, s: State, a: CheckpointOp)
    requires Inv(cfg, s) && CheckpointOnly(a) && CheckpointEnabled(cfg, s, a)
    ensures Inv(cfg, CheckpointApply(cfg, s, a))
  {
    hide CacheOk, IdsOk, GensOk, FreshOk, PinsOk, CheckpointOk, CopiesOk, PassOk, JobOk, ScanOk, CheckpointApply,
         EnvStep;
    var t := CheckpointApply(cfg, s, a);
    PlaceShape(cfg, s, a);
    PlaceFresh(s, t);
    PlaceRest(s, t);
    SamePending(s, t);
    PlaceEnv(s, t);
    EnvQuiet(cfg, s, t);
  }

  // ---------------------------------------------------------------------------------------------
  // The new root becomes visible.
  // ---------------------------------------------------------------------------------------------

  lemma PublishRefs(cfg: Config, s: State, r: set<Hash>)
    requires CheckpointOk(s) && CheckpointEnabled(cfg, s, PublishRoot(r))
    ensures var t := CheckpointApply(cfg, s, PublishRoot(r));
            && CheckpointOk(t)
            && (forall w :: Pending(t, w) <==> Pending(s, w))
            && (forall w :: Pending(s, w) && Covered(s.ck, w) ==> Covered(t.ck, w))
            && (forall h :: h in r ==> h in s.root || PendingHash(s, h))
            && (forall h :: Referenced(t, h) ==> Referenced(s, h))
  {
    var t := CheckpointApply(cfg, s, PublishRoot(r));
    forall h | h in r && h !in s.root ensures PendingHash(s, h) {
      var w :| w in s.ck.captured && w in s.writes && s.writes[w].h == h;
      assert Pending(s, w);
    }
  }

  lemma PublishPass(s: State, t: State)
    requires t == s.(root := t.root, nsGen := s.nsGen + 1, ck := t.ck) && PassOk(s)
    requires forall h :: h in t.root ==> h in s.root || PendingHash(s, h)
    requires forall h :: PendingHash(t, h) <==> PendingHash(s, h)
    ensures PassOk(t)
  {
  }

  lemma PublishEnv(s: State, t: State)
    requires t == s.(root := t.root, nsGen := t.nsGen, ck := t.ck) && CacheOk(s)
    requires forall w :: Pending(t, w) <==> Pending(s, w)
    requires forall h :: Referenced(t, h) ==> Referenced(s, h)
    ensures EnvStep(s, t) && CacheOk(t)
    ensures forall h :: PendingHash(t, h) <==> PendingHash(s, h)
    ensures forall h :: Held(t, h) <==> Held(s, h)
  {
  }

  lemma PublishFresh(s: State, t: State)
    requires t == s.(root := t.root, nsGen := t.nsGen, ck := t.ck) && FreshOk(s)
    requires forall w :: Pending(t, w) <==> Pending(s, w)
    requires forall w :: Pending(s, w) && Covered(s.ck, w) ==> Covered(t.ck, w)
    ensures FreshOk(t)
  {
    forall w | Pending(t, w) && t.writes[w].Fresh? ensures FreshWrite(t, w) {
      assert Pending(s, w) && FreshWrite(s, w);
    }
  }

  lemma PublishRest(s: State, t: State)
    requires t == s.(root := t.root, nsGen := t.nsGen, ck := t.ck) && IdsOk(s) && GensOk(s) && PinsOk(s) && ScanOk(s)
    ensures IdsOk(t) && GensOk(t) && PinsOk(t) && ScanOk(t)
  {
  }

  lemma GateAndJob(cfg: Config, s: State, t: State)
    requires EnvStep(s, t) && JobOk(cfg, s)
    requires forall h :: Held(s, h) ==> Held(t, h)
    requires s.co.Repacking? && s.co.job.stage.Gate? && s.co.job.stage.genOk ==> t.published == s.published
    ensures JobOk(cfg, t)
  {
    if s.co.Repacking? && s.co.job.stage.Gate? {
      EnvNoCacheIn(s, t, s.co.job.seg);
      EnvGate(s, t, s.co.job.seg, s.co.pass.gm, s.co.job.stage.left);
    }
    EnvJob(cfg, s, t);
  }

  lemma StepPublish(cfg: Config, s: State, r: set<Hash>)
    requires Inv(cfg, s) && CheckpointEnabled(cfg, s, PublishRoot(r))
    ensures Inv(cfg, CheckpointApply(cfg, s, PublishRoot(r)))
  {
    hide CacheOk, IdsOk, GensOk, FreshOk, PinsOk, CheckpointOk, CopiesOk, PassOk, JobOk, ScanOk, EnvStep, PendingHash,
         Held;
    var t := CheckpointApply(cfg, s, PublishRoot(r));
    PublishRefs(cfg, s, r);
    PublishEnv(s, t);
    PublishFresh(s, t);
    PublishRest(s, t);
    PublishPass(s, t);
    EnvCopies(s, t);
    GateAndJob(cfg, s, t);
  }

  // ---------------------------------------------------------------------------------------------
  // The new generation is stored.
  // ---------------------------------------------------------------------------------------------

  lemma StoreRefs(s: State, t: State)
    requires s.ck.Rooted? && t == s.(published := s.nsGen, ck := Stored(s.ck.captured))
    ensures forall w :: Pending(t, w) ==> Pending(s, w) && w !in s.ck.captured
    ensures forall h :: Held(t, h) <==> Held(s, h)
    ensures forall h :: Referenced(t, h) ==> Referenced(s, h)
  {
    forall h | Referenced(t, h) ensures Referenced(s, h) {
      if h !in t.root {
        var w :| Pending(t, w) && t.writes[w].h == h;
        assert Pending(s, w);
      }
    }
  }

  lemma StoreFresh(s: State, t: State)
    requires s.ck.Rooted? && t == s.(published := s.nsGen, ck := Stored(s.ck.captured))
    requires FreshOk(s) && CheckpointOk(s)
    ensures FreshOk(t)
  {
    forall w | Pending(t, w) && t.writes[w].Fresh? ensures FreshWrite(t, w) {
      assert Pending(s, w) && FreshWrite(s, w);
    }
  }

  lemma StorePass(s: State, t: State)
    requires s.ck.Rooted? && t == s.(published := s.nsGen, ck := Stored(s.ck.captured))
    requires PassOk(s) && CheckpointOk(s)
    ensures PassOk(t)
  {
  }

  lemma StoreRest(s: State, t: State)
    requires s.ck.Rooted? && t == s.(published := s.nsGen, ck := Stored(s.ck.captured))
    requires CheckpointOk(s) && IdsOk(s) && GensOk(s) && PinsOk(s) && ScanOk(s) && CacheOk(s)
    ensures CheckpointOk(t) && IdsOk(t) && GensOk(t) && PinsOk(t) && ScanOk(t) && EnvStep(s, t) && CacheOk(t)
  {
    StoreRefs(s, t);
  }

  lemma StepStore(cfg: Config, s: State)
    requires Sound(cfg) && Inv(cfg, s) && CheckpointEnabled(cfg, s, StoreGeneration)
    ensures Inv(cfg, CheckpointApply(cfg, s, StoreGeneration))
  {
    var t := CheckpointApply(cfg, s, StoreGeneration);
    assert s.co.Repacking? && s.co.job.stage.Gate? && s.co.job.stage.genOk ==> false;
    StoreKeeps(cfg, s, t);
  }

  lemma StoreKeeps(cfg: Config, s: State, t: State)
    requires Inv(cfg, s) && s.ck.Rooted? && t == s.(published := s.nsGen, ck := Stored(s.ck.captured))
    requires s.co.Repacking? && s.co.job.stage.Gate? ==> !s.co.job.stage.genOk
    ensures Inv(cfg, t)
  {
    hide CacheOk, IdsOk, GensOk, FreshOk, PinsOk, CheckpointOk, CopiesOk, PassOk, JobOk, ScanOk, EnvStep, Held;
    StoreRefs(s, t);
    StoreFresh(s, t);
    StorePass(s, t);
    StoreRest(s, t);
    EnvCopies(s, t);
    GateAndJob(cfg, s, t);
  }

  // ---------------------------------------------------------------------------------------------
  // Pins are released, one captured write at a time.
  // ---------------------------------------------------------------------------------------------

  ghost predicate ReleaseStep(s: State, t: State, w: WriteId) {
    && s.ck.Stored? && w in s.ck.captured && w in s.writes
    && t == s.(writes := s.writes - {w}, pins := t.pins, ck := Stored(s.ck.captured - {w}))
  }

  lemma ReleaseRefs(s: State, t: State, w: WriteId)
    requires ReleaseStep(s, t, w)
    ensures forall v :: Pending(t, v) <==> Pending(s, v)
    ensures forall v :: Pending(s, v) ==> v in t.writes && t.writes[v] == s.writes[v]
    ensures forall h :: PendingHash(t, h) <==> PendingHash(s, h)
    ensures forall h :: Referenced(t, h) <==> Referenced(s, h)
  {
    assert forall v :: Pending(t, v) <==> Pending(s, v);
    forall h ensures PendingHash(t, h) <==> PendingHash(s, h) {
      if PendingHash(s, h) {
        var v :| Pending(s, v) && s.writes[v].h == h;
        assert Pending(t, v);
      }
    }
  }

  lemma ReleaseEnv(s: State, t: State, w: WriteId)
    requires ReleaseStep(s, t, w) && CacheOk(s)
    ensures EnvStep(s, t) && CacheOk(t)
  {
    ReleaseRefs(s, t, w);
  }

  lemma ReleaseFresh(s: State, t: State, w: WriteId)
    requires ReleaseStep(s, t, w) && FreshOk(s)
    ensures FreshOk(t)
  {
    ReleaseRefs(s, t, w);
    forall v | Pending(t, v) && t.writes[v].Fresh? ensures FreshWrite(t, v) {
      assert Pending(s, v) && FreshWrite(s, v);
    }
  }

  lemma ReleaseRest(s: State, t: State, w: WriteId)
    requires ReleaseStep(s, t, w) && CheckpointOk(s) && IdsOk(s) && GensOk(s) && ScanOk(s)
    ensures CheckpointOk(t) && IdsOk(t) && GensOk(t) && ScanOk(t)
  {
  }

  /**
   While no newer generation is out, anything referenced either has a copy outside a segment the cache
   no longer names, or is a dedup hit whose pin is still held.
   */
  lemma CopyOrPin(s: State, g: SegId, h: Hash)
    requires CacheOk(s) && FreshOk(s) && PassOk(s) && s.co.Repacking?
    requires g in s.segs && s.segs[g].state == Sealed && (g in s.stamps ==> s.published >= s.stamps[g] + 2)
    requires NoCacheIn(s, g) && s.published <= s.co.pass.gm && Referenced(s, h)
    ensures CopyOutside(s, h, g) || exists w :: Pending(s, w) && s.writes[w] == Hit(h)
  {
    if h in s.root && h in s.co.pass.live {
      assert ValidLoc(s, h, s.cache[h]);
    } else {
      assert PendingHash(s, h);
      var w :| Pending(s, w) && s.writes[w].h == h;
      if s.writes[w].Fresh? {
        assert FreshWrite(s, w);
        assert s.writes[w].loc.seg != g;
      }
    }
  }

  lemma ReleaseGate(s: State, t: State, w: WriteId, g: SegId, left: set<Hash>)
    requires ReleaseStep(s, t, w) && CacheOk(s) && FreshOk(s) && PassOk(s) && s.co.Repacking?
    requires g in s.segs && s.segs[g].state == Sealed && (g in s.stamps ==> s.published >= s.stamps[g] + 2)
    requires NoCacheIn(s, g) && GateOk(s, g, s.co.pass.gm, left)
    ensures GateOk(t, g, s.co.pass.gm, left)
  {
    ReleaseRefs(s, t, w);
    forall h | Referenced(t, h) && t.published <= s.co.pass.gm && !CopyOutside(t, h, g)
      ensures h in left && Held(t, h)
    {
      assert forall l: Loc :: ValidLoc(s, h, l) ==> ValidLoc(t, h, l);
      CopyOrPin(s, g, h);
      var v :| Pending(s, v) && s.writes[v] == Hit(h);
      assert v in t.writes && t.writes[v] == Hit(h);
    }
  }

  lemma ReleasePass(s: State, t: State, w: WriteId)
    requires ReleaseStep(s, t, w) && PassOk(s)
    ensures PassOk(t)
  {
    ReleaseRefs(s, t, w);
  }

  lemma ReleaseJob(cfg: Config, s: State, t: State, w: WriteId)
    requires ReleaseStep(s, t, w) && CacheOk(s) && FreshOk(s) && PassOk(s) && JobOk(cfg, s) && EnvStep(s, t)
    ensures JobOk(cfg, t)
  {
    hide CacheOk, FreshOk, PassOk, EnvStep, GateOk;
    if s.co.Repacking? && s.co.job.stage.Gate? {
      ReleaseGate(s, t, w, s.co.job.seg, s.co.job.stage.left);
    }
    EnvJob(cfg, s, t);
  }

  lemma ReleasePins(cfg: Config, s: State, w: WriteId)
    requires PinsOk(s) && CheckpointOk(s) && CheckpointEnabled(cfg, s, Release(w))
    ensures PinsOk(CheckpointApply(cfg, s, Release(w)))
  {
    var t := CheckpointApply(cfg, s, Release(w));
    PinsRemove(s.writes, w, s.pins, t.pins);
  }

  lemma StepRelease(cfg: Config, s: State, w: WriteId)
    requires Inv(cfg, s) && CheckpointEnabled(cfg, s, Release(w))
    ensures Inv(cfg, CheckpointApply(cfg, s, Release(w)))
  {
    hide CacheOk, IdsOk, GensOk, FreshOk, PinsOk, CheckpointOk, CopiesOk, PassOk, JobOk, ScanOk, EnvStep;
    var t := CheckpointApply(cfg, s, Release(w));
    ReleaseEnv(s, t, w);
    ReleaseFresh(s, t, w);
    ReleaseRest(s, t, w);
    ReleasePass(s, t, w);
    ReleasePins(cfg, s, w);
    EnvCopies(s, t);
    ReleaseJob(cfg, s, t, w);
  }

  // ---------------------------------------------------------------------------------------------
  // The duplicate scanner.
  // ---------------------------------------------------------------------------------------------

  lemma ScanShape(cfg: Config, s: State, a: ScanOp)
    requires Sound(cfg) && ScanOk(s) && CacheOk(s) && ScanEnabled(cfg, s, a)
    ensures var t := ScanApply(cfg, s, a);
            && t == s.(scan := t.scan, cache := t.cache) && (t.cache == s.cache || t.co.Rest?)
            && CacheOk(t) && ScanOk(t)
  {
    var t := ScanApply(cfg, s, a);
    if a.ScanPut? {
      assert ValidLoc(s, s.scan.h, a.loc);
    }
  }

  lemma ScanTables(s: State, t: State)
    requires t == s.(scan := t.scan, cache := t.cache)
    requires IdsOk(s) && GensOk(s) && PinsOk(s) && CheckpointOk(s)
    ensures IdsOk(t) && GensOk(t) && PinsOk(t) && CheckpointOk(t)
  {
  }

  lemma ScanCopies(s: State, t: State)
    requires t == s.(scan := t.scan, cache := t.cache) && FreshOk(s) && CopiesOk(s)
    ensures FreshOk(t) && CopiesOk(t)
  {
    SameWrites(s, t);
    forall w | Pending(t, w) && t.writes[w].Fresh? ensures FreshWrite(t, w) {
      assert Pending(s, w) && FreshWrite(s, w);
    }
    forall h | Referenced(t, h) ensures HasCopy(t, h) {
      var l: Loc :| ValidLoc(s, h, l);
      assert ValidLoc(t, h, l);
    }
  }

  lemma ScanDaemon(cfg: Config, s: State, t: State)
    requires t == s.(scan := t.scan, cache := t.cache) && (t.cache == s.cache || t.co.Rest?)
    requires GensOk(s) && CopiesOk(s) && PassOk(s) && JobOk(cfg, s) && CacheOk(t)
    ensures PassOk(t) && JobOk(cfg, t)
  {
    if !t.co.Rest? {
      SameWrites(s, t);
      EnvQuiet(cfg, s, t);
    }
  }

  lemma StepScan(cfg: Config, s: State, a: ScanOp)
    requires Sound(cfg) && Inv(cfg, s) && ScanEnabled(cfg, s, a)
    ensures Inv(cfg, ScanApply(cfg, s, a))
  {
    hide CacheOk, IdsOk, GensOk, FreshOk, PinsOk, CheckpointOk, CopiesOk, PassOk, JobOk, ScanOk, ScanApply;
    var t := ScanApply(cfg, s, a);
    ScanShape(cfg, s, a);
    ScanTables(s, t);
    ScanCopies(s, t);
    ScanDaemon(cfg, s, t);
  }
}
