/**
 Steps of writers, shards, checkpoints and the duplicate scanner keep the invariant: what any of them
 may do between two steps of the coalescing daemon.
 */
module ReclaimEnvironment {
  import opened ReclaimModel
  import opened ReclaimInvariant

  // ---------------------------------------------------------------------------------------------
  // What the daemon relies on others for.
  // ---------------------------------------------------------------------------------------------

  ghost predicate KeepsRecords(s: State, t: State) {
    && (forall g :: g in s.segs ==> g in t.segs && s.segs[g].records <= t.segs[g].records)
    && (forall g :: g in s.segs && (s.segs[g].state == Sealed || s.segs[g].owner == Repack) ==> t.segs[g] == s.segs[g])
  }

  ghost predicate OpenShard(s: State, g: SegId) {
    g in s.segs && s.segs[g].state == Open && s.segs[g].owner == Shard
  }

  /** Cache entries stay as they are or move to a record just appended to an open segment. */
  ghost predicate CacheGrows(s: State, t: State) {
    && (forall h :: h in s.cache ==> h in t.cache)
    && (forall h :: h in t.cache ==> (h in s.cache && t.cache[h] == s.cache[h]) || OpenShard(t, t.cache[h].seg))
  }

  ghost predicate StampsGrow(s: State, t: State) {
    && s.published <= t.published
    && (forall g :: g in s.stamps ==> g in t.stamps && t.stamps[g] == s.stamps[g])
    && (forall g :: g in t.stamps && g !in s.stamps ==> t.stamps[g] == s.published && OpenShard(s, g))
    && (forall g :: OpenShard(s, g) ==> OpenShard(t, g) || g in t.stamps)
  }

  /** What a step not taken by the daemon does to the state the daemon's argument is about. */
  ghost predicate EnvStep(s: State, t: State) {
    && t.co == s.co
    && KeepsRecords(s, t) && CacheGrows(s, t) && StampsGrow(s, t) && CacheOk(t)
    && (forall h :: Referenced(t, h) ==> Referenced(s, h) || h in t.cache)
  }

  lemma CopySurvives(s: State, t: State, h: Hash, l: Loc)
    requires KeepsRecords(s, t) && ValidLoc(s, h, l)
    ensures ValidLoc(t, h, l)
  {
  }

  lemma EnvCopies(s: State, t: State)
    requires EnvStep(s, t) && CopiesOk(s)
    ensures CopiesOk(t)
  {
    forall h | Referenced(t, h) ensures HasCopy(t, h) {
      if Referenced(s, h) {
        var l: Loc :| ValidLoc(s, h, l);
        CopySurvives(s, t, h, l);
      } else {
        assert ValidLoc(t, h, t.cache[h]);
      }
    }
  }

  lemma EnvOutside(s: State, t: State, g: SegId, h: Hash)
    requires KeepsRecords(s, t) && CopyOutside(s, h, g)
    ensures CopyOutside(t, h, g)
  {
    var l: Loc :| l.seg != g && ValidLoc(s, h, l);
    CopySurvives(s, t, h, l);
  }

  /** A step that releases no dedup pin keeps the gate's argument. */
  lemma EnvGate(s: State, t: State, g: SegId, gm: nat, left: set<Hash>)
    requires EnvStep(s, t) && GateOk(s, g, gm, left) && NoCacheIn(t, g)
    requires forall h :: Held(s, h) ==> Held(t, h)
    ensures GateOk(t, g, gm, left)
  {
    forall h | Referenced(t, h) && !(t.published > gm) && !(h in left && Held(t, h))
      ensures CopyOutside(t, h, g)
    {
      if Referenced(s, h) {
        EnvOutside(s, t, g, h);
      } else {
        assert ValidLoc(t, h, t.cache[h]) && t.cache[h].seg != g;
      }
    }
  }

  lemma EnvNoCacheIn(s: State, t: State, g: SegId)
    requires EnvStep(s, t) && NoCacheIn(s, g) && g in s.segs && s.segs[g].state == Sealed
    ensures NoCacheIn(t, g)
  {
  }

  lemma EnvCleared(s: State, t: State, g: SegId)
    requires EnvStep(s, t) && NoCacheIn(t, g)
    requires forall h :: Referenced(s, h) ==> CopyOutside(s, h, g)
    ensures forall h :: Referenced(t, h) ==> CopyOutside(t, h, g)
  {
    forall h | Referenced(t, h) ensures CopyOutside(t, h, g) {
      if Referenced(s, h) {
        EnvOutside(s, t, g, h);
      } else {
        assert ValidLoc(t, h, t.cache[h]) && t.cache[h].seg != g;
      }
    }
  }

  lemma EnvCopyOk(s: State, t: State)
    requires EnvStep(s, t) && s.co.Repacking?
    requires s.co.job.seg in s.segs && s.segs[s.co.job.seg].state == Sealed
    requires forall i :: 0 <= i < |s.co.job.keep| ==> s.co.job.keep[i] < |s.segs[s.co.job.seg].records|
    requires CopyShape(s, s.co.job) && CopyStage(s, s.co.pass.gm, s.co.job)
    ensures CopyShape(t, s.co.job) && CopyStage(t, s.co.pass.gm, s.co.job)
  {
  }

  lemma EnvStage(cfg: Config, s: State, t: State)
    requires EnvStep(s, t) && JobOk(cfg, s) && s.co.Repacking?
    requires s.co.job.stage.Gate? ==>
               && GateOk(t, s.co.job.seg, s.co.pass.gm, s.co.job.stage.left)
               && (s.co.job.stage.genOk ==> t.published == s.published)
    ensures s.co.job.seg in t.segs && t.segs[s.co.job.seg] == s.segs[s.co.job.seg]
    ensures StageOk(cfg, t, s.co.pass.gm, s.co.job)
  {
    var j := s.co.job;
    match j.stage
    case Splitting | Rechecked | Copying | Stamped =>
    case Repointing(done) =>
    case Removing(todo, removed) =>
    case Gate(genOk, left, removed) =>
      EnvNoCacheIn(s, t, j.seg);
    case Restoring(removed) =>
    case Cleared =>
      EnvNoCacheIn(s, t, j.seg);
      EnvCleared(s, t, j.seg);
  }

  lemma EnvJob(cfg: Config, s: State, t: State)
    requires EnvStep(s, t) && JobOk(cfg, s)
    requires s.co.Repacking? && s.co.job.stage.Gate? ==>
               && GateOk(t, s.co.job.seg, s.co.pass.gm, s.co.job.stage.left)
               && (s.co.job.stage.genOk ==> t.published == s.published)
    ensures JobOk(cfg, t)
  {
    if s.co.Repacking? {
      EnvCopyOk(s, t);
      EnvStage(cfg, s, t);
    }
  }

  lemma EnvPass(s: State, t: State)
    requires EnvStep(s, t) && PassOk(s) && GensOk(s)
    requires t.root == s.root && t.nsGen == s.nsGen && t.published == s.published
    requires forall h :: PendingHash(s, h) ==> PendingHash(t, h)
    ensures PassOk(t)
  {
    if !s.co.Rest? && t.published <= s.co.pass.gm {
      forall h | h in s.co.pass.live
        ensures h in t.cache && (t.cache[h] in s.co.pass.bits || NewSince(t, s.co.pass.gm, t.cache[h].seg))
      {
        EnvLive(s, t, h);
      }
    }
  }

  lemma EnvLive(s: State, t: State, h: Hash)
    requires EnvStep(s, t) && GensOk(s) && !s.co.Rest? && s.co.pass.gm <= s.published + 1
    requires h in s.cache && (s.cache[h] in s.co.pass.bits || NewSince(s, s.co.pass.gm, s.cache[h].seg))
    ensures h in t.cache && (t.cache[h] in s.co.pass.bits || NewSince(t, s.co.pass.gm, t.cache[h].seg))
  {
    var g := s.cache[h].seg;
    if t.cache[h] == s.cache[h] && NewSince(s, s.co.pass.gm, g) && s.segs[g].state == Open {
      if s.segs[g].owner == Shard { assert OpenShard(s, g); }
    }
  }

  lemma EnvScan(s: State, t: State)
    requires EnvStep(s, t) && ScanOk(s) && t.scan == s.scan
    ensures ScanOk(t)
  {
  }

  /** The daemon's side of the invariant, for a step that leaves the root and every pin holder alone. */
  lemma EnvQuiet(cfg: Config, s: State, t: State)
    requires EnvStep(s, t) && CopiesOk(s) && PassOk(s) && JobOk(cfg, s) && GensOk(s)
    requires t.root == s.root && t.nsGen == s.nsGen && t.published == s.published
    requires forall h :: PendingHash(s, h) ==> PendingHash(t, h)
    requires forall h :: Held(s, h) ==> Held(t, h)
    ensures CopiesOk(t) && PassOk(t) && JobOk(cfg, t)
  {
    hide CopiesOk, PassOk, GensOk, CacheOk, CacheGrows, KeepsRecords, StampsGrow;
    EnvCopies(s, t);
    EnvPass(s, t);
    if s.co.Repacking? && s.co.job.stage.Gate? {
      EnvNoCacheIn(s, t, s.co.job.seg);
      EnvGate(s, t, s.co.job.seg, s.co.pass.gm, s.co.job.stage.left);
    }
    EnvJob(cfg, s, t);
  }

  // ---------------------------------------------------------------------------------------------
  // Writers.
  // ---------------------------------------------------------------------------------------------

  lemma HoldersUpdate(ws: map<WriteId, Write>, w: WriteId, v: Write, h: Hash)
    ensures Holders(ws[w := v], h) == Holders(ws, h) - {w} + (if HoldsPin(v, h) then {w} else {})
    ensures Holders(ws - {w}, h) == Holders(ws, h) - {w}
    ensures w in Holders(ws, h) <==> w in ws && HoldsPin(ws[w], h)
  {
  }

  function PinOf(v: Write): multiset<Hash> {
    if v.Pinned? || v.Hit? then multiset{v.h} else multiset{}
  }

  function PinAt(ws: map<WriteId, Write>, w: WriteId): multiset<Hash> {
    if w in ws then PinOf(ws[w]) else multiset{}
  }

  lemma PinsUpdate(ws: map<WriteId, Write>, w: WriteId, v: Write, pins: multiset<Hash>, after: multiset<Hash>)
    requires PinCounts(ws, pins) && after == pins - PinAt(ws, w) + PinOf(v)
    ensures PinCounts(ws[w := v], after)
  {
    forall h ensures after[h] == |Holders(ws[w := v], h)| {
      PinUpdate(ws, w, v, pins, h);
    }
  }

  lemma PinUpdate(ws: map<WriteId, Write>, w: WriteId, v: Write, pins: multiset<Hash>, h: Hash)
    requires pins[h] == |Holders(ws, h)|
    ensures (pins - PinAt(ws, w) + PinOf(v))[h] == |Holders(ws[w := v], h)|
  {
    HoldersUpdate(ws, w, v, h);
  }

  lemma PinsRemove(ws: map<WriteId, Write>, w: WriteId, pins: multiset<Hash>, after: multiset<Hash>)
    requires PinCounts(ws, pins) && after == pins - PinAt(ws, w)
    ensures PinCounts(ws - {w}, after)
  {
    forall h ensures after[h] == |Holders(ws - {w}, h)| {
      if w in ws { HoldersUpdate(ws, w, ws[w], h); } else { assert ws - {w} == ws; }
    }
  }

  lemma PinKept(ws: map<WriteId, Write>, w: WriteId, pins: multiset<Hash>)
    requires PinCounts(ws, pins) && w in ws && (ws[w].Pinned? || ws[w].Hit?)
    ensures ws[w].h in pins && pins - PinAt(ws, w) + multiset{ws[w].h} == pins
  {
    assert w in Holders(ws, ws[w].h);
  }

  /** Only write `w` differs, and it had depended on nothing yet. */
  ghost predicate OneWrite(s: State, t: State, w: WriteId) {
    && (forall v :: v != w ==> (v in s.writes <==> v in t.writes) && (v in s.writes ==> t.writes[v] == s.writes[v]))
    && (w in s.writes ==> !Done(s.writes[w]))
    && (w in t.writes ==> !t.writes[w].Found?)
    && (w in t.writes && Done(t.writes[w]) ==> t.writes[w].h in t.cache)
    && t.ck == s.ck && t.root == s.root
  }

  lemma OneWriteRefs(s: State, t: State, w: WriteId)
    requires OneWrite(s, t, w)
    ensures forall v :: v != w ==> (Pending(t, v) <==> Pending(s, v))
    ensures forall h :: PendingHash(s, h) ==> PendingHash(t, h)
    ensures forall h :: Held(s, h) ==> Held(t, h)
    ensures forall h :: Referenced(t, h) ==> Referenced(s, h) || h in t.cache
  {
    forall h | PendingHash(s, h) ensures PendingHash(t, h) {
      var v :| Pending(s, v) && s.writes[v].h == h;
      assert Pending(t, v);
    }
    forall h | Held(s, h) ensures Held(t, h) {
      var v :| v in s.writes && s.writes[v] == Hit(h);
      assert v in t.writes && t.writes[v] == Hit(h);
    }
    forall h | Referenced(t, h) ensures Referenced(s, h) || h in t.cache {
      if h !in t.root {
        var v :| Pending(t, v) && t.writes[v].h == h;
        if v != w { assert Pending(s, v); }
      }
    }
  }

  lemma OneWriteCheckpoint(s: State, t: State, w: WriteId)
    requires OneWrite(s, t, w) && CheckpointOk(s) && t.nsGen == s.nsGen && t.published == s.published
    ensures CheckpointOk(t)
  {
  }

  lemma OneWriteFresh(s: State, t: State, w: WriteId)
    requires OneWrite(s, t, w) && FreshOk(s) && KeepsRecords(s, t) && t.stamps == s.stamps && t.published == s.published
    requires forall g :: g in s.segs ==> t.segs[g].state == s.segs[g].state && t.segs[g].owner == s.segs[g].owner
    requires w in t.writes && t.writes[w].Fresh? ==> FreshWrite(t, w)
    ensures FreshOk(t)
  {
    forall v | Pending(t, v) && t.writes[v].Fresh? ensures FreshWrite(t, v) {
      if v != w {
        assert Pending(s, v) && FreshWrite(s, v);
        CopySurvives(s, t, s.writes[v].h, s.writes[v].loc);
      }
    }
  }

  lemma WriterEnv(s: State, t: State, w: WriteId)
    requires OneWrite(s, t, w) && t == s.(writes := t.writes, pins := t.pins) && CacheOk(s)
    ensures EnvStep(s, t) && CacheOk(t)
  {
    OneWriteRefs(s, t, w);
  }

  lemma WriterTables(s: State, t: State)
    requires t == s.(writes := t.writes, pins := t.pins) && IdsOk(s) && GensOk(s) && ScanOk(s)
    ensures IdsOk(t) && GensOk(t) && ScanOk(t)
  {
  }

  /** Steps that change only which pins are held and how far a write has got. */
  lemma WriterKeeps(cfg: Config, s: State, t: State, w: WriteId)
    requires Inv(cfg, s) && t == s.(writes := t.writes, pins := t.pins)
    requires OneWrite(s, t, w) && (w in t.writes ==> !t.writes[w].Fresh?)
    requires PinsOk(t)
    ensures Inv(cfg, t)
  {
    hide CacheOk, IdsOk, GensOk, FreshOk, PinsOk, CheckpointOk, CopiesOk, PassOk, JobOk, ScanOk, EnvStep, OneWrite;
    WriterEnv(s, t, w);
    WriterTables(s, t);
    OneWriteRefs(s, t, w);
    OneWriteCheckpoint(s, t, w);
    OneWriteFresh(s, t, w);
    EnvQuiet(cfg, s, t);
  }

  predicate PinStep(a: WriterOp) {
    a.Pin? || a.LookHit? || a.LookMiss? || a.GiveUp?
  }

  lemma WriterShape(cfg: Config, s: State, a: WriterOp)
    requires CheckpointOk(s) && PinStep(a) && WriterEnabled(cfg, s, a)
    ensures var t := WriterApply(cfg, s, a);
            && t == s.(writes := t.writes, pins := t.pins)
            && OneWrite(s, t, a.w) && (a.w in t.writes ==> !t.writes[a.w].Fresh?)
  {
  }

  lemma WriterPins(cfg: Config, s: State, a: WriterOp)
    requires PinsOk(s) && PinStep(a) && WriterEnabled(cfg, s, a)
    ensures PinsOk(WriterApply(cfg, s, a))
  {
    hide PinCounts;
    var w := a.w;
    match a {
      case Pin(_, h) =>
        PinsUpdate(s.writes, w, Pinned(h), s.pins, s.pins + multiset{h});
      case LookHit(_) =>
        PinKept(s.writes, w, s.pins);
        PinsUpdate(s.writes, w, Hit(s.writes[w].h), s.pins, s.pins);
      case LookMiss(_) =>
        PinsUpdate(s.writes, w, Missed(s.writes[w].h), s.pins, s.pins - multiset{s.writes[w].h});
      case GiveUp(_) =>
        PinsRemove(s.writes, w, s.pins, s.pins);
    }
  }

  lemma StepWriter(cfg: Config, s: State, a: WriterOp)
    requires Inv(cfg, s) && PinStep(a) && WriterEnabled(cfg, s, a)
    ensures Inv(cfg, WriterApply(cfg, s, a))
  {
    hide CacheOk, IdsOk, GensOk, FreshOk, PinsOk, CheckpointOk, CopiesOk, PassOk, JobOk, ScanOk, OneWrite, WriterApply;
    WriterShape(cfg, s, a);
    WriterPins(cfg, s, a);
    WriterKeeps(cfg, s, WriterApply(cfg, s, a), a.w);
  }

  lemma AppendShape(cfg: Config, s: State, w: WriteId, g: SegId)
    requires WriterEnabled(cfg, s, Append(w, g))
    ensures var t := WriterApply(cfg, s, Append(w, g)); OneWrite(s, t, w) && KeepsRecords(s, t) && CacheGrows(s, t)
  {
  }

  lemma AppendTables(cfg: Config, s: State, w: WriteId, g: SegId)
    requires CacheOk(s) && IdsOk(s) && GensOk(s) && WriterEnabled(cfg, s, Append(w, g))
    ensures var t := WriterApply(cfg, s, Append(w, g)); CacheOk(t) && IdsOk(t) && GensOk(t)
  {
    var t := WriterApply(cfg, s, Append(w, g));
    AppendShape(cfg, s, w, g);
    forall h | h in t.cache ensures ValidLoc(t, h, t.cache[h]) {
      if h != s.writes[w].h { CopySurvives(s, t, h, s.cache[h]); }
    }
  }

  lemma AppendEnv(cfg: Config, s: State, w: WriteId, g: SegId)
    requires WriterEnabled(cfg, s, Append(w, g)) && CacheOk(WriterApply(cfg, s, Append(w, g)))
    ensures var t := WriterApply(cfg, s, Append(w, g)); EnvStep(s, t) && OneWrite(s, t, w)
  {
    hide CacheOk, CacheGrows, KeepsRecords, OneWrite;
    AppendShape(cfg, s, w, g);
    OneWriteRefs(s, WriterApply(cfg, s, Append(w, g)), w);
  }

  lemma StepAppend(cfg: Config, s: State, w: WriteId, g: SegId)
    requires Inv(cfg, s) && WriterEnabled(cfg, s, Append(w, g))
    ensures Inv(cfg, WriterApply(cfg, s, Append(w, g)))
  {
    hide CacheOk, IdsOk, GensOk, FreshOk, CheckpointOk, CopiesOk, PassOk, JobOk, ScanOk;
    var t := WriterApply(cfg, s, Append(w, g));
    AppendTables(cfg, s, w, g);
    AppendEnv(cfg, s, w, g);
    OneWriteRefs(s, t, w);
    OneWriteCheckpoint(s, t, w);
    OneWriteFresh(s, t, w);
    EnvScan(s, t);
    EnvQuiet(cfg, s, t);
    PinsUpdate(s.writes, w, t.writes[w], s.pins, s.pins);
  }

  // ---------------------------------------------------------------------------------------------
  // Shard writers: no write, root or cache entry changes.
  // ---------------------------------------------------------------------------------------------

  lemma SameWrites(s: State, t: State)
    requires t.writes == s.writes && t.ck == s.ck && t.root == s.root
    ensures forall w :: Pending(t, w) <==> Pending(s, w)
    ensures forall h :: PendingHash(t, h) <==> PendingHash(s, h)
    ensures forall h :: Held(t, h) <==> Held(s, h)
    ensures forall h :: Referenced(t, h) <==> Referenced(s, h)
  {
    assert forall w :: Pending(t, w) <==> Pending(s, w);
  }

  ghost predicate ShardStep(s: State, t: State) {
    && t == s.(segs := t.segs, nextSeg := t.nextSeg, gens := t.gens, stamps := t.stamps)
    && KeepsRecords(s, t) && StampsGrow(s, t)
  }

  lemma ShardEnv(s: State, t: State)
    requires ShardStep(s, t) && CacheOk(s)
    ensures EnvStep(s, t) && CacheOk(t)
  {
    SameWrites(s, t);
    forall h | h in t.cache ensures ValidLoc(t, h, t.cache[h]) {
      CopySurvives(s, t, h, s.cache[h]);
    }
  }

  lemma ShardFresh(s: State, t: State)
    requires ShardStep(s, t) && FreshOk(s) && GensOk(s)
    requires forall g :: g in s.segs ==> t.segs[g].owner == s.segs[g].owner
    ensures FreshOk(t)
  {
    SameWrites(s, t);
    forall w | Pending(t, w) && t.writes[w].Fresh? ensures FreshWrite(t, w) {
      assert Pending(s, w) && FreshWrite(s, w);
      CopySurvives(s, t, s.writes[w].h, s.writes[w].loc);
      if s.segs[s.writes[w].loc.seg].state == Open { assert OpenShard(s, s.writes[w].loc.seg); }
    }
  }

  lemma ShardRest(s: State, t: State)
    requires ShardStep(s, t) && PinsOk(s) && CheckpointOk(s)
    ensures PinsOk(t) && CheckpointOk(t)
  {
  }

  lemma ShardKeeps(cfg: Config, s: State, t: State)
    requires Inv(cfg, s) && ShardStep(s, t) && IdsOk(t) && GensOk(t)
    requires forall g :: g in s.segs ==> t.segs[g].owner == s.segs[g].owner
    ensures Inv(cfg, t)
  {
    hide CacheOk, IdsOk, GensOk, FreshOk, PinsOk, CheckpointOk, CopiesOk, PassOk, JobOk, ScanOk, EnvStep,
         KeepsRecords, StampsGrow;
    ShardEnv(s, t);
    ShardFresh(s, t);
    ShardRest(s, t);
    SameWrites(s, t);
    EnvScan(s, t);
    EnvQuiet(cfg, s, t);
  }

  lemma ShardShape(cfg: Config, s: State, a: ShardOp)
    requires Sound(cfg) && IdsOk(s) && GensOk(s) && ShardEnabled(cfg, s, a)
    ensures var t := ShardApply(cfg, s, a);
            ShardStep(s, t) && forall g :: g in s.segs ==> t.segs[g].owner == s.segs[g].owner
  {
    if a.OpenSegment? { assert s.nextSeg !in s.segs; }
  }

  lemma ShardTables(cfg: Config, s: State, a: ShardOp)
    requires Sound(cfg) && IdsOk(s) && GensOk(s) && ShardEnabled(cfg, s, a)
    ensures IdsOk(ShardApply(cfg, s, a)) && GensOk(ShardApply(cfg, s, a))
  {
    if a.OpenSegment? { assert s.nextSeg !in s.segs && s.nextSeg !in s.stamps; }
  }

  lemma StepShard(cfg: Config, s: State, a: ShardOp)
    requires Sound(cfg) && Inv(cfg, s) && ShardEnabled(cfg, s, a)
    ensures Inv(cfg, ShardApply(cfg, s, a))
  {
    hide CacheOk, IdsOk, GensOk, FreshOk, PinsOk, CheckpointOk, CopiesOk, PassOk, JobOk, ScanOk, ShardStep, ShardApply;
    ShardShape(cfg, s, a);
    ShardTables(cfg, s, a);
    ShardKeeps(cfg, s, ShardApply(cfg, s, a));
  }
}
