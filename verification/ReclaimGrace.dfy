/**
 Why two checkpoints of grace are enough, told over the run itself: between the last append to a segment the
 sweep may reclaim and now, a checkpoint began to drain and published its generation.
 */
module ReclaimGrace {
  import opened ReclaimModel
  import opened ReclaimInvariant
  import opened ReclaimSafety

  predicate AppendAt(run: seq<Step>, a: nat, g: SegId) {
    a < |run| && run[a].ByWriter? && run[a].writer.Append? && run[a].writer.seg == g
  }

  predicate IsDrain(a: Step) {
    a == ByCheckpoint(Drain)
  }

  /** `d` is the latest drain begun. */
  predicate Latest(run: seq<Step>, d: nat) {
    d < |run| && IsDrain(run[d]) && forall i :: d < i < |run| ==> !IsDrain(run[i])
  }

  /** One checkpoint: its drain begins at `d` and its generation is published at `p`. */
  predicate Published(run: seq<Step>, d: nat, p: nat) {
    d < p < |run| && run[p] == ByCheckpoint(StoreGeneration) && Latest(run[..p], d)
  }

  ghost predicate BegunAfter(run: seq<Step>, a: nat) {
    exists d: nat :: a < d && Latest(run, d)
  }

  ghost predicate PublishedAfter(run: seq<Step>, a: nat) {
    exists d: nat, p: nat :: a < d && Published(run, d, p)
  }

  /** How far checkpoints have come since a stamped segment's append at `a`. */
  ghost predicate Aged(run: seq<Step>, s: State, g: SegId, a: nat) {
    g in s.stamps ==>
      && (s.published >= s.stamps[g] + 2 ==> PublishedAfter(run, a))
      && (s.published == s.stamps[g] + 1 && (s.ck.Draining? || s.ck.Rooted?) ==> BegunAfter(run, a))
  }

  /** A segment some writer of this run appended to. */
  ghost predicate Filled(s: State, g: SegId) {
    && g < s.nextSeg
    && (g in s.segs ==> s.segs[g].owner == Shard && (s.segs[g].state != Open ==> g in s.stamps))
  }

  /** What stamps, segments and the checkpoint's counters are to each other, whatever the other orderings. */
  ghost predicate Kept(s: State) {
    && IdsOk(s) && GensOk(s)
    && s.nsGen == (if s.ck.Rooted? then s.published + 1 else s.published)
    && (s.co.Repacking? ==>
          forall n :: n in s.co.job.copy ==> n < s.nextSeg && (n in s.segs ==> s.segs[n].owner == Repack))
  }

  ghost predicate NotCopied(s: State, g: SegId) {
    s.co.Repacking? ==> g !in s.co.job.copy
  }

  ghost predicate Told(run: seq<Step>, s: State) {
    && Kept(s)
    && (forall a: nat, g :: AppendAt(run, a, g) ==> Filled(s, g) && NotCopied(s, g) && Aged(run, s, g, a))
  }

  predicate Graced(cfg: Config) {
    cfg.stampFirst && cfg.grace >= 2
  }

  // ---------------------------------------------------------------------------------------------
  // A run one step longer.
  // ---------------------------------------------------------------------------------------------

  lemma LatestStays(run: seq<Step>, d: nat, b: Step)
    requires Latest(run, d) && !IsDrain(b)
    ensures Latest(run + [b], d)
  {
  }

  lemma BegunStays(run: seq<Step>, a: nat, b: Step)
    requires BegunAfter(run, a) && !IsDrain(b)
    ensures BegunAfter(run + [b], a)
  {
    var d: nat :| a < d && Latest(run, d);
    LatestStays(run, d, b);
  }

  lemma PublishedStays(run: seq<Step>, a: nat, b: Step)
    requires PublishedAfter(run, a)
    ensures PublishedAfter(run + [b], a)
  {
    var d: nat, p: nat :| a < d && Published(run, d, p);
    assert (run + [b])[..p] == run[..p];
    assert Published(run + [b], d, p);
  }

  lemma Begins(run: seq<Step>, a: nat)
    requires a < |run|
    ensures BegunAfter(run + [ByCheckpoint(Drain)], a)
  {
    assert Latest(run + [ByCheckpoint(Drain)], |run|);
  }

  lemma Publishes(run: seq<Step>, a: nat)
    requires BegunAfter(run, a)
    ensures PublishedAfter(run + [ByCheckpoint(StoreGeneration)], a)
  {
    var d: nat :| a < d && Latest(run, d);
    var longer := run + [ByCheckpoint(StoreGeneration)];
    assert longer[..|run|] == run;
    assert Published(longer, d, |run|);
  }

  /** Steps that leave stamps, counters and the checkpoint alone. */
  lemma AgedStays(run: seq<Step>, s: State, b: Step, t: State, g: SegId, a: nat)
    requires Aged(run, s, g, a) && !IsDrain(b)
    requires (g in t.stamps ==> g in s.stamps && t.stamps[g] == s.stamps[g]) && t.published == s.published
    requires (t.ck.Draining? || t.ck.Rooted?) ==> (s.ck.Draining? || s.ck.Rooted?)
    ensures Aged(run + [b], t, g, a)
  {
    hide BegunAfter, PublishedAfter;
    if g in t.stamps && PublishedAfter(run, a) {
      PublishedStays(run, a, b);
    }
    if g in t.stamps && BegunAfter(run, a) {
      BegunStays(run, a, b);
    }
  }

  lemma AgedCheckpoint(cfg: Config, run: seq<Step>, s: State, b: CheckpointOp, g: SegId, a: nat)
    requires Kept(s) && CheckpointEnabled(cfg, s, b) && a < |run| && Aged(run, s, g, a)
    ensures Aged(run + [ByCheckpoint(b)], CheckpointApply(cfg, s, b), g, a)
  {
    hide BegunAfter, PublishedAfter;
    if b.Drain? {
      Begins(run, a);
      if PublishedAfter(run, a) {
        PublishedStays(run, a, ByCheckpoint(b));
      }
    } else if b.StoreGeneration? {
      if PublishedAfter(run, a) {
        PublishedStays(run, a, ByCheckpoint(b));
      }
      if BegunAfter(run, a) {
        Publishes(run, a);
      }
    } else {
      AgedStays(run, s, ByCheckpoint(b), CheckpointApply(cfg, s, b), g, a);
    }
  }

  // ---------------------------------------------------------------------------------------------
  // Each actor's steps.
  // ---------------------------------------------------------------------------------------------

  /** What any step does to a segment appended to: nothing, but for its own stamp. */
  ghost predicate Steady(s: State, t: State, g: SegId) {
    && (g in t.stamps ==> g in s.stamps && t.stamps[g] == s.stamps[g])
    && t.published == s.published && t.ck == s.ck
  }

  ghost predicate Rides(s: State, t: State, g: SegId) {
    Filled(s, g) && NotCopied(s, g) ==> Filled(t, g) && NotCopied(t, g)
  }

  /** Steps that touch none of this. */
  ghost predicate Apart(s: State, t: State) {
    && t.segs == s.segs && t.nextSeg == s.nextSeg && t.gens == s.gens && t.stamps == s.stamps
    && t.published == s.published && t.nsGen == s.nsGen && t.ck == s.ck
    && (t.co.Repacking? ==> t.co.job.copy == [] || (s.co.Repacking? && t.co.job.copy == s.co.job.copy))
  }

  lemma ApartKeeps(s: State, t: State, g: SegId)
    requires Kept(s) && Apart(s, t)
    ensures Kept(t) && Rides(s, t, g) && Steady(s, t, g)
  {
  }

  lemma AppendStep(cfg: Config, s: State, w: WriteId, x: SegId, g: SegId)
    requires Kept(s) && WriterEnabled(cfg, s, Append(w, x))
    ensures var t := WriterApply(cfg, s, Append(w, x)); Kept(t) && Rides(s, t, g) && Steady(s, t, g)
  {
    var seg := s.segs[x].(records := s.segs[x].records + [s.writes[w].h]);
    SegmentKept(s, WriterApply(cfg, s, Append(w, x)), x, seg, g);
  }

  /** One segment changed, in its records only. */
  lemma SegmentKept(s: State, t: State, x: SegId, seg: Segment, g: SegId)
    requires Kept(s) && x in s.segs && seg.state == s.segs[x].state && seg.owner == s.segs[x].owner
    requires t.segs == s.segs[x := seg] && Apart(s.(segs := t.segs), t)
    ensures Kept(t) && Rides(s, t, g) && Steady(s, t, g)
  {
  }

  lemma WriterStep(cfg: Config, s: State, b: WriterOp, g: SegId)
    requires Kept(s) && WriterEnabled(cfg, s, b)
    ensures var t := WriterApply(cfg, s, b); Kept(t) && Rides(s, t, g) && Steady(s, t, g)
  {
    hide Kept, Rides, Steady;
    if b.Append? {
      AppendStep(cfg, s, b.w, b.seg, g);
    } else {
      ApartKeeps(s, WriterApply(cfg, s, b), g);
    }
  }

  lemma OpenStep(cfg: Config, s: State, g: SegId)
    requires Kept(s)
    ensures var t := ShardApply(cfg, s, OpenSegment); Kept(t) && Rides(s, t, g) && Steady(s, t, g)
  {
  }

  lemma StampStep(cfg: Config, s: State, x: SegId, g: SegId)
    requires Graced(cfg) && Kept(s) && ShardEnabled(cfg, s, Stamp(x))
    ensures var t := ShardApply(cfg, s, Stamp(x));
            Kept(t) && Rides(s, t, g) && t.stamps[x] == t.published && (x != g ==> Steady(s, t, g))
  {
  }

  lemma SealStep(cfg: Config, s: State, x: SegId, g: SegId)
    requires Graced(cfg) && Kept(s) && ShardEnabled(cfg, s, Seal(x))
    ensures var t := ShardApply(cfg, s, Seal(x)); Kept(t) && Rides(s, t, g) && Steady(s, t, g)
  {
  }

  lemma PruneStep(cfg: Config, s: State, g: SegId)
    requires Graced(cfg) && Kept(s)
    ensures var t := ShardApply(cfg, s, Prune); Kept(t) && Rides(s, t, g) && Steady(s, t, g)
  {
  }

  lemma ShardStep(cfg: Config, s: State, b: ShardOp, g: SegId)
    requires Graced(cfg) && Kept(s) && ShardEnabled(cfg, s, b)
    ensures var t := ShardApply(cfg, s, b);
            && Kept(t) && Rides(s, t, g)
            && (if b == Stamp(g) then g in t.stamps && t.stamps[g] == t.published else Steady(s, t, g))
  {
    hide Kept, Rides, Steady;
    match b
    case OpenSegment => OpenStep(cfg, s, g);
    case Stamp(x) => StampStep(cfg, s, x, g);
    case Seal(x) => SealStep(cfg, s, x, g);
    case Prune => PruneStep(cfg, s, g);
  }

  /** Only the checkpoint's counters moved, and never back. */
  lemma CountersKept(s: State, t: State, g: SegId)
    requires Kept(s) && t.published >= s.published
    requires t.nsGen == if t.ck.Rooted? then t.published + 1 else t.published
    requires t.segs == s.segs && t.nextSeg == s.nextSeg && t.gens == s.gens && t.stamps == s.stamps && t.co == s.co
    ensures Kept(t) && Rides(s, t, g)
  {
  }

  lemma CheckpointStep(cfg: Config, s: State, b: CheckpointOp, g: SegId)
    requires Kept(s) && CheckpointEnabled(cfg, s, b)
    ensures var t := CheckpointApply(cfg, s, b); Kept(t) && Rides(s, t, g)
  {
    assert s.nsGen == (if s.ck.Rooted? then s.published + 1 else s.published);
    hide Kept, Rides;
    CountersKept(s, CheckpointApply(cfg, s, b), g);
  }

  lemma MarkStep(cfg: Config, s: State, b: MarkOp, g: SegId)
    requires Kept(s) && MarkEnabled(cfg, s, b)
    ensures var t := MarkApply(cfg, s, b); Kept(t) && Rides(s, t, g) && Steady(s, t, g)
  {
    hide Kept, Rides, Steady;
    ApartKeeps(s, MarkApply(cfg, s, b), g);
  }

  lemma ScanStep(cfg: Config, s: State, b: ScanOp, g: SegId)
    requires Kept(s) && ScanEnabled(cfg, s, b)
    ensures var t := ScanApply(cfg, s, b); Kept(t) && Rides(s, t, g) && Steady(s, t, g)
  {
    hide Kept, Rides, Steady;
    ApartKeeps(s, ScanApply(cfg, s, b), g);
  }

  ghost predicate Repacks(cfg: Config, s: State, b: RepackOp, g: SegId)
    requires RepackEnabled(cfg, s, b)
  {
    var t := RepackApply(cfg, s, b);
    Kept(t) && Rides(s, t, g) && (Filled(s, g) && NotCopied(s, g) ==> Steady(s, t, g))
  }

  lemma PickStep(cfg: Config, s: State, x: SegId, elsewhere: set<nat>, g: SegId)
    requires Graced(cfg) && Kept(s) && RepackEnabled(cfg, s, Pick(x, elsewhere))
    ensures Repacks(cfg, s, Pick(x, elsewhere), g)
  {
  }

  lemma CopyMade(s: State, records: seq<Hash>, d: Daemon, g: SegId)
    requires Kept(s) && d.Repacking? && d.job.copy == [s.nextSeg]
    ensures var t := s.(segs := s.segs[s.nextSeg := Segment(records, Open, Repack)], nextSeg := s.nextSeg + 1, co := d);
            Kept(t) && Rides(s, t, g) && Steady(s, t, g)
  {
  }

  lemma CopyStep(cfg: Config, s: State, g: SegId)
    requires Kept(s) && RepackEnabled(cfg, s, CopyForward)
    ensures Repacks(cfg, s, CopyForward, g)
  {
    hide Kept, Rides, Steady, AfterRemoval, JobDead;
    var t := RepackApply(cfg, s, CopyForward);
    if s.co.job.keep == [] {
      ApartKeeps(s, t, g);
    } else {
      CopyMade(s, t.segs[s.nextSeg].records, t.co, g);
    }
  }

  lemma StampCopyStep(cfg: Config, s: State, g: SegId)
    requires Kept(s) && RepackEnabled(cfg, s, StampCopy)
    ensures Repacks(cfg, s, StampCopy, g)
  {
  }

  lemma SealCopyStep(cfg: Config, s: State, g: SegId)
    requires Kept(s) && RepackEnabled(cfg, s, SealCopy)
    ensures Repacks(cfg, s, SealCopy, g)
  {
  }

  lemma DeleteStep(cfg: Config, s: State, g: SegId)
    requires Kept(s) && RepackEnabled(cfg, s, Delete)
    ensures Repacks(cfg, s, Delete, g)
  {
  }

  predicate InPlace(b: RepackOp) {
    !b.Pick? && !b.CopyForward? && !b.StampCopy? && !b.SealCopy? && !b.Delete?
  }

  lemma RepointApart(s: State)
    requires AtStage(s) && s.co.job.stage.Repointing?
    requires s.co.job.stage.done < |s.co.job.keep| ==>
               |s.co.job.copy| == 1 && s.co.job.keep[s.co.job.stage.done] < |s.segs[s.co.job.seg].records|
    ensures Apart(s, RepointNext(s))
  {
    hide JobDead, AfterRemoval;
  }

  lemma RemoveApart(s: State, h: Hash)
    requires s.co.Repacking? && s.co.job.stage.Removing?
    ensures Apart(s, RemoveDead(s, h))
  {
    hide JobDead, AfterRemoval;
  }

  lemma StageApart(s: State, st: Stage)
    requires s.co.Repacking?
    ensures Apart(s, WithStage(s, st))
  {
  }

  lemma GateApart(cfg: Config, s: State, b: RepackOp)
    requires RepackEnabled(cfg, s, b) && (b.LoadGeneration? || b.TestPin?)
    ensures Apart(s, RepackApply(cfg, s, b))
  {
    hide GateState, WithStage, Apart;
    forall st
      ensures Apart(s, WithStage(s, st))
    {
      StageApart(s, st);
    }
  }

  lemma OtherApart(cfg: Config, s: State, b: RepackOp)
    requires RepackEnabled(cfg, s, b) && (b.Recheck? || b.PutBack?)
    ensures Apart(s, RepackApply(cfg, s, b))
  {
    hide RecheckKeep;
  }

  lemma InPlaceApart(cfg: Config, s: State, b: RepackOp)
    requires RepackEnabled(cfg, s, b) && InPlace(b)
    ensures Apart(s, RepackApply(cfg, s, b))
  {
    hide JobDead, AfterRemoval, RecheckKeep, GateState, RepointNext, RemoveDead, Apart;
    if b.Repoint? {
      RepointApart(s);
    } else if b.RemoveOne? {
      RemoveApart(s, b.h);
    } else if b.LoadGeneration? || b.TestPin? {
      GateApart(cfg, s, b);
    } else {
      OtherApart(cfg, s, b);
    }
  }

  lemma InPlaceStep(cfg: Config, s: State, b: RepackOp, g: SegId)
    requires Kept(s) && RepackEnabled(cfg, s, b) && InPlace(b)
    ensures Repacks(cfg, s, b, g)
  {
    InPlaceApart(cfg, s, b);
    hide Kept, Rides, Steady, RepackEnabled, RepackApply, Apart;
    ApartKeeps(s, RepackApply(cfg, s, b), g);
  }

  lemma RepackStep(cfg: Config, s: State, b: RepackOp, g: SegId)
    requires Graced(cfg) && Kept(s) && RepackEnabled(cfg, s, b)
    ensures Repacks(cfg, s, b, g)
  {
    hide Kept, RepackEnabled, Repacks;
    match b
    case Pick(x, elsewhere) => PickStep(cfg, s, x, elsewhere, g);
    case CopyForward => CopyStep(cfg, s, g);
    case StampCopy => StampCopyStep(cfg, s, g);
    case SealCopy => SealCopyStep(cfg, s, g);
    case Delete => DeleteStep(cfg, s, g);
    case _ => InPlaceStep(cfg, s, b, g);
  }

  /** Every step keeps what is told, of every append already in the run. */
  lemma OldAppend(cfg: Config, run: seq<Step>, s: State, b: Step, a: nat, g: SegId)
    requires Graced(cfg) && Kept(s) && Enabled(cfg, s, b)
    ensures var t := Apply(cfg, s, b);
            Kept(t) && (a < |run| && Filled(s, g) && NotCopied(s, g) && Aged(run, s, g, a) ==>
                          Filled(t, g) && NotCopied(t, g) && Aged(run + [b], t, g, a))
  {
    hide Aged, Kept, Filled, NotCopied, WriterEnabled, ShardEnabled, CheckpointEnabled, MarkEnabled, RepackEnabled,
         ScanEnabled,
         WriterApply, ShardApply, CheckpointApply, MarkApply, RepackApply, ScanApply;
    match b {
      case ByWriter(c) => WriterStep(cfg, s, c, g);
      case ByShard(c) => ShardStep(cfg, s, c, g);
      case ByCheckpoint(c) => CheckpointStep(cfg, s, c, g);
      case ByMark(c) => MarkStep(cfg, s, c, g);
      case ByRepack(c) => RepackStep(cfg, s, c, g);
      case ByScan(c) => ScanStep(cfg, s, c, g);
    }
    var t := Apply(cfg, s, b);
    if a < |run| && Filled(s, g) && NotCopied(s, g) && Aged(run, s, g, a) {
      if b.ByCheckpoint? {
        AgedCheckpoint(cfg, run, s, b.checkpoint, g, a);
      } else if b == ByShard(Stamp(g)) {
        AgedNow(run + [b], t, g, a);
      } else {
        AgedStays(run, s, b, t, g, a);
      }
    }
  }

  lemma AgedNow(run: seq<Step>, s: State, g: SegId, a: nat)
    requires g in s.stamps ==> s.stamps[g] == s.published
    ensures Aged(run, s, g, a)
  {
  }

  lemma NewAppend(cfg: Config, run: seq<Step>, s: State, b: WriterOp, g: SegId)
    requires Kept(s) && WriterEnabled(cfg, s, b) && b.Append? && b.seg == g
    ensures var t := WriterApply(cfg, s, b); Filled(t, g) && NotCopied(t, g) && Aged(run, t, g, |run|)
  {
  }

  lemma ToldStep(cfg: Config, run: seq<Step>, s: State, b: Step)
    requires Graced(cfg) && Told(run, s) && Enabled(cfg, s, b)
    ensures Told(run + [b], Apply(cfg, s, b))
  {
    hide Enabled, Apply, Filled, NotCopied, Aged, Kept;
    OldAppend(cfg, run, s, b, 0, 0);
    var t := Apply(cfg, s, b);
    forall a: nat, g | AppendAt(run + [b], a, g)
      ensures Filled(t, g) && NotCopied(t, g) && Aged(run + [b], t, g, a)
    {
      if a < |run| {
        assert AppendAt(run, a, g);
        OldAppend(cfg, run, s, b, a, g);
      } else {
        LastAppend(cfg, run, s, b, g);
      }
    }
  }

  lemma LastAppend(cfg: Config, run: seq<Step>, s: State, b: Step, g: SegId)
    requires Kept(s) && Enabled(cfg, s, b) && b.ByWriter? && b.writer.Append? && b.writer.seg == g
    ensures var t := Apply(cfg, s, b); Filled(t, g) && NotCopied(t, g) && Aged(run + [b], t, g, |run|)
  {
    hide Aged;
    NewAppend(cfg, run, s, b.writer, g);
    AgedStays(run, Apply(cfg, s, b), b, Apply(cfg, s, b), g, |run|);
  }

  lemma {:induction false} ToldRun(cfg: Config, past: seq<Step>, s: State, run: seq<Step>)
    requires Graced(cfg) && Told(past, s) && Runs(cfg, s, run)
    ensures Told(past + run, Final(cfg, s, run))
    decreases |run|
  {
    hide Told, Enabled, Apply;
    if run == [] {
      assert past + run == past;
    } else {
      ToldStep(cfg, past, s, run[0]);
      ToldRun(cfg, past + [run[0]], Apply(cfg, s, run[0]), run[1..]);
      assert past + [run[0]] + run[1..] == past + run;
    }
  }

  // ---------------------------------------------------------------------------------------------
  // The grace period.
  // ---------------------------------------------------------------------------------------------

  /**
   Stamp before seal and two checkpoints of grace are all it takes: when the sweep may reclaim a segment this
   mount appended to at `a`, the last time or any other, some checkpoint began its drain later and has published.
   */
  lemma EligibleIsCheckpointed(cfg: Config, s: State, run: seq<Step>, g: SegId, a: nat)
    requires cfg.stampFirst && cfg.grace >= 2 && Init(s) && Runs(cfg, s, run)
    requires AppendAt(run, a, g)
    requires var t := Final(cfg, s, run); g in t.segs && t.segs[g].state == Sealed && MayReclaim(cfg, t, g)
    ensures exists d: nat, p: nat :: a < d < p < |run| && Published(run, d, p)
  {
    assert Told([], s);
    ToldRun(cfg, [], s, run);
    assert [] + run == run;
    var t := Final(cfg, s, run);
    assert Filled(t, g) && Aged(run, t, g, a);
    assert PublishedAfter(run, a);
  }

  /** So no record in it belongs to a write still waiting for a checkpoint. */
  lemma EligibleIsCaptured(cfg: Config, s: State, run: seq<Step>, g: SegId, w: WriteId)
    requires Sound(cfg) && Init(s) && Runs(cfg, s, run)
    requires var t := Final(cfg, s, run);
             g in t.segs && t.segs[g].state == Sealed && MayReclaim(cfg, t, g) && Pending(t, w) && t.writes[w].Fresh?
    ensures Final(cfg, s, run).writes[w].loc.seg != g
  {
    InitInv(cfg, s);
    RunInv(cfg, s, run);
    var t := Final(cfg, s, run);
    hide Init, Runs, Final;
    assert GensOk(t) && FreshOk(t);
    hide CacheOk, IdsOk, PinsOk, CheckpointOk, CopiesOk, PassOk, JobOk, ScanOk;
    assert FreshWrite(t, w);
  }
}
