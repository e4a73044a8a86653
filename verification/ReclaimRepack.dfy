/**
 What a repack copies forward, told over the run: exactly the records that are marked, or live with no other copy
 known, or pinned at the recheck.
 */
module ReclaimRepack {
  import opened ReclaimModel

  /** Every segment's id has been given out. */
  ghost predicate Numbered(s: State) {
    forall g :: g in s.segs ==> g < s.nextSeg
  }

  lemma InitNumbered(s: State)
    requires Init(s)
    ensures Numbered(s)
  {
  }

  lemma WriterNumbered(cfg: Config, s: State, b: WriterOp)
    requires Numbered(s) && WriterEnabled(cfg, s, b)
    ensures Numbered(WriterApply(cfg, s, b))
  {
  }

  lemma ShardNumbered(cfg: Config, s: State, b: ShardOp)
    requires Numbered(s) && ShardEnabled(cfg, s, b)
    ensures Numbered(ShardApply(cfg, s, b))
  {
  }

  lemma RepackNumbered(cfg: Config, s: State, b: RepackOp)
    requires Numbered(s) && RepackEnabled(cfg, s, b)
    ensures Numbered(RepackApply(cfg, s, b))
  {
    hide JobDead, AfterRemoval, GateState, RecheckKeep, SplitKeep, RecordsAt;
  }

  lemma CheckpointNumbered(cfg: Config, s: State, b: CheckpointOp)
    requires Numbered(s) && CheckpointEnabled(cfg, s, b)
    ensures Numbered(CheckpointApply(cfg, s, b))
  {
  }

  lemma MarkNumbered(cfg: Config, s: State, b: MarkOp)
    requires Numbered(s) && MarkEnabled(cfg, s, b)
    ensures Numbered(MarkApply(cfg, s, b))
  {
  }

  lemma ScanNumbered(cfg: Config, s: State, b: ScanOp)
    requires Numbered(s) && ScanEnabled(cfg, s, b)
    ensures Numbered(ScanApply(cfg, s, b))
  {
  }

  lemma StepNumbered(cfg: Config, s: State, a: Step)
    requires Numbered(s) && Enabled(cfg, s, a)
    ensures Numbered(Apply(cfg, s, a))
  {
    hide Numbered, WriterApply, WriterEnabled, ShardApply, ShardEnabled, CheckpointApply, CheckpointEnabled, MarkApply,
         MarkEnabled, RepackApply, RepackEnabled, ScanApply, ScanEnabled;
    match a
    case ByWriter(b) => WriterNumbered(cfg, s, b);
    case ByShard(b) => ShardNumbered(cfg, s, b);
    case ByRepack(b) => RepackNumbered(cfg, s, b);
    case ByCheckpoint(b) => CheckpointNumbered(cfg, s, b);
    case ByMark(b) => MarkNumbered(cfg, s, b);
    case ByScan(b) => ScanNumbered(cfg, s, b);
  }

  lemma {:induction false} RunNumbered(cfg: Config, s: State, run: seq<Step>)
    requires Numbered(s) && Runs(cfg, s, run)
    ensures Numbered(Final(cfg, s, run))
    decreases |run|
  {
    hide Numbered, Enabled, Apply;
    if run != [] {
      StepNumbered(cfg, s, run[0]);
      RunNumbered(cfg, Apply(cfg, s, run[0]), run[1..]);
    }
  }

  // ---------------------------------------------------------------------------------------------
  // While a repack is at its recheck, nobody else touches it or its segment.
  // ---------------------------------------------------------------------------------------------

  ghost predicate At(s: State, j: Job, p: Pass, seg: Segment) {
    && s.co == Repacking(p, j) && (j.stage.Splitting? || j.stage.Rechecked?)
    && j.seg in s.segs && s.segs[j.seg] == seg && seg.state == Sealed
  }

  predicate NoRepack(run: seq<Step>) {
    forall i :: 0 <= i < |run| ==> !run[i].ByRepack?
  }

  lemma WriterLeaves(cfg: Config, s: State, b: WriterOp, g: SegId)
    requires WriterEnabled(cfg, s, b) && g in s.segs && s.segs[g].state == Sealed
    ensures var t := WriterApply(cfg, s, b); t.co == s.co && g in t.segs && t.segs[g] == s.segs[g]
  {
  }

  lemma ShardLeaves(cfg: Config, s: State, b: ShardOp, g: SegId)
    requires ShardEnabled(cfg, s, b) && g in s.segs && s.segs[g].state == Sealed && g < s.nextSeg
    ensures var t := ShardApply(cfg, s, b); t.co == s.co && g in t.segs && t.segs[g] == s.segs[g]
  {
  }

  lemma OthersLeave(cfg: Config, s: State, a: Step, j: Job, p: Pass, seg: Segment)
    requires Numbered(s) && Enabled(cfg, s, a) && !a.ByRepack? && At(s, j, p, seg)
    ensures At(Apply(cfg, s, a), j, p, seg)
  {
    hide WriterApply, WriterEnabled, ShardApply, ShardEnabled;
    match a
    case ByWriter(b) => WriterLeaves(cfg, s, b, j.seg);
    case ByShard(b) => ShardLeaves(cfg, s, b, j.seg);
    case ByCheckpoint(_) =>
    case ByScan(_) =>
    case ByMark(_) =>
  }

  lemma {:induction false} OthersRun(cfg: Config, s: State, run: seq<Step>, j: Job, p: Pass, seg: Segment)
    requires Numbered(s) && Runs(cfg, s, run) && NoRepack(run) && At(s, j, p, seg)
    ensures At(Final(cfg, s, run), j, p, seg)
    decreases |run|
  {
    hide Numbered, Enabled, Apply, At;
    if run != [] {
      StepNumbered(cfg, s, run[0]);
      OthersLeave(cfg, s, run[0], j, p, seg);
      OthersRun(cfg, Apply(cfg, s, run[0]), run[1..], j, p, seg);
    }
  }

  lemma {:induction false} RunsApp(cfg: Config, s: State, a: seq<Step>, b: seq<Step>)
    requires Runs(cfg, s, a + b)
    ensures Runs(cfg, s, a) && Runs(cfg, Final(cfg, s, a), b)
            && Final(cfg, s, a + b) == Final(cfg, Final(cfg, s, a), b)
    decreases |a|
  {
    hide Enabled, Apply;
    if a == [] {
      assert a + b == b;
    } else {
      assert (a + b)[0] == a[0] && (a + b)[1..] == a[1..] + b;
      RunsApp(cfg, Apply(cfg, s, a[0]), a[1..], b);
    }
  }

  lemma OneRun(cfg: Config, s: State, a: Step)
    requires Runs(cfg, s, [a])
    ensures Enabled(cfg, s, a) && Final(cfg, s, [a]) == Apply(cfg, s, a)
  {
    assert [a][1..] == [];
  }

  // ---------------------------------------------------------------------------------------------
  // What is copied.
  // ---------------------------------------------------------------------------------------------

  /** The records kept are those marked, or live with no other copy known, or pinned. */
  ghost predicate KeepsExactly(p: Pass, g: SegId, records: seq<Hash>, elsewhere: set<nat>, pinned: set<nat>,
                               keep: seq<nat>)
  {
    forall o: nat :: o in keep <==>
      o < |records| && (Loc(g, o) in p.bits || (records[o] in p.live && o !in elsewhere) || o in pinned)
  }

  /** The new segment holds the kept records, in order, and no others; without any, there is none. */
  ghost predicate CopyIs(s: State, records: seq<Hash>, j: Job) {
    if j.keep == [] then j.copy == []
    else
      && |j.copy| == 1 && j.copy[0] in s.segs && |s.segs[j.copy[0]].records| == |j.keep|
      && forall i :: 0 <= i < |j.keep| ==>
           j.keep[i] < |records| && s.segs[j.copy[0]].records[i] == records[j.keep[i]]
  }

  lemma Picks(cfg: Config, s: State, g: SegId, elsewhere: set<nat>)
    requires Enabled(cfg, s, ByRepack(Pick(g, elsewhere)))
    ensures var t, j := Apply(cfg, s, ByRepack(Pick(g, elsewhere))),
                        Job(g, SplitKeep(s.co.pass, g, s.segs[g].records, elsewhere), [], Splitting);
            At(t, j, s.co.pass, s.segs[g])
  {
  }

  lemma Rechecks(cfg: Config, s: State, j: Job, p: Pass, seg: Segment, pinned: set<nat>)
    requires At(s, j, p, seg) && Enabled(cfg, s, ByRepack(Recheck(pinned)))
    ensures At(Apply(cfg, s, ByRepack(Recheck(pinned))),
               j.(keep := RecheckKeep(j.keep, |seg.records|, pinned), stage := Rechecked), p, seg)
  {
  }

  lemma Copies(cfg: Config, s: State, j: Job, p: Pass, seg: Segment)
    requires At(s, j, p, seg) && j.copy == [] && Enabled(cfg, s, ByRepack(CopyForward))
    ensures var t := Apply(cfg, s, ByRepack(CopyForward));
            t.co.Repacking? && t.co.job.keep == j.keep && t.co.job.seg == j.seg && CopyIs(t, seg.records, t.co.job)
  {
    hide JobDead, AfterRemoval;
  }

  lemma KeepIs(p: Pass, g: SegId, records: seq<Hash>, elsewhere: set<nat>, pinned: set<nat>)
    ensures KeepsExactly(p, g, records, elsewhere, pinned,
                         RecheckKeep(SplitKeep(p, g, records, elsewhere), |records|, pinned))
  {
  }

  /** A repack from its pick to its copy, with what others do before and meanwhile. */
  function RepackRun(before: seq<Step>, g: SegId, elsewhere: set<nat>, during: seq<Step>, pinned: set<nat>,
                     later: seq<Step>): seq<Step>
  {
    before + [ByRepack(Pick(g, elsewhere))] + during + [ByRepack(Recheck(pinned))] + later + [ByRepack(CopyForward)]
  }

  /**
   In every run, a repack from its pick to its copy, whatever others do meanwhile, copies exactly the records that
   are marked, or live with no other copy known, or pinned at the recheck: a duplicate nobody marked or pinned is
   left behind.
   */
  lemma RepackCopies(cfg: Config, s: State, before: seq<Step>, g: SegId, elsewhere: set<nat>, during: seq<Step>,
                     pinned: set<nat>, later: seq<Step>)
    requires Init(s) && NoRepack(during) && NoRepack(later)
    requires Runs(cfg, s, RepackRun(before, g, elsewhere, during, pinned, later))
    ensures Runs(cfg, s, before) && Final(cfg, s, before).co.Sweeping? && g in Final(cfg, s, before).segs
    ensures var a, t := Final(cfg, s, before), Final(cfg, s, RepackRun(before, g, elsewhere, during, pinned, later));
            && t.co.Repacking? && CopyIs(t, a.segs[g].records, t.co.job)
            && KeepsExactly(a.co.pass, g, a.segs[g].records, elsewhere, pinned, t.co.job.keep)
  {
    var pick, recheck, copy := ByRepack(Pick(g, elsewhere)), ByRepack(Recheck(pinned)), ByRepack(CopyForward);
    InitNumbered(s);
    hide Init, Numbered, Enabled, Apply, At, CopyIs, KeepsExactly;
    RunsApp(cfg, s, before + [pick] + during + [recheck] + later, [copy]);
    RunsApp(cfg, s, before + [pick] + during + [recheck], later);
    RunsApp(cfg, s, before + [pick] + during, [recheck]);
    RunsApp(cfg, s, before + [pick], during);
    RunsApp(cfg, s, before, [pick]);
    var a := Final(cfg, s, before);
    OneRun(cfg, a, pick);
    PickNeeds(cfg, a, g, elsewhere);
    var p, seg := a.co.pass, a.segs[g];
    var j := Job(g, SplitKeep(p, g, seg.records, elsewhere), [], Splitting);
    Picks(cfg, a, g, elsewhere);
    RunNumbered(cfg, s, before + [pick]);
    OthersRun(cfg, Final(cfg, s, before + [pick]), during, j, p, seg);
    var c := Final(cfg, s, before + [pick] + during);
    OneRun(cfg, c, recheck);
    Rechecks(cfg, c, j, p, seg, pinned);
    RunNumbered(cfg, s, before + [pick] + during + [recheck]);
    var k := j.(keep := RecheckKeep(j.keep, |seg.records|, pinned), stage := Rechecked);
    OthersRun(cfg, Final(cfg, s, before + [pick] + during + [recheck]), later, k, p, seg);
    var e := Final(cfg, s, before + [pick] + during + [recheck] + later);
    OneRun(cfg, e, copy);
    Copies(cfg, e, k, p, seg);
    KeepIs(p, g, seg.records, elsewhere, pinned);
  }

  lemma PickNeeds(cfg: Config, s: State, g: SegId, elsewhere: set<nat>)
    requires Enabled(cfg, s, ByRepack(Pick(g, elsewhere)))
    ensures s.co.Sweeping? && g in s.segs && s.segs[g].state == Sealed
  {
  }
}
