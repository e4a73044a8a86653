/**
 Safety of reclamation over whole runs, and the exact orderings it rests on: with all of them in force
 no interleaving loses referenced content, and dropping any one admits a run that does.
 */
module ReclaimSafety {
  import opened Basics
  import opened ReclaimModel
  import opened ReclaimInvariant
  import opened ReclaimEnvironment
  import opened ReclaimCheckpoint
  import opened ReclaimDaemon

  lemma InvIsSafe(cfg: Config, s: State)
    requires Inv(cfg, s)
    ensures Safe(s)
  {
    hide IdsOk, GensOk, FreshOk, PinsOk, CheckpointOk, PassOk, JobOk, ScanOk;
  }

  lemma StepWrite(cfg: Config, s: State, a: WriterOp)
    requires Sound(cfg) && Inv(cfg, s) && WriterEnabled(cfg, s, a)
    ensures Inv(cfg, WriterApply(cfg, s, a))
  {
    hide CacheOk, IdsOk, GensOk, FreshOk, PinsOk, CopiesOk, PassOk, JobOk, ScanOk, WriterApply;
    if PinStep(a) { StepWriter(cfg, s, a); }
    else if a.Append? { StepAppend(cfg, s, a.w, a.seg); }
  }

  lemma StepCheckpoint(cfg: Config, s: State, a: CheckpointOp)
    requires Sound(cfg) && Inv(cfg, s) && CheckpointEnabled(cfg, s, a)
    ensures Inv(cfg, CheckpointApply(cfg, s, a))
  {
    hide Inv, CheckpointApply;
    match a {
      case PublishRoot(r) => StepPublish(cfg, s, r);
      case StoreGeneration => StepStore(cfg, s);
      case Release(w) => StepRelease(cfg, s, w);
      case _ => StepPlace(cfg, s, a);
    }
  }

  lemma StepRepack(cfg: Config, s: State, a: RepackOp)
    requires Sound(cfg) && Inv(cfg, s) && RepackEnabled(cfg, s, a)
    ensures Inv(cfg, RepackApply(cfg, s, a))
  {
    hide Inv, RepackApply;
    match a {
      case Pick(g, e) => StepPick(cfg, s, g, e);
      case Recheck(p) => StepRecheck(cfg, s, p);
      case CopyForward => StepCopyForward(cfg, s);
      case StampCopy => StepStampCopy(cfg, s);
      case SealCopy => StepSealCopy(cfg, s);
      case Repoint => StepRepoint(cfg, s);
      case RemoveOne(h) => StepRemove(cfg, s, h);
      case LoadGeneration => StepGate(cfg, s, a);
      case TestPin(h) => StepGate(cfg, s, a);
      case PutBack(h) => StepPutBack(cfg, s, h);
      case Delete => StepDelete(cfg, s);
    }
  }

  /** Every step of every actor keeps the invariant. */
  lemma StepInv(cfg: Config, s: State, a: Step)
    requires Sound(cfg) && Inv(cfg, s) && Enabled(cfg, s, a)
    ensures Inv(cfg, Apply(cfg, s, a))
  {
    hide Inv;
    match a {
      case ByWriter(b) => StepWrite(cfg, s, b);
      case ByShard(b) => StepShard(cfg, s, b);
      case ByCheckpoint(b) => StepCheckpoint(cfg, s, b);
      case ByMark(b) => StepMark(cfg, s, b);
      case ByRepack(b) => StepRepack(cfg, s, b);
      case ByScan(b) => StepScan(cfg, s, b);
    }
  }

  lemma {:induction false} RunInv(cfg: Config, s: State, run: seq<Step>)
    requires Sound(cfg) && Inv(cfg, s) && Runs(cfg, s, run)
    ensures Inv(cfg, Final(cfg, s, run))
    decreases |run|
  {
    hide Inv, Apply, Enabled;
    if run != [] {
      StepInv(cfg, s, run[0]);
      RunInv(cfg, Apply(cfg, s, run[0]), run[1..]);
    }
  }

  /** In every interleaving, everything referenced keeps a copy and the cache names only real records. */
  lemma RunsAreSafe(cfg: Config, s: State, run: seq<Step>)
    requires Sound(cfg) && Init(s) && Runs(cfg, s, run)
    ensures Safe(Final(cfg, s, run))
  {
    hide Inv;
    InitInv(cfg, s);
    RunInv(cfg, s, run);
    InvIsSafe(cfg, Final(cfg, s, run));
  }

  // ---------------------------------------------------------------------------------------------
  // Each ordering is needed: a run that loses content without it.
  // ---------------------------------------------------------------------------------------------

  /**
   The steps above leave three of the daemon's findings open, so that safety holds whatever it reads
   while others run. Here they are what the daemon reads when nothing moves under it.
   */
  ghost predicate Exact(s: State, a: Step) {
    match a
    case ByMark(MarkPins(ps)) => ps == set h | h in s.pins && h in s.cache
    case ByRepack(Pick(g, elsewhere)) =>
      g in s.segs &&
      elsewhere == set o | 0 <= o < |s.segs[g].records|
                           && exists l: Loc :: l != Loc(g, o) && ValidLoc(s, s.segs[g].records[o], l)
    case ByRepack(Recheck(pinned)) =>
      && s.co.Repacking? && s.co.job.seg in s.segs
      && pinned == set o | 0 <= o < |s.segs[s.co.job.seg].records| && s.segs[s.co.job.seg].records[o] in s.pins
    case _ => true
  }

  ghost predicate ExactRun(cfg: Config, s: State, run: seq<Step>)
    decreases |run|
  {
    run == [] || (Enabled(cfg, s, run[0]) && Exact(s, run[0]) && ExactRun(cfg, Apply(cfg, s, run[0]), run[1..]))
  }

  /** `t` is what an exact run makes of `s`. */
  ghost predicate Leads(cfg: Config, s: State, run: seq<Step>, t: State) {
    Runs(cfg, s, run) && ExactRun(cfg, s, run) && Final(cfg, s, run) == t
  }

  ghost predicate Does(cfg: Config, s: State, a: Step, t: State) {
    Enabled(cfg, s, a) && Exact(s, a) && Apply(cfg, s, a) == t
  }

  lemma One(cfg: Config, s: State, a: Step, t: State)
    requires Does(cfg, s, a, t)
    ensures Leads(cfg, s, [a], t)
  {
    hide Apply, Enabled, Exact;
    var rest := [a][1..];
    assert rest == [] && [a][0] == a;
    assert Runs(cfg, t, rest) && ExactRun(cfg, t, rest) && Final(cfg, t, rest) == t;
  }

  lemma {:induction false} Then(cfg: Config, s: State, r1: seq<Step>, t: State, r2: seq<Step>, u: State)
    requires Leads(cfg, s, r1, t) && Leads(cfg, t, r2, u)
    ensures Leads(cfg, s, r1 + r2, u)
    decreases |r1|
  {
    hide Apply, Enabled, Exact;
    if r1 == [] {
      assert r1 + r2 == r2;
    } else {
      Then(cfg, Apply(cfg, s, r1[0]), r1[1..], t, r2, u);
      assert (r1 + r2)[1..] == r1[1..] + r2 && (r1 + r2)[0] == r1[0];
    }
  }

  lemma Two(cfg: Config, s: State, a: Step, t: State, b: Step, u: State)
    requires Does(cfg, s, a, t) && Does(cfg, t, b, u)
    ensures Leads(cfg, s, [a, b], u)
  {
    hide Apply, Enabled, Exact, Does, Leads;
    One(cfg, s, a, t);
    One(cfg, t, b, u);
    Then(cfg, s, [a], t, [b], u);
    assert [a] + [b] == [a, b];
  }

  /** A pass about to empty segment `g`, whose one record `h` it found dead. */
  function Doomed(s: State, g: SegId, h: Hash, r: Hash): State
    requires r in s.cache
  {
    s.(gens := s.gens - {g},
       co := Repacking(Pass(s.nsGen, {r}, {s.cache[r]}), Job(g, [], [], Removing({h}, map[]))))
  }

  ghost predicate Sweepable(cfg: Config, s: State, g: SegId, h: Hash, r: Hash) {
    && s.co.Rest? && (cfg.scanApart ==> s.scan.Quiet?) && s.nsGen == s.published
    && s.pins == multiset{}
    && s.root == {r} && r in s.cache && s.cache[r].seg != g && h != r
    && g in s.segs && s.segs[g].records == [h] && s.segs[g].state == Sealed && MayReclaim(cfg, s, g)
  }

  lemma BeginPass(cfg: Config, s: State)
    requires s.co.Rest? && (cfg.scanApart ==> s.scan.Quiet?)
    ensures Leads(cfg, s, [ByMark(StartPass)], s.(co := Marking(Pass(s.nsGen, {}, {}), s.root)))
  {
    hide Leads;
    One(cfg, s, ByMark(StartPass), s.(co := Marking(Pass(s.nsGen, {}, {}), s.root)));
  }

  lemma MarkOnly(cfg: Config, s: State, gm: nat, r: Hash)
    requires s.co == Marking(Pass(gm, {}, {}), {r}) && r in s.cache
    ensures Leads(cfg, s, [ByMark(MarkOne(r))], s.(co := Marking(Pass(gm, {r}, {s.cache[r]}), {})))
  {
    hide Leads;
    assert {} + {r} == {r} && {} + {s.cache[r]} == {s.cache[r]} && {r} - {r} == {};
    One(cfg, s, ByMark(MarkOne(r)), s.(co := Marking(Pass(gm, {r}, {s.cache[r]}), {})));
  }

  lemma MarkNoPins(cfg: Config, s: State, p: Pass)
    requires s.co == Marking(p, {}) && s.pins == multiset{} && p.live != {}
    ensures Leads(cfg, s, [ByMark(MarkPins({}))], s.(co := Sweeping(p)))
  {
    hide Leads;
    var none: set<Hash> := {};
    assert (set h | h in s.pins && h in s.cache) == none;
    assert p.live + none == p.live;
    assert Apply(cfg, s, ByMark(MarkPins(none))).co.pass.bits == p.bits;
    One(cfg, s, ByMark(MarkPins(none)), s.(co := Sweeping(p)));
  }

  lemma NothingKept(keep: seq<nat>)
    ensures keep == [] || exists o :: o in keep
  {
    if keep != [] { assert keep[0] in keep; }
  }

  lemma DeadOne(h: Hash)
    ensures DeadOf([h], []) == {h}
  {
    assert [h][0] == h && 0 !in [];
  }

  /** The segment's one record is not live, so nothing is kept of it. */
  lemma SplitNothing(cfg: Config, s: State, g: SegId, h: Hash, r: Hash, p: Pass, elsewhere: set<nat>)
    requires Sweepable(cfg, s.(co := Rest), g, h, r) && s.co == Sweeping(p) && p == Pass(s.nsGen, {r}, {s.cache[r]})
    requires Exact(s, ByRepack(Pick(g, elsewhere)))
    ensures Leads(cfg, s, [ByRepack(Pick(g, elsewhere))],
            s.(gens := s.gens - {g}, co := Repacking(p, Job(g, [], [], Splitting))))
  {
    hide Leads, Exact;
    NothingKept(SplitKeep(p, g, [h], elsewhere));
    One(cfg, s, ByRepack(Pick(g, elsewhere)), s.(gens := s.gens - {g}, co := Repacking(p, Job(g, [], [], Splitting))));
  }

  lemma RecheckNothing(cfg: Config, s: State, p: Pass, g: SegId, h: Hash)
    requires s.co == Repacking(p, Job(g, [], [], Splitting)) && g in s.segs && s.segs[g].records == [h]
             && s.pins == multiset{}
    ensures Leads(cfg, s, [ByRepack(Recheck({}))], s.(co := Repacking(p, Job(g, [], [], Rechecked))))
  {
    hide Leads;
    NothingKept(RecheckKeep([], 1, {}));
    assert (set o | 0 <= o < |s.segs[g].records| && s.segs[g].records[o] in s.pins) == {};
    One(cfg, s, ByRepack(Recheck({})), s.(co := Repacking(p, Job(g, [], [], Rechecked))));
  }

  lemma NoCopyNeeded(cfg: Config, s: State, p: Pass, g: SegId, h: Hash)
    requires s.co == Repacking(p, Job(g, [], [], Rechecked)) && g in s.segs && s.segs[g].records == [h]
    ensures Leads(cfg, s, [ByRepack(CopyForward)], s.(co := Repacking(p, Job(g, [], [], Removing({h}, map[])))))
  {
    hide Leads;
    DeadOne(h);
    One(cfg, s, ByRepack(CopyForward), s.(co := Repacking(p, Job(g, [], [], Removing({h}, map[])))));
  }

  lemma MarkRoot(cfg: Config, s: State, g: SegId, h: Hash, r: Hash) returns (run: seq<Step>)
    requires Sweepable(cfg, s, g, h, r)
    ensures Leads(cfg, s, run, s.(co := Sweeping(Pass(s.nsGen, {r}, {s.cache[r]}))))
  {
    hide Leads;
    var p := Pass(s.nsGen, {r}, {s.cache[r]});
    var s1 := s.(co := Marking(Pass(s.nsGen, {}, {}), {r}));
    var s2 := s.(co := Marking(p, {}));
    BeginPass(cfg, s);
    MarkOnly(cfg, s1, s.nsGen, r);
    MarkNoPins(cfg, s2, p);
    Then(cfg, s, [ByMark(StartPass)], s1, [ByMark(MarkOne(r))], s2);
    Then(cfg, s, [ByMark(StartPass)] + [ByMark(MarkOne(r))], s2, [ByMark(MarkPins({}))], s.(co := Sweeping(p)));
    run := [ByMark(StartPass)] + [ByMark(MarkOne(r))] + [ByMark(MarkPins({}))];
  }

  /** Mark the root, find the segment dead, and get as far as removing its record from the cache. */
  lemma ToDoomed(cfg: Config, s: State, g: SegId, h: Hash, r: Hash) returns (run: seq<Step>)
    requires Sweepable(cfg, s, g, h, r)
    ensures Leads(cfg, s, run, Doomed(s, g, h, r))
  {
    hide Leads;
    var p := Pass(s.nsGen, {r}, {s.cache[r]});
    var s1 := s.(co := Sweeping(p));
    var s2 := s.(gens := s.gens - {g}, co := Repacking(p, Job(g, [], [], Splitting)));
    var s3 := s2.(co := Repacking(p, Job(g, [], [], Rechecked)));
    var elsewhere := set o | 0 <= o < |s1.segs[g].records|
                             && exists l: Loc :: l != Loc(g, o) && ValidLoc(s1, s1.segs[g].records[o], l);
    var r1 := MarkRoot(cfg, s, g, h, r);
    SplitNothing(cfg, s1, g, h, r, p, elsewhere);
    RecheckNothing(cfg, s2, p, g, h);
    NoCopyNeeded(cfg, s3, p, g, h);
    Then(cfg, s, r1, s1, [ByRepack(Pick(g, elsewhere))], s2);
    Then(cfg, s, r1 + [ByRepack(Pick(g, elsewhere))], s2, [ByRepack(Recheck({}))], s3);
    Then(cfg, s, r1 + [ByRepack(Pick(g, elsewhere))] + [ByRepack(Recheck({}))], s3, [ByRepack(CopyForward)],
         Doomed(s, g, h, r));
    run := r1 + [ByRepack(Pick(g, elsewhere))] + [ByRepack(Recheck({}))] + [ByRepack(CopyForward)];
  }

  function Uncached(s: State, g: SegId, h: Hash): map<Hash, Loc> {
    if h in s.cache && s.cache[h].seg == g then s.cache - {h} else s.cache
  }

  lemma RemoveOnly(cfg: Config, s: State, p: Pass, g: SegId, h: Hash) returns (removed: map<Hash, Loc>)
    requires s.co == Repacking(p, Job(g, [], [], Removing({h}, map[]))) && g in s.segs && s.segs[g].records == [h]
    ensures Leads(cfg, s, [ByRepack(RemoveOne(h))],
                  s.(cache := Uncached(s, g, h), co := Repacking(p, Job(g, [], [], Gate(false, {h}, removed)))))
    ensures removed == if h in s.cache && s.cache[h].seg == g then map[h := s.cache[h]] else map[]
  {
    hide Leads;
    removed := if h in s.cache && s.cache[h].seg == g then map[h := s.cache[h]] else map[];
    DeadOne(h);
    assert {h} - {h} == {};
    One(cfg, s, ByRepack(RemoveOne(h)), s.(cache := Uncached(s, g, h),
        co := Repacking(p, Job(g, [], [], Gate(false, {h}, removed)))));
  }

  lemma TestPasses(cfg: Config, s: State, p: Pass, g: SegId, h: Hash, genOk: bool, removed: map<Hash, Loc>)
    requires s.co == Repacking(p, Job(g, [], [], Gate(genOk, {h}, removed))) && s.pins == multiset{}
             && (cfg.pinsFirst || genOk)
    ensures Leads(cfg, s, [ByRepack(TestPin(h))], s.(co := Repacking(p, Job(g, [], [], GateState(genOk, {}, removed)))))
  {
    hide Leads;
    assert {h} - {h} == {};
    One(cfg, s, ByRepack(TestPin(h)), s.(co := Repacking(p, Job(g, [], [], GateState(genOk, {}, removed)))));
  }

  lemma LoadPasses(cfg: Config, s: State, p: Pass, g: SegId, left: set<Hash>, removed: map<Hash, Loc>)
    requires s.co == Repacking(p, Job(g, [], [], Gate(false, left, removed))) && s.published == p.gm
    requires cfg.pinsFirst ==> left == {}
    ensures Leads(cfg, s, [ByRepack(LoadGeneration)], s.(co := Repacking(p,
            Job(g, [], [], GateState(true, left, removed)))))
  {
    hide Leads;
    One(cfg, s, ByRepack(LoadGeneration), s.(co := Repacking(p, Job(g, [], [], GateState(true, left, removed)))));
  }

  lemma GatePasses(cfg: Config, s: State, p: Pass, g: SegId, h: Hash, removed: map<Hash, Loc>) returns (run: seq<Step>)
    requires s.co == Repacking(p, Job(g, [], [], Gate(false, {h}, removed))) && s.published == p.gm
             && s.pins == multiset{}
    ensures Leads(cfg, s, run, s.(co := Repacking(p, Job(g, [], [], Cleared))))
  {
    hide Leads;
    var done := s.(co := Repacking(p, Job(g, [], [], Cleared)));
    if cfg.pinsFirst {
      var mid := s.(co := Repacking(p, Job(g, [], [], Gate(false, {}, removed))));
      TestPasses(cfg, s, p, g, h, false, removed);
      LoadPasses(cfg, mid, p, g, {}, removed);
      Then(cfg, s, [ByRepack(TestPin(h))], mid, [ByRepack(LoadGeneration)], done);
      run := [ByRepack(TestPin(h))] + [ByRepack(LoadGeneration)];
    } else {
      var mid := s.(co := Repacking(p, Job(g, [], [], Gate(true, {h}, removed))));
      LoadPasses(cfg, s, p, g, {h}, removed);
      TestPasses(cfg, mid, p, g, h, true, removed);
      Then(cfg, s, [ByRepack(LoadGeneration)], mid, [ByRepack(TestPin(h))], done);
      run := [ByRepack(LoadGeneration)] + [ByRepack(TestPin(h))];
    }
  }

  lemma DeleteCleared(cfg: Config, s: State, p: Pass, g: SegId)
    requires s.co == Repacking(p, Job(g, [], [], Cleared)) && g in s.segs
    ensures Leads(cfg, s, [ByRepack(Delete)], s.(segs := s.segs - {g}, co := Sweeping(p)))
  {
    One(cfg, s, ByRepack(Delete), s.(segs := s.segs - {g}, co := Sweeping(p)));
  }

  /** A whole pass over one dead segment. */
  lemma Sweep(cfg: Config, s: State, g: SegId, h: Hash, r: Hash) returns (run: seq<Step>, t: State)
    requires Sweepable(cfg, s, g, h, r)
    ensures Leads(cfg, s, run, t)
    ensures t == s.(gens := s.gens - {g}, segs := s.segs - {g}, co := t.co, cache := Uncached(s, g, h))
  {
    hide Leads, Uncached;
    var p := Pass(s.nsGen, {r}, {s.cache[r]});
    var d := Doomed(s, g, h, r);
    var r1 := ToDoomed(cfg, s, g, h, r);
    var removed := RemoveOnly(cfg, d, p, g, h);
    SameUncached(s, d, g, h);
    var s1 := d.(cache := Uncached(s, g, h), co := Repacking(p, Job(g, [], [], Gate(false, {h}, removed))));
    var r2 := GatePasses(cfg, s1, p, g, h, removed);
    var s2 := s1.(co := Repacking(p, Job(g, [], [], Cleared)));
    DeleteCleared(cfg, s2, p, g);
    t := s2.(segs := s.segs - {g}, co := Sweeping(p));
    Then(cfg, s, r1, d, [ByRepack(RemoveOne(h))], s1);
    Then(cfg, s, r1 + [ByRepack(RemoveOne(h))], s1, r2, s2);
    Then(cfg, s, r1 + [ByRepack(RemoveOne(h))] + r2, s2, [ByRepack(Delete)], t);
    run := r1 + [ByRepack(RemoveOne(h))] + r2 + [ByRepack(Delete)];
  }

  lemma SameUncached(s: State, d: State, g: SegId, h: Hash)
    requires d.cache == s.cache
    ensures Uncached(d, g, h) == Uncached(s, g, h)
  {
  }

  /** A mount with two sealed segments: record 1 alone in segment 0, record 0, which the root reaches, in 1. */
  function Mounted(): State {
    State(map[0 := Segment([1], Sealed, Shard), 1 := Segment([0], Sealed, Shard)], 2,
          map[0 := Loc(1, 0), 1 := Loc(0, 0)], map[], multiset{}, {0}, 0, 0, map[], map[], Idle, Rest, Quiet)
  }

  lemma MountedInit()
    ensures Init(Mounted())
  {
    assert ValidLoc(Mounted(), 0, Loc(1, 0)) && ValidLoc(Mounted(), 1, Loc(0, 0));
  }

  /** What a lost record looks like: referenced, and nowhere. */
  lemma Lost(s: State, h: Hash)
    requires Referenced(s, h) && (forall g, o :: g in s.segs && 0 <= o < |s.segs[g].records| ==>
             s.segs[g].records[o] != h)
    ensures !Safe(s) && !HasCopy(s, h)
  {
    assert !HasCopy(s, h) by {
      forall l: Loc ensures !ValidLoc(s, h, l) {}
    }
  }

  /** Looking up before pinning: a sweep between the two deletes what the lookup found. */
  lemma LookFirstLoses(cfg: Config) returns (s: State, run: seq<Step>, t: State)
    requires !cfg.pinFirst
    ensures Init(s) && Leads(cfg, s, run, t) && !Safe(t)
  {
    hide Leads, Safe, Init;
    MountedInit();
    s := Mounted();
    var s1 := s.(writes := map[0 := Found(1)]);
    One(cfg, s, ByWriter(LookFirst(0, 1)), s1);
    assert Sweepable(cfg, s1, 0, 1, 0);
    var r2, s2 := Sweep(cfg, s1, 0, 1, 0);
    t := s2.(writes := map[0 := Hit(1)], pins := multiset{1});
    One(cfg, s2, ByWriter(PinLate(0)), t);
    Then(cfg, s, [ByWriter(LookFirst(0, 1))], s1, r2, s2);
    Then(cfg, s, [ByWriter(LookFirst(0, 1))] + r2, s2, [ByWriter(PinLate(0))], t);
    run := [ByWriter(LookFirst(0, 1))] + r2 + [ByWriter(PinLate(0))];
    assert Pending(t, 0) && t.writes[0].h == 1;
    Lost(t, 1);
  }

  /** A fresh record 5, written by write 0 into the new segment 2. */
  function Written(s: State): State {
    s.(segs := s.segs[2 := Segment([5], Open, Shard)], nextSeg := 3, cache := s.cache[5 := Loc(2, 0)],
       writes := map[0 := Fresh(5, Loc(2, 0))])
  }

  lemma OpenAndPin(cfg: Config, s: State)
    requires s.nextSeg == 2 && s.writes == map[]
    ensures Leads(cfg, s, [ByShard(OpenSegment), ByWriter(Pin(0, 5))],
                  s.(segs := s.segs[2 := Segment([], Open, Shard)], nextSeg := 3, writes := map[0 := Pinned(5)],
                     pins := s.pins + multiset{5}))
  {
    hide Leads;
    var s1 := s.(segs := s.segs[2 := Segment([], Open, Shard)], nextSeg := 3);
    Two(cfg, s, ByShard(OpenSegment), s1, ByWriter(Pin(0, 5)),
        s1.(writes := map[0 := Pinned(5)], pins := s.pins + multiset{5}));
  }

  lemma Miss(cfg: Config, s: State, pins: multiset<Hash>)
    requires s.writes == map[0 := Pinned(5)] && 5 !in s.cache && s.pins == pins + multiset{5}
    ensures Leads(cfg, s, [ByWriter(LookMiss(0))], s.(writes := map[0 := Missed(5)], pins := pins))
  {
    hide Leads;
    One(cfg, s, ByWriter(LookMiss(0)), s.(writes := map[0 := Missed(5)], pins := pins));
  }

  lemma AppendFive(cfg: Config, s: State)
    requires 2 in s.segs && s.segs[2] == Segment([], Open, Shard) && s.writes == map[0 := Missed(5)]
    ensures Leads(cfg, s, [ByWriter(Append(0, 2))],
                  s.(segs := s.segs[2 := Segment([5], Open, Shard)], cache := s.cache[5 := Loc(2, 0)],
                     writes := map[0 := Fresh(5, Loc(2, 0))]))
  {
    hide Leads;
    assert [] + [5] == [5];
    One(cfg, s, ByWriter(Append(0, 2)), s.(segs := s.segs[2 := Segment([5], Open, Shard)],
        cache := s.cache[5 := Loc(2, 0)],
                                 writes := map[0 := Fresh(5, Loc(2, 0))]));
  }

  lemma WriteFresh(cfg: Config, s: State) returns (run: seq<Step>)
    requires s.nextSeg == 2 && s.writes == map[] && 5 !in s.cache
    ensures Leads(cfg, s, run, Written(s))
  {
    hide Leads;
    var s1 := s.(segs := s.segs[2 := Segment([], Open, Shard)], nextSeg := 3, writes := map[0 := Pinned(5)],
                 pins := s.pins + multiset{5});
    var s2 := s1.(writes := map[0 := Missed(5)], pins := s.pins);
    OpenAndPin(cfg, s);
    Miss(cfg, s1, s.pins);
    AppendFive(cfg, s2);
    assert s1.segs[2 := Segment([5], Open, Shard)] == s.segs[2 := Segment([5], Open, Shard)];
    Then(cfg, s, [ByShard(OpenSegment), ByWriter(Pin(0, 5))], s1, [ByWriter(LookMiss(0))], s2);
    Then(cfg, s, [ByShard(OpenSegment), ByWriter(Pin(0, 5))] + [ByWriter(LookMiss(0))], s2, [ByWriter(Append(0, 2))],
         Written(s));
    run := [ByShard(OpenSegment), ByWriter(Pin(0, 5))] + [ByWriter(LookMiss(0))] + [ByWriter(Append(0, 2))];
  }

  /** Stamping after the seal: in between, the segment looks older than the mount. */
  lemma SealFirstLoses(cfg: Config) returns (s: State, run: seq<Step>, t: State)
    requires !cfg.stampFirst
    ensures Init(s) && Leads(cfg, s, run, t) && !Safe(t)
  {
    hide Leads, Safe, Init;
    MountedInit();
    s := Mounted();
    var r1 := WriteFresh(cfg, s);
    var s1 := Written(s);
    var s2 := s1.(segs := s1.segs[2 := Segment([5], Sealed, Shard)]);
    One(cfg, s1, ByShard(Seal(2)), s2);
    assert Sweepable(cfg, s2, 2, 5, 0);
    var r3;
    r3, t := Sweep(cfg, s2, 2, 5, 0);
    Then(cfg, s, r1, s1, [ByShard(Seal(2))], s2);
    Then(cfg, s, r1 + [ByShard(Seal(2))], s2, r3, t);
    run := r1 + [ByShard(Seal(2))] + r3;
    assert Pending(t, 0) && t.writes[0].h == 5;
    Lost(t, 5);
  }

  lemma StampAndSeal(cfg: Config, s: State)
    requires cfg.stampFirst && s.published == 0 && s.stamps == map[]
    requires 2 in s.segs && s.segs[2] == Segment([5], Open, Shard)
    ensures Leads(cfg, s, [ByShard(Stamp(2)), ByShard(Seal(2))],
                  s.(segs := s.segs[2 := Segment([5], Sealed, Shard)], gens := s.gens[2 := 0], stamps := map[2 := 0]))
  {
    hide Leads;
    var s1 := s.(segs := s.segs[2 := Segment([5], Closing, Shard)], gens := s.gens[2 := 0], stamps := map[2 := 0]);
    assert s1.segs[2 := Segment([5], Sealed, Shard)] == s.segs[2 := Segment([5], Sealed, Shard)];
    Two(cfg, s, ByShard(Stamp(2)), s1, ByShard(Seal(2)), s1.(segs := s.segs[2 := Segment([5], Sealed, Shard)]));
  }

  lemma ShowRoot(cfg: Config, s: State, ws: set<WriteId>, root: set<Hash>)
    requires s.ck == Draining(ws, ws) && root <= s.root + (set w | w in ws && w in s.writes :: s.writes[w].h)
    ensures Leads(cfg, s, [ByCheckpoint(PublishRoot(root))], s.(root := root, nsGen := s.nsGen + 1, ck := Rooted(ws)))
  {
    hide Leads;
    One(cfg, s, ByCheckpoint(PublishRoot(root)), s.(root := root, nsGen := s.nsGen + 1, ck := Rooted(ws)));
  }

  lemma StoreIt(cfg: Config, s: State, ws: set<WriteId>)
    requires s.ck == Rooted(ws) && (cfg.exclusive ==> s.co.Rest?)
    ensures Leads(cfg, s, [ByCheckpoint(StoreGeneration)], s.(published := s.nsGen, ck := Stored(ws)))
  {
    hide Leads;
    One(cfg, s, ByCheckpoint(StoreGeneration), s.(published := s.nsGen, ck := Stored(ws)));
  }

  /** A checkpoint that has captured `ws` publishes `root`. */
  lemma Publish(cfg: Config, s: State, ws: set<WriteId>, root: set<Hash>)
    requires s.ck == Draining(ws, ws) && (cfg.exclusive ==> s.co.Rest?)
    requires root <= s.root + (set w | w in ws && w in s.writes :: s.writes[w].h)
    ensures Leads(cfg, s, [ByCheckpoint(PublishRoot(root))] + [ByCheckpoint(StoreGeneration)],
                  s.(root := root, nsGen := s.nsGen + 1, published := s.nsGen + 1, ck := Stored(ws)))
  {
    hide Leads;
    var s1 := s.(root := root, nsGen := s.nsGen + 1, ck := Rooted(ws));
    ShowRoot(cfg, s, ws, root);
    StoreIt(cfg, s1, ws);
    Then(cfg, s, [ByCheckpoint(PublishRoot(root))], s1, [ByCheckpoint(StoreGeneration)],
         s1.(published := s.nsGen + 1, ck := Stored(ws)));
  }

  lemma SealAndPublish(cfg: Config, s: State) returns (run: seq<Step>, t: State)
    requires cfg.stampFirst && s.co.Rest? && s.ck == Draining({}, {}) && s.published == s.nsGen == 0
             && s.stamps == map[]
    requires 2 in s.segs && s.segs[2] == Segment([5], Open, Shard) && s.root == {0}
    ensures Leads(cfg, s, run, t)
    ensures t == s.(segs := s.segs[2 := Segment([5], Sealed, Shard)], gens := s.gens[2 := 0], stamps := map[2 := 0],
                    nsGen := 1, published := 1, ck := Idle)
  {
    hide Leads;
    var s1 := s.(segs := s.segs[2 := Segment([5], Sealed, Shard)], gens := s.gens[2 := 0], stamps := map[2 := 0]);
    var s2 := s1.(nsGen := 1, published := 1, ck := Stored({}));
    t := s2.(ck := Idle);
    StampAndSeal(cfg, s);
    Publish(cfg, s1, {}, {0});
    One(cfg, s2, ByCheckpoint(EndCheckpoint), t);
    Then(cfg, s, [ByShard(Stamp(2)), ByShard(Seal(2))], s1,
         ([ByCheckpoint(PublishRoot({0}))] + [ByCheckpoint(StoreGeneration)]), s2);
    Then(cfg, s, [ByShard(Stamp(2)), ByShard(Seal(2))]
         + ([ByCheckpoint(PublishRoot({0}))] + [ByCheckpoint(StoreGeneration)]), s2, [ByCheckpoint(EndCheckpoint)], t);
    run := [ByShard(Stamp(2)), ByShard(Seal(2))] + ([ByCheckpoint(PublishRoot({0}))]
      + [ByCheckpoint(StoreGeneration)]) + [ByCheckpoint(EndCheckpoint)];
  }

  /** One checkpoint of grace: it may have drained before the record was written. */
  lemma ShortGraceLoses(cfg: Config) returns (s: State, run: seq<Step>, t: State)
    requires cfg.stampFirst && cfg.grace < 2
    ensures Init(s) && Leads(cfg, s, run, t) && !Safe(t)
  {
    hide Leads, Safe, Init;
    MountedInit();
    s := Mounted();
    var s1 := s.(ck := Draining({}, {}));
    assert DoneWrites(s) == {};
    One(cfg, s, ByCheckpoint(Drain), s1);
    var r1 := WriteFresh(cfg, s1);
    var r2, s2 := SealAndPublish(cfg, Written(s1));
    assert Sweepable(cfg, s2, 2, 5, 0);
    var r3;
    r3, t := Sweep(cfg, s2, 2, 5, 0);
    Then(cfg, s, [ByCheckpoint(Drain)], s1, r1, Written(s1));
    Then(cfg, s, [ByCheckpoint(Drain)] + r1, Written(s1), r2, s2);
    Then(cfg, s, [ByCheckpoint(Drain)] + r1 + r2, s2, r3, t);
    run := [ByCheckpoint(Drain)] + r1 + r2 + r3;
    assert Pending(t, 0) && t.writes[0].h == 5;
    Lost(t, 5);
  }

  lemma DrainHit(cfg: Config, s: State)
    requires s.writes == map[0 := Hit(1)] && s.ck.Idle?
    ensures Leads(cfg, s, [ByCheckpoint(Drain), ByCheckpoint(Capture(0))], s.(ck := Draining({0}, {0})))
  {
    hide Leads;
    assert DoneWrites(s) == {0} && {} + {0} == {0};
    Two(cfg, s, ByCheckpoint(Drain), s.(ck := Draining({0}, {})), ByCheckpoint(Capture(0)),
        s.(ck := Draining({0}, {0})));
  }

  lemma ReleaseHit(cfg: Config, s: State)
    requires s.writes == map[0 := Hit(1)] && s.pins == multiset{1} && s.ck == Stored({0})
    ensures Leads(cfg, s, [ByCheckpoint(Release(0))] + [ByCheckpoint(EndCheckpoint)],
            s.(writes := map[], pins := multiset{}, ck := Idle))
  {
    hide Leads;
    var s1 := s.(writes := map[], pins := multiset{}, ck := Stored({}));
    ReleaseZero(cfg, s);
    One(cfg, s1, ByCheckpoint(EndCheckpoint), s1.(ck := Idle));
    Then(cfg, s, [ByCheckpoint(Release(0))], s1, [ByCheckpoint(EndCheckpoint)], s1.(ck := Idle));
  }

  lemma ReleaseZero(cfg: Config, s: State)
    requires s.writes == map[0 := Hit(1)] && s.pins == multiset{1} && s.ck == Stored({0})
    ensures Leads(cfg, s, [ByCheckpoint(Release(0))], s.(writes := map[], pins := multiset{}, ck := Stored({})))
  {
    hide Leads;
    assert s.writes - {0} == map[] && multiset{1} - multiset{1} == multiset{} && {0} - {0} == {};
    One(cfg, s, ByCheckpoint(Release(0)), s.(writes := map[], pins := multiset{}, ck := Stored({})));
  }

  /** A dedup hit on record 1 is captured, published, and lets its pin go. */
  lemma CheckpointHit(cfg: Config, s: State) returns (run: seq<Step>, t: State)
    requires s.writes == map[0 := Hit(1)] && s.pins == multiset{1} && s.ck.Idle? && s.root == {0}
    requires !cfg.exclusive && s.nsGen == s.published == 0
    ensures Leads(cfg, s, run, t)
    ensures t == s.(writes := map[], pins := multiset{}, root := {0, 1}, nsGen := 1, published := 1)
  {
    hide Leads;
    var s1 := s.(ck := Draining({0}, {0}));
    var s2 := s1.(root := {0, 1}, nsGen := 1, published := 1, ck := Stored({0}));
    t := s2.(writes := map[], pins := multiset{}, ck := Idle);
    DrainHit(cfg, s);
    assert 0 in s.writes && s.writes[0].h == 1;
    assert 1 in (set w | w in {0} && w in s1.writes :: s1.writes[w].h);
    Publish(cfg, s1, {0}, {0, 1});
    ReleaseHit(cfg, s2);
    Then(cfg, s, [ByCheckpoint(Drain), ByCheckpoint(Capture(0))], s1,
         ([ByCheckpoint(PublishRoot({0, 1}))] + [ByCheckpoint(StoreGeneration)]), s2);
    Then(cfg, s, [ByCheckpoint(Drain), ByCheckpoint(Capture(0))]
         + ([ByCheckpoint(PublishRoot({0, 1}))] + [ByCheckpoint(StoreGeneration)]), s2,
           ([ByCheckpoint(Release(0))] + [ByCheckpoint(EndCheckpoint)]), t);
    run := [ByCheckpoint(Drain), ByCheckpoint(Capture(0))]
      + ([ByCheckpoint(PublishRoot({0, 1}))] + [ByCheckpoint(StoreGeneration)])
        + ([ByCheckpoint(Release(0))] + [ByCheckpoint(EndCheckpoint)]);
  }

  lemma HitOne(cfg: Config, s: State)
    requires s.writes == map[] && 1 in s.cache && s.pins == multiset{}
    ensures Leads(cfg, s, [ByWriter(Pin(0, 1)), ByWriter(LookHit(0))],
            s.(writes := map[0 := Hit(1)], pins := multiset{1}))
  {
    hide Leads;
    Two(cfg, s, ByWriter(Pin(0, 1)), s.(writes := map[0 := Pinned(1)], pins := multiset{1}),
        ByWriter(LookHit(0)), s.(writes := map[0 := Hit(1)], pins := multiset{1}));
  }

  /**
   The gate as written, generation first and nothing held across it: a checkpoint that publishes and
   unpins between the two tests makes both pass, and the published root's only copy is deleted.
   */
  lemma GenerationFirstLoses(cfg: Config) returns (s: State, run: seq<Step>, t: State)
    requires !cfg.pinsFirst && !cfg.exclusive
    ensures Init(s) && Leads(cfg, s, run, t) && !Safe(t)
    ensures 1 in t.root && !HasCopy(t, 1)
  {
    hide Leads, Safe, Init, Uncached;
    MountedInit();
    s := Mounted();
    assert Sweepable(cfg, s, 0, 1, 0);
    var d := Doomed(s, 0, 1, 0);
    var p := d.co.pass;
    var r1 := ToDoomed(cfg, s, 0, 1, 0);
    var s1 := d.(writes := map[0 := Hit(1)], pins := multiset{1});
    HitOne(cfg, d);
    var removed := RemoveOnly(cfg, s1, p, 0, 1);
    var s2 := s1.(cache := Uncached(s1, 0, 1), co := Repacking(p, Job(0, [], [], Gate(false, {1}, removed))));
    var s3 := s2.(co := Repacking(p, Job(0, [], [], Gate(true, {1}, removed))));
    LoadPasses(cfg, s2, p, 0, {1}, removed);
    var r4, s4 := CheckpointHit(cfg, s3);
    TestPasses(cfg, s4, p, 0, 1, true, removed);
    var s5 := s4.(co := Repacking(p, Job(0, [], [], Cleared)));
    DeleteCleared(cfg, s5, p, 0);
    t := s5.(segs := s5.segs - {0}, co := Sweeping(p));
    Then(cfg, s, r1, d, [ByWriter(Pin(0, 1)), ByWriter(LookHit(0))], s1);
    Then(cfg, s, r1 + [ByWriter(Pin(0, 1)), ByWriter(LookHit(0))], s1, [ByRepack(RemoveOne(1))], s2);
    Then(cfg, s, r1 + [ByWriter(Pin(0, 1)), ByWriter(LookHit(0))] + [ByRepack(RemoveOne(1))], s2,
         [ByRepack(LoadGeneration)], s3);
    Then(cfg, s, r1 + [ByWriter(Pin(0, 1)), ByWriter(LookHit(0))] + [ByRepack(RemoveOne(1))]
         + [ByRepack(LoadGeneration)], s3, r4, s4);
    Then(cfg, s, r1 + [ByWriter(Pin(0, 1)), ByWriter(LookHit(0))] + [ByRepack(RemoveOne(1))]
         + [ByRepack(LoadGeneration)] + r4, s4, [ByRepack(TestPin(1))], s5);
    Then(cfg, s, r1 + [ByWriter(Pin(0, 1)), ByWriter(LookHit(0))] + [ByRepack(RemoveOne(1))]
         + [ByRepack(LoadGeneration)] + r4 + [ByRepack(TestPin(1))], s5, [ByRepack(Delete)], t);
    run := r1 + [ByWriter(Pin(0, 1)), ByWriter(LookHit(0))] + [ByRepack(RemoveOne(1))] + [ByRepack(LoadGeneration)]
      + r4 + [ByRepack(TestPin(1))] + [ByRepack(Delete)];
    Lost(t, 1);
  }

  /** `Mounted` with a second, also dead, copy of record 1, neither of them in the cache. */
  function Duplicated(): State {
    Mounted().(segs := map[0 := Segment([1], Sealed, Shard), 1 := Segment([0, 1], Sealed, Shard)],
            cache := map[0 := Loc(1, 0)])
  }

  function SeenBoth(): set<(Hash, Loc)> {
    {(1, Loc(0, 0)), (1, Loc(1, 1))}
  }

  lemma SeeOne(cfg: Config, s: State, seen: set<(Hash, Loc)>, l: Loc)
    requires s.scan == Scanning(seen) && ValidLoc(s, 1, l)
    ensures Leads(cfg, s, [ByScan(ScanSee(1, l))], s.(scan := Scanning(seen + {(1, l)})))
  {
    hide Leads;
    One(cfg, s, ByScan(ScanSee(1, l)), s.(scan := Scanning(seen + {(1, l)})));
  }

  lemma BeginScan(cfg: Config, s: State)
    requires s.scan.Quiet? && s.co.Rest?
    ensures Leads(cfg, s, [ByScan(ScanStart)], s.(scan := Scanning({})))
  {
    hide Leads;
    One(cfg, s, ByScan(ScanStart), s.(scan := Scanning({})));
  }

  lemma FindNone(cfg: Config, s: State, seen: set<(Hash, Loc)>)
    requires s.scan == Scanning(seen) && 1 !in s.cache
    ensures Leads(cfg, s, [ByScan(ScanGet(1))], s.(scan := Choosing(seen, 1, None)))
  {
    hide Leads;
    One(cfg, s, ByScan(ScanGet(1)), s.(scan := Choosing(seen, 1, None)));
  }

  lemma SeeBoth(cfg: Config, s: State) returns (run: seq<Step>)
    requires s == Duplicated()
    ensures Leads(cfg, s, run, s.(scan := Choosing(SeenBoth(), 1, None)))
  {
    hide Leads;
    var none: set<(Hash, Loc)> := {};
    var first := none + {(1, Loc(0, 0))};
    var s1 := s.(scan := Scanning(none));
    var s2 := s.(scan := Scanning(first));
    var s3 := s.(scan := Scanning(first + {(1, Loc(1, 1))}));
    assert first + {(1, Loc(1, 1))} == SeenBoth();
    BeginScan(cfg, s);
    SeeOne(cfg, s1, none, Loc(0, 0));
    SeeOne(cfg, s2, first, Loc(1, 1));
    FindNone(cfg, s3, SeenBoth());
    Then(cfg, s, [ByScan(ScanStart)], s1, [ByScan(ScanSee(1, Loc(0, 0)))], s2);
    Then(cfg, s, [ByScan(ScanStart)] + [ByScan(ScanSee(1, Loc(0, 0)))], s2, [ByScan(ScanSee(1, Loc(1, 1)))], s3);
    Then(cfg, s, [ByScan(ScanStart)] + [ByScan(ScanSee(1, Loc(0, 0)))] + [ByScan(ScanSee(1, Loc(1, 1)))], s3,
         [ByScan(ScanGet(1))], s.(scan := Choosing(SeenBoth(), 1, None)));
    run := [ByScan(ScanStart)] + [ByScan(ScanSee(1, Loc(0, 0)))] + [ByScan(ScanSee(1, Loc(1, 1)))]
      + [ByScan(ScanGet(1))];
  }

  lemma PutStale(cfg: Config, s: State)
    requires s.scan == Choosing(SeenBoth(), 1, None)
    ensures Leads(cfg, s, [ByScan(ScanPut(Loc(0, 0)))],
            s.(cache := s.cache[1 := Loc(0, 0)], scan := Scanning(SeenBoth())))
  {
    assert (1, Loc(0, 0)) in SeenBoth() && (1, Loc(1, 1)) in SeenBoth();
    assert Candidates(s.scan) == {Loc(0, 0), Loc(1, 1)};
    One(cfg, s, ByScan(ScanPut(Loc(0, 0))), s.(cache := s.cache[1 := Loc(0, 0)], scan := Scanning(SeenBoth())));
  }

  /** A duplicate scan across a pass: it repoints the cache at a place it saw before the segment went. */
  lemma ScanOverlapLoses(cfg: Config) returns (s: State, run: seq<Step>, t: State)
    requires !cfg.scanApart
    ensures Init(s) && Leads(cfg, s, run, t) && !Safe(t)
    ensures 1 in t.cache && t.cache[1].seg !in t.segs
  {
    hide Leads;
    s := Duplicated();
    assert ValidLoc(s, 0, Loc(1, 0));
    var s1 := s.(scan := Choosing(SeenBoth(), 1, None));
    var r1 := SeeBoth(cfg, s);
    assert Sweepable(cfg, s1, 0, 1, 0);
    var r2, s2 := Sweep(cfg, s1, 0, 1, 0);
    PutStale(cfg, s2);
    t := s2.(cache := s2.cache[1 := Loc(0, 0)], scan := Scanning(SeenBoth()));
    Then(cfg, s, r1, s1, r2, s2);
    Then(cfg, s, r1 + r2, s2, [ByScan(ScanPut(Loc(0, 0)))], t);
    run := r1 + r2 + [ByScan(ScanPut(Loc(0, 0)))];
    assert !ValidLoc(t, 1, t.cache[1]);
  }

  /** The protocol is safe in every run exactly when all the orderings are in force. */
  lemma SafeIffSound(cfg: Config)
    ensures Sound(cfg) <==> forall s, run :: Init(s) && Runs(cfg, s, run) ==> Safe(Final(cfg, s, run))
  {
    hide Init, Safe, Runs, Final, ExactRun;
    if Sound(cfg) {
      forall s, run | Init(s) && Runs(cfg, s, run) ensures Safe(Final(cfg, s, run)) {
        RunsAreSafe(cfg, s, run);
      }
    } else {
      var s, run, t;
      if !cfg.pinFirst { s, run, t := LookFirstLoses(cfg); }
      else if !cfg.stampFirst { s, run, t := SealFirstLoses(cfg); }
      else if cfg.grace < 2 { s, run, t := ShortGraceLoses(cfg); }
      else if !cfg.pinsFirst && !cfg.exclusive { s, run, t := GenerationFirstLoses(cfg); }
      else { s, run, t := ScanOverlapLoses(cfg); }
      assert Runs(cfg, s, run) && !Safe(Final(cfg, s, run));
    }
  }
}
