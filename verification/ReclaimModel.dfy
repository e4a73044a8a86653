/**
 The reclamation protocol on the primary device, as a state machine over its atomic steps:
 writers (pin, look up, append), shard writers (stamp, seal), the checkpoint (drain, capture,
 publish, unpin) and the coalescing daemon (mark, repack, repoint, remove, gate, delete).

 A record's place is its segment and its ordinal in it. Segment contents, the location cache,
 the pin refcounts and the seal generations are the shared state the source keeps behind separate
 locks, so every step below is one lock hold, and steps of different actors interleave freely.
 */
module ReclaimModel {
  import opened Basics

  type Hash = nat
  type SegId = nat
  type WriteId = nat

  datatype Loc = Loc(seg: SegId, off: nat)

  datatype Owner = Shard | Repack

  /** `Closing` is a segment whose seal has begun: it takes no more records. */
  datatype SegState = Open | Closing | Sealed

  datatype Segment = Segment(records: seq<Hash>, state: SegState, owner: Owner)

  /** One chunk write, from its first step until the checkpoint that captured it lets go of it. */
  datatype Write =
    | Found(h: Hash)            // looked up before pinning (only with `pinFirst` off)
    | Pinned(h: Hash)           // pinned, not looked up yet
    | Missed(h: Hash)           // looked up, not found, pin returned
    | Hit(h: Hash)              // a dedup hit: depends on an existing copy, holds a pin
    | Fresh(h: Hash, loc: Loc)  // appended its own record

  datatype Checkpoint =
    | Idle
    | Draining(must: set<WriteId>, captured: set<WriteId>)
    | Rooted(captured: set<WriteId>)   // the new root is visible, its generation is not
    | Stored(captured: set<WriteId>)   // generation stored, pins being released

  /** What a mark pass found: the generation it started from, live hashes, live places. */
  datatype Pass = Pass(gm: nat, live: set<Hash>, bits: set<Loc>)

  datatype Stage =
    | Splitting
    | Rechecked
    | Copying
    | Stamped
    | Repointing(done: nat)
    | Removing(todo: set<Hash>, removed: map<Hash, Loc>)
    | Gate(genOk: bool, left: set<Hash>, removed: map<Hash, Loc>)
    | Restoring(removed: map<Hash, Loc>)
    | Cleared

  datatype Job = Job(seg: SegId, keep: seq<nat>, copy: seq<SegId>, stage: Stage)

  datatype Daemon =
    | Rest
    | Marking(pass: Pass, todo: set<Hash>)
    | Sweeping(pass: Pass)
    | Repacking(pass: Pass, job: Job)

  /** The duplicate scanner: places seen so far, and the one hash it is converging now. */
  datatype Scanner =
    | Quiet
    | Scanning(seen: set<(Hash, Loc)>)
    | Choosing(seen: set<(Hash, Loc)>, h: Hash, found: Option<Loc>)

  /** The orderings the design relies on, as switches, so that what each buys can be stated. */
  datatype Config = Config(
    pinFirst: bool,    // a writer pins before it looks up
    stampFirst: bool,  // a seal is stamped before the footer lands
    grace: nat,        // checkpoints a sealed segment must have behind it
    pinsFirst: bool,   // the gate tests pins before the generation
    exclusive: bool,   // no generation is stored between the gate's two tests
    scanApart: bool)   // no duplicate scan overlaps a coalescing pass

  datatype State = State(
    segs: map<SegId, Segment>,
    nextSeg: SegId,
    cache: map<Hash, Loc>,
    writes: map<WriteId, Write>,
    pins: multiset<Hash>,
    root: set<Hash>,
    nsGen: nat,                // generation of the visible root
    published: nat,            // the shared counter passes and stamps read
    gens: map<SegId, nat>,     // SealGenerations.sealed
    stamps: map<SegId, nat>,   // every stamp of this mount, never pruned
    ck: Checkpoint,
    co: Daemon,
    scan: Scanner)

  /** A chunk write: pin, look up, and append what was not found. */
  datatype WriterOp =
    | LookFirst(w: WriteId, h: Hash)
    | PinLate(w: WriteId)
    | Pin(w: WriteId, h: Hash)
    | LookHit(w: WriteId)
    | LookMiss(w: WriteId)
    | Append(w: WriteId, seg: SegId)
    | GiveUp(w: WriteId)

  /** A shard's data writer: open, stamp and seal its segments. */
  datatype ShardOp =
    | OpenSegment
    | Stamp(seg: SegId)
    | Seal(seg: SegId)
    | Prune

  /** The checkpoint: drain, capture, publish, release. */
  datatype CheckpointOp =
    | Drain
    | Capture(w: WriteId)
    | Abort
    | PublishRoot(newRoot: set<Hash>)
    | StoreGeneration
    | Release(w: WriteId)
    | EndCheckpoint

  /** A coalescing pass: mark what is live, and end. */
  datatype MarkOp =
    | StartPass
    | MarkOne(h: Hash)
    | AbortMark
    | MarkPins(ps: set<Hash>)
    | EndRestore
    | EndPass

  /** The repack of one segment, up to its deletion. */
  datatype RepackOp =
    | Pick(seg: SegId, elsewhere: set<nat>)
    | Recheck(pinned: set<nat>)
    | CopyForward
    | StampCopy
    | SealCopy
    | Repoint
    | RemoveOne(h: Hash)
    | LoadGeneration
    | TestPin(h: Hash)
    | PutBack(h: Hash)
    | Delete

  /** The duplicate scanner. */
  datatype ScanOp =
    | ScanStart
    | ScanSee(h: Hash, loc: Loc)
    | ScanGet(h: Hash)
    | ScanPut(loc: Loc)
    | ScanSkip
    | ScanEnd

  datatype Step =
    | ByWriter(writer: WriterOp)
    | ByShard(shard: ShardOp)
    | ByCheckpoint(checkpoint: CheckpointOp)
    | ByMark(mark: MarkOp)
    | ByRepack(repack: RepackOp)
    | ByScan(scan: ScanOp)

  predicate ValidLoc(s: State, h: Hash, l: Loc) {
    l.seg in s.segs && l.off < |s.segs[l.seg].records| && s.segs[l.seg].records[l.off] == h
  }

  predicate HoldsPin(w: Write, h: Hash) {
    (w.Pinned? || w.Hit?) && w.h == h
  }

  function Holders(ws: map<WriteId, Write>, h: Hash): set<WriteId> {
    set w | w in ws && HoldsPin(ws[w], h)
  }

  predicate Done(w: Write) {
    w.Hit? || w.Fresh?
  }

  /** Writes a checkpoint that starts draining now has to capture. */
  function DoneWrites(s: State): set<WriteId> {
    set w | w in s.writes && Done(s.writes[w])
  }

  function Captured(c: Checkpoint): set<WriteId> {
    if c.Idle? then {} else c.captured
  }

  /** A finished write no published generation covers yet. */
  predicate Pending(s: State, w: WriteId) {
    w in s.writes && Done(s.writes[w]) && !(s.ck.Stored? && w in s.ck.captured)
  }

  ghost predicate Referenced(s: State, h: Hash) {
    h in s.root || exists w :: Pending(s, w) && s.writes[w].h == h
  }

  ghost predicate HasCopy(s: State, h: Hash) {
    exists l: Loc :: ValidLoc(s, h, l)
  }

  /** Whether the sweep may reclaim a segment (SealGenerations::may_reclaim). */
  predicate MayReclaim(cfg: Config, s: State, g: SegId) {
    g !in s.gens || s.published >= s.gens[g] + cfg.grace
  }

  /** Offsets, from `i` on, of records `keepIt` holds of, in scan order. */
  function Select(n: nat, keepIt: nat -> bool, i: nat := 0): (r: seq<nat>)
    requires i <= n
    ensures forall o :: o in r <==> i <= o < n && keepIt(o)
    decreases n - i
  {
    if i == n then [] else (if keepIt(i) then [i] else []) + Select(n, keepIt, i + 1)
  }

  /** First split: live by place, or live by hash with no other copy known on the device. */
  function SplitKeep(p: Pass, g: SegId, records: seq<Hash>, elsewhere: set<nat>): seq<nat> {
    Select(|records|, (o: nat) => Loc(g, o) in p.bits || (o < |records| && records[o] in p.live && o !in elsewhere))
  }

  /** What the pin recheck pulls back in, after what the split already keeps. */
  function RecheckKeep(keep: seq<nat>, n: nat, pinned: set<nat>): seq<nat> {
    keep + Select(n, (o: nat) => o !in keep && o in pinned)
  }

  function DeadOf(records: seq<Hash>, keep: seq<nat>): set<Hash> {
    set o | 0 <= o < |records| && o !in keep :: records[o]
  }

  function RecordsAt(records: seq<Hash>, keep: seq<nat>): (r: seq<Hash>)
    requires forall i :: 0 <= i < |keep| ==> keep[i] < |records|
    ensures |r| == |keep| && forall i :: 0 <= i < |keep| ==> r[i] == records[keep[i]]
  {
    seq(|keep|, i requires 0 <= i < |keep| => records[keep[i]])
  }

  /** Every place the scanner knows for the hash it is converging. */
  function Candidates(c: Scanner): set<Loc>
    requires c.Choosing?
  {
    (set p | p in c.seen && p.0 == c.h :: p.1) + (if c.found.Some? then {c.found.value} else {})
  }

  /** The place the scanner settles on: the one in use, else the lowest. */
  predicate Canonical(c: Scanner, l: Loc)
    requires c.Choosing?
  {
    if c.found.Some? then l == c.found.value
    else l in Candidates(c) && forall o :: o in Candidates(c) ==> l.seg < o.seg || (l.seg == o.seg && l.off <= o.off)
  }

  predicate AtStage(s: State) {
    s.co.Repacking? && s.co.job.seg in s.segs
  }

  predicate InGate(s: State) {
    s.co.Repacking? && s.co.job.stage.Gate?
  }

  predicate WriterEnabled(cfg: Config, s: State, a: WriterOp) {
    match a
    case LookFirst(w, h) => !cfg.pinFirst && w !in s.writes && h in s.cache
    case PinLate(w) => w in s.writes && s.writes[w].Found?
    case Pin(w, h) => w !in s.writes
    case LookHit(w) => w in s.writes && s.writes[w].Pinned? && s.writes[w].h in s.cache
    case LookMiss(w) => w in s.writes && s.writes[w].Pinned? && s.writes[w].h !in s.cache
    case Append(w, g) =>
      && w in s.writes && s.writes[w].Missed?
      && g in s.segs && s.segs[g].state == Open && s.segs[g].owner == Shard
    case GiveUp(w) => w in s.writes && s.writes[w].Missed?
  }

  predicate ShardEnabled(cfg: Config, s: State, a: ShardOp) {
    match a
    case OpenSegment => true
    case Stamp(g) =>
      && g in s.segs && s.segs[g].owner == Shard && g !in s.stamps
      && (if cfg.stampFirst then s.segs[g].state == Open else s.segs[g].state == Sealed)
    case Seal(g) =>
      && g in s.segs && s.segs[g].owner == Shard
      && (if cfg.stampFirst then s.segs[g].state == Closing else s.segs[g].state == Open)
    case Prune => true
  }

  predicate CheckpointEnabled(cfg: Config, s: State, a: CheckpointOp) {
    match a
    case Drain => s.ck.Idle?
    case Capture(w) => s.ck.Draining? && w in s.writes && Done(s.writes[w])
    case Abort => s.ck.Draining?
    case PublishRoot(newRoot) =>
      && s.ck.Draining? && s.ck.must <= s.ck.captured
      && newRoot <= s.root + (set w | w in s.ck.captured && w in s.writes :: s.writes[w].h)
    case StoreGeneration =>
      && s.ck.Rooted?
      && !(cfg.exclusive && InGate(s) && s.co.job.stage.genOk)
    case Release(w) => s.ck.Stored? && w in s.ck.captured && w in s.writes
    case EndCheckpoint => s.ck.Stored? && s.ck.captured == {}
  }

  predicate MarkEnabled(cfg: Config, s: State, a: MarkOp) {
    match a
    case StartPass => s.co.Rest? && (cfg.scanApart ==> s.scan.Quiet?)
    case MarkOne(h) => s.co.Marking? && h in s.co.todo && h in s.cache
    case AbortMark => s.co.Marking?
    case MarkPins(ps) => s.co.Marking? && s.co.todo == {} && ps <= s.cache.Keys && s.co.pass.live + ps != {}
    case EndRestore => s.co.Repacking? && s.co.job.stage.Restoring? && s.co.job.stage.removed == map[]
    case EndPass => s.co.Sweeping?
  }

  predicate RepackEnabled(cfg: Config, s: State, a: RepackOp) {
    match a
    case Pick(g, elsewhere) =>
      s.co.Sweeping? && g in s.segs && s.segs[g].state == Sealed && MayReclaim(cfg, s, g)
    case Recheck(pinned) => AtStage(s) && s.co.job.stage.Splitting?
    case CopyForward =>
      && AtStage(s) && s.co.job.stage.Rechecked?
      && forall i :: 0 <= i < |s.co.job.keep| ==> s.co.job.keep[i] < |s.segs[s.co.job.seg].records|
    case StampCopy =>
      s.co.Repacking? && s.co.job.stage.Copying? && |s.co.job.copy| == 1 && s.co.job.copy[0] in s.segs
    case SealCopy =>
      s.co.Repacking? && s.co.job.stage.Stamped? && |s.co.job.copy| == 1 && s.co.job.copy[0] in s.segs
    case Repoint =>
      && AtStage(s) && s.co.job.stage.Repointing?
      && (s.co.job.stage.done < |s.co.job.keep| ==>
            && |s.co.job.copy| == 1
            && s.co.job.keep[s.co.job.stage.done] < |s.segs[s.co.job.seg].records|)
    case RemoveOne(h) => s.co.Repacking? && s.co.job.stage.Removing? && h in s.co.job.stage.todo
    case LoadGeneration =>
      && InGate(s) && !s.co.job.stage.genOk
      && (cfg.pinsFirst ==> s.co.job.stage.left == {})
    case TestPin(h) =>
      && InGate(s) && h in s.co.job.stage.left
      && (cfg.pinsFirst || s.co.job.stage.genOk)
    case PutBack(h) => s.co.Repacking? && s.co.job.stage.Restoring? && h in s.co.job.stage.removed
    case Delete => AtStage(s) && s.co.job.stage.Cleared?
  }

  predicate ScanEnabled(cfg: Config, s: State, a: ScanOp) {
    match a
    case ScanStart => s.scan.Quiet? && (cfg.scanApart ==> s.co.Rest?)
    case ScanSee(h, l) => s.scan.Scanning? && ValidLoc(s, h, l)
    case ScanGet(h) => s.scan.Scanning?
    case ScanPut(l) => s.scan.Choosing? && |Candidates(s.scan)| >= 2 && Canonical(s.scan, l)
    case ScanSkip => s.scan.Choosing?
    case ScanEnd => s.scan.Scanning?
  }

  predicate Enabled(cfg: Config, s: State, a: Step) {
    match a
    case ByWriter(b) => WriterEnabled(cfg, s, b)
    case ByShard(b) => ShardEnabled(cfg, s, b)
    case ByCheckpoint(b) => CheckpointEnabled(cfg, s, b)
    case ByMark(b) => MarkEnabled(cfg, s, b)
    case ByRepack(b) => RepackEnabled(cfg, s, b)
    case ByScan(b) => ScanEnabled(cfg, s, b)
  }

  function WithStage(s: State, st: Stage): State
    requires s.co.Repacking?
  {
    s.(co := s.co.(job := s.co.job.(stage := st)))
  }

  /** From the last removal into the gate, with everything dead still to be tested. */
  function AfterRemoval(dead: set<Hash>, todo: set<Hash>, removed: map<Hash, Loc>): Stage {
    if todo == {} then Gate(false, dead, removed) else Removing(todo, removed)
  }

  function GateState(genOk: bool, left: set<Hash>, removed: map<Hash, Loc>): Stage {
    if genOk && left == {} then Cleared else Gate(genOk, left, removed)
  }

  function JobDead(s: State): set<Hash>
    requires AtStage(s)
  {
    DeadOf(s.segs[s.co.job.seg].records, s.co.job.keep)
  }

  function RemoveDead(s: State, h: Hash): State
    requires s.co.Repacking? && s.co.job.stage.Removing?
  {
    var j := s.co.job;
    var st := j.stage;
    var dead := if j.seg in s.segs then JobDead(s) else {};
    if h in s.cache && s.cache[h].seg == j.seg then
      WithStage(s.(cache := s.cache - {h}), AfterRemoval(dead, st.todo - {h}, st.removed[h := s.cache[h]]))
    else
      WithStage(s, AfterRemoval(dead, st.todo - {h}, st.removed))
  }

  function RepointNext(s: State): State
    requires AtStage(s) && s.co.job.stage.Repointing?
    requires s.co.job.stage.done < |s.co.job.keep| ==>
               |s.co.job.copy| == 1 && s.co.job.keep[s.co.job.stage.done] < |s.segs[s.co.job.seg].records|
  {
    var j := s.co.job;
    var k := j.stage.done;
    if k < |j.keep| then
      var h := s.segs[j.seg].records[j.keep[k]];
      WithStage(s.(cache := s.cache[h := Loc(j.copy[0], k)]), Repointing(k + 1))
    else
      WithStage(s, AfterRemoval(JobDead(s), JobDead(s), map[]))
  }

  function WriterApply(cfg: Config, s: State, a: WriterOp): State
    requires WriterEnabled(cfg, s, a)
  {
    match a
    case LookFirst(w, h) => s.(writes := s.writes[w := Found(h)])
    case PinLate(w) =>
      s.(writes := s.writes[w := Hit(s.writes[w].h)], pins := s.pins + multiset{s.writes[w].h})
    case Pin(w, h) => s.(writes := s.writes[w := Pinned(h)], pins := s.pins + multiset{h})
    case LookHit(w) => s.(writes := s.writes[w := Hit(s.writes[w].h)])
    case LookMiss(w) =>
      s.(writes := s.writes[w := Missed(s.writes[w].h)], pins := s.pins - multiset{s.writes[w].h})
    case Append(w, g) =>
      var h := s.writes[w].h;
      var seg := s.segs[g];
      var loc := Loc(g, |seg.records|);
      s.(segs := s.segs[g := seg.(records := seg.records + [h])],
         cache := s.cache[h := loc],
         writes := s.writes[w := Fresh(h, loc)])
    case GiveUp(w) => s.(writes := s.writes - {w})
  }

  function ShardApply(cfg: Config, s: State, a: ShardOp): State
    requires ShardEnabled(cfg, s, a)
  {
    match a
    case OpenSegment =>
      s.(segs := s.segs[s.nextSeg := Segment([], Open, Shard)], nextSeg := s.nextSeg + 1)
    case Stamp(g) =>
      s.(segs := s.segs[g := s.segs[g].(state := if cfg.stampFirst then Closing else s.segs[g].state)],
         gens := s.gens[g := s.published],
         stamps := s.stamps[g := s.published])
    case Seal(g) =>
      s.(segs := s.segs[g := s.segs[g].(state := Sealed)])
    case Prune => s.(gens := map g | g in s.gens && s.published < s.gens[g] + cfg.grace :: s.gens[g])
  }

  function CheckpointApply(cfg: Config, s: State, a: CheckpointOp): State
    requires CheckpointEnabled(cfg, s, a)
  {
    match a
    case Drain => s.(ck := Draining(DoneWrites(s), {}))
    case Capture(w) => s.(ck := s.ck.(captured := s.ck.captured + {w}))
    case Abort => s.(ck := Idle)
    case PublishRoot(newRoot) => s.(root := newRoot, nsGen := s.nsGen + 1, ck := Rooted(s.ck.captured))
    case StoreGeneration => s.(published := s.nsGen, ck := Stored(s.ck.captured))
    case Release(w) =>
      s.(writes := s.writes - {w},
         pins := if s.writes[w].Hit? then s.pins - multiset{s.writes[w].h} else s.pins,
         ck := Stored(s.ck.captured - {w}))
    case EndCheckpoint => s.(ck := Idle)
  }

  function MarkApply(cfg: Config, s: State, a: MarkOp): State
    requires MarkEnabled(cfg, s, a)
  {
    match a
    case StartPass => s.(co := Marking(Pass(s.nsGen, {}, {}), s.root))
    case MarkOne(h) =>
      var p := s.co.pass;
      s.(co := Marking(p.(live := p.live + {h}, bits := p.bits + {s.cache[h]}), s.co.todo - {h}))
    case AbortMark => s.(co := Rest)
    case MarkPins(ps) =>
      var p := s.co.pass;
      s.(co := Sweeping(p.(live := p.live + ps, bits := p.bits + set h | h in ps :: s.cache[h])))
    case EndRestore => s.(co := Sweeping(s.co.pass))
    case EndPass => s.(co := Rest)
  }

  function RepackApply(cfg: Config, s: State, a: RepackOp): State
    requires RepackEnabled(cfg, s, a)
  {
    match a
    case Pick(g, elsewhere) =>
      s.(gens := s.gens - {g},
         co := Repacking(s.co.pass, Job(g, SplitKeep(s.co.pass, g, s.segs[g].records, elsewhere), [], Splitting)))
    case Recheck(pinned) =>
      var j := s.co.job;
      s.(co := s.co.(job := j.(keep := RecheckKeep(j.keep, |s.segs[j.seg].records|, pinned), stage := Rechecked)))
    case CopyForward =>
      var j := s.co.job;
      if j.keep == [] then
        WithStage(s, AfterRemoval(JobDead(s), JobDead(s), map[]))
      else
        s.(segs := s.segs[s.nextSeg := Segment(RecordsAt(s.segs[j.seg].records, j.keep), Open, Repack)],
           nextSeg := s.nextSeg + 1,
           co := s.co.(job := j.(copy := [s.nextSeg], stage := Copying)))
    case StampCopy =>
      var n := s.co.job.copy[0];
      WithStage(s.(gens := s.gens[n := s.published], stamps := s.stamps[n := s.published]), Stamped)
    case SealCopy =>
      var n := s.co.job.copy[0];
      WithStage(s.(segs := s.segs[n := s.segs[n].(state := Sealed)]), Repointing(0))
    case Repoint => RepointNext(s)
    case RemoveOne(h) => RemoveDead(s, h)
    case LoadGeneration =>
      var st := s.co.job.stage;
      if s.published == s.co.pass.gm then WithStage(s, GateState(true, st.left, st.removed))
      else WithStage(s, Restoring(st.removed))
    case TestPin(h) =>
      var st := s.co.job.stage;
      if h in s.pins then WithStage(s, Restoring(st.removed))
      else WithStage(s, GateState(st.genOk, st.left - {h}, st.removed))
    case PutBack(h) =>
      var st := s.co.job.stage;
      var put := if h in s.cache then s.cache else s.cache[h := st.removed[h]];
      WithStage(s.(cache := put), Restoring(st.removed - {h}))
    case Delete => s.(segs := s.segs - {s.co.job.seg}, co := Sweeping(s.co.pass))
  }

  function ScanApply(cfg: Config, s: State, a: ScanOp): State
    requires ScanEnabled(cfg, s, a)
  {
    match a
    case ScanStart => s.(scan := Scanning({}))
    case ScanSee(h, l) => s.(scan := Scanning(s.scan.seen + {(h, l)}))
    case ScanGet(h) => s.(scan := Choosing(s.scan.seen, h, if h in s.cache then Some(s.cache[h]) else None))
    case ScanPut(l) => s.(cache := s.cache[s.scan.h := l], scan := Scanning(s.scan.seen))
    case ScanSkip => s.(scan := Scanning(s.scan.seen))
    case ScanEnd => s.(scan := Quiet)
  }

  function Apply(cfg: Config, s: State, a: Step): State
    requires Enabled(cfg, s, a)
  {
    match a
    case ByWriter(b) => WriterApply(cfg, s, b)
    case ByShard(b) => ShardApply(cfg, s, b)
    case ByCheckpoint(b) => CheckpointApply(cfg, s, b)
    case ByMark(b) => MarkApply(cfg, s, b)
    case ByRepack(b) => RepackApply(cfg, s, b)
    case ByScan(b) => ScanApply(cfg, s, b)
  }

  /**
   A fresh mount: every segment on disk is sealed and was covered by the recovered root, the cache
   names real records, and no writer, checkpoint or pass is under way.
   */
  ghost predicate Init(s: State) {
    && (forall g :: g in s.segs ==> g < s.nextSeg && s.segs[g].state == Sealed)
    && (forall h :: h in s.cache ==> ValidLoc(s, h, s.cache[h]))
    && (forall h :: h in s.root ==> HasCopy(s, h))
    && s.writes == map[] && s.pins == multiset{}
    && s.gens == map[] && s.stamps == map[]
    && s.nsGen == s.published && s.ck.Idle? && s.co.Rest? && s.scan.Quiet?
  }

  /** Every hash something depends on has a record on disk, and the cache names only real records. */
  ghost predicate Safe(s: State) {
    && (forall h :: Referenced(s, h) ==> HasCopy(s, h))
    && (forall h :: h in s.cache ==> ValidLoc(s, h, s.cache[h]))
  }

  /** The state after a run, and whether every step of it was allowed. */
  predicate Runs(cfg: Config, s: State, run: seq<Step>)
    decreases |run|
  {
    run == [] || (Enabled(cfg, s, run[0]) && Runs(cfg, Apply(cfg, s, run[0]), run[1..]))
  }

  function Final(cfg: Config, s: State, run: seq<Step>): State
    requires Runs(cfg, s, run)
    decreases |run|
  {
    if run == [] then s else Final(cfg, Apply(cfg, s, run[0]), run[1..])
  }
}
