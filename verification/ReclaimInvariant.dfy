/**
 The invariant every step of the reclamation protocol keeps, when the orderings the design relies on
 are in force: the reason no interleaving loses the last copy of anything referenced.
 */
module ReclaimInvariant {
  import opened ReclaimModel

  /** The orderings under which the protocol is safe. */
  predicate Sound(cfg: Config) {
    cfg.pinFirst && cfg.stampFirst && cfg.grace >= 2 && (cfg.pinsFirst || cfg.exclusive) && cfg.scanApart
  }

  ghost predicate CacheOk(s: State) {
    forall h :: h in s.cache ==> ValidLoc(s, h, s.cache[h])
  }

  ghost predicate IdsOk(s: State) {
    && (forall g :: g in s.segs ==> g < s.nextSeg)
    && (forall g :: g in s.stamps ==> g < s.nextSeg)
  }

  /** An entry missing from the gate's map means the segment has aged past it, or predates the mount. */
  ghost predicate GensOk(s: State) {
    && (forall g :: g in s.gens ==> g in s.stamps && s.gens[g] == s.stamps[g])
    && (forall g :: g in s.stamps ==> s.stamps[g] <= s.published)
    && (forall g :: g in s.stamps && g !in s.gens ==> s.published >= s.stamps[g] + 2)
    && (forall g :: g in s.segs && s.segs[g].owner == Shard && s.segs[g].state == Open ==> g !in s.stamps)
    && (forall g :: g in s.segs && s.segs[g].state == Closing ==> g in s.stamps)
  }

  /** Whether the checkpoint under way, if any, is bound to capture `w` before it publishes. */
  ghost predicate Covered(c: Checkpoint, w: WriteId) {
    c.Idle? || c.Stored? || w in c.captured || (c.Draining? && w in c.must)
  }

  /** A fresh record is in a segment the sweep may not touch before a checkpoint has captured it. */
  ghost predicate FreshWrite(s: State, w: WriteId)
    requires w in s.writes && s.writes[w].Fresh?
  {
    var g := s.writes[w].loc.seg;
    && ValidLoc(s, s.writes[w].h, s.writes[w].loc)
    && s.segs[g].owner == Shard
    && (|| s.segs[g].state == Open
        || (g in s.stamps && s.published <= s.stamps[g] + 1 && (s.published == s.stamps[g] + 1 ==> Covered(s.ck, w))))
  }

  ghost predicate FreshOk(s: State) {
    forall w :: Pending(s, w) && s.writes[w].Fresh? ==> FreshWrite(s, w)
  }

  ghost predicate PinCounts(ws: map<WriteId, Write>, pins: multiset<Hash>) {
    forall h :: pins[h] == |Holders(ws, h)|
  }

  /** The refcount of a hash is the number of writes holding a pin on it. */
  ghost predicate PinsOk(s: State) {
    PinCounts(s.writes, s.pins)
  }

  ghost predicate CheckpointOk(s: State) {
    && s.nsGen == (if s.ck.Rooted? then s.published + 1 else s.published)
    && (forall w :: w in Captured(s.ck) ==> w in s.writes && Done(s.writes[w]))
    && (s.ck.Draining? ==> forall w :: w in s.ck.must ==> w in s.writes && Done(s.writes[w]))
    && (forall w :: w in s.writes ==> !s.writes[w].Found?)
  }

  ghost predicate CopiesOk(s: State) {
    forall h :: Referenced(s, h) ==> HasCopy(s, h)
  }

  ghost predicate PendingHash(s: State, h: Hash) {
    exists w :: Pending(s, w) && s.writes[w].h == h
  }

  /** A segment a pass marked at generation `gm` cannot reclaim before a newer generation is out. */
  ghost predicate NewSince(s: State, gm: nat, g: SegId) {
    g in s.segs && (s.segs[g].state == Open || (g in s.stamps && s.stamps[g] + 1 >= gm))
  }

  function Todo(d: Daemon): set<Hash> {
    if d.Marking? then d.todo else {}
  }

  /** As long as no newer generation is out, what a pass marked is what the root reaches. */
  ghost predicate PassOk(s: State) {
    !s.co.Rest? ==>
      var p := s.co.pass;
      && p.gm <= s.nsGen && p.gm <= s.published + 1
      && (s.nsGen == p.gm ==> s.root <= p.live + Todo(s.co))
      && (s.published <= p.gm ==>
            && (forall h :: h in s.root ==> h in p.live || h in Todo(s.co) || PendingHash(s, h))
            && (forall h :: h in p.live ==>
              h in s.cache && (s.cache[h] in p.bits || NewSince(s, p.gm, s.cache[h].seg))))
  }

  ghost predicate CopyOutside(s: State, h: Hash, g: SegId) {
    exists l: Loc :: l.seg != g && ValidLoc(s, h, l)
  }

  ghost predicate NoCacheIn(s: State, g: SegId) {
    forall h :: h in s.cache ==> s.cache[h].seg != g
  }

  ghost predicate RemovedOk(s: State, g: SegId, removed: map<Hash, Loc>) {
    forall h :: h in removed ==> removed[h].seg == g && ValidLoc(s, h, removed[h])
  }

  /** A dedup hit on `h` whose pin has not been released. */
  ghost predicate Held(s: State, h: Hash) {
    exists w :: w in s.writes && s.writes[w] == Hit(h)
  }

  /** Before the gate decides: whatever has no copy outside the doomed segment will make it say no. */
  ghost predicate GateOk(s: State, g: SegId, gm: nat, left: set<Hash>) {
    forall h :: Referenced(s, h) ==>
      CopyOutside(s, h, g) || s.published > gm || (h in left && Held(s, h))
  }

  /** The copy a repack made of the records it keeps. */
  ghost predicate CopyShape(s: State, j: Job)
    requires j.seg in s.segs
    requires forall i :: 0 <= i < |j.keep| ==> j.keep[i] < |s.segs[j.seg].records|
  {
    && |j.copy| <= 1
    && (|j.copy| == 1 ==>
          var n := j.copy[0];
          && n in s.segs && n != j.seg && s.segs[n].owner == Repack
          && |s.segs[n].records| == |j.keep|
          && (forall i :: 0 <= i < |j.keep| ==> s.segs[n].records[i] == s.segs[j.seg].records[j.keep[i]]))
  }

  /** The copy, where one is needed, is there and stamped. */
  ghost predicate Copied(s: State, gm: nat, j: Job) {
    && (j.keep != [] ==> |j.copy| == 1)
    && (|j.copy| == 1 ==> j.copy[0] in s.stamps && s.stamps[j.copy[0]] + 1 >= gm)
  }

  ghost predicate CopyStage(s: State, gm: nat, j: Job) {
    match j.stage
    case Splitting | Rechecked => j.copy == []
    case Copying => |j.copy| == 1 && j.copy[0] in s.segs && s.segs[j.copy[0]].state == Open && j.copy[0] !in s.stamps
    case Stamped | Repointing(_) => |j.copy| == 1 && Copied(s, gm, j)
    case _ => Copied(s, gm, j)
  }

  /** The first `done` records a repack keeps resolve to a copy outside the segment it is emptying. */
  ghost predicate Repointed(s: State, j: Job, done: nat)
    requires j.seg in s.segs && done <= |j.keep|
    requires forall i :: 0 <= i < |j.keep| ==> j.keep[i] < |s.segs[j.seg].records|
  {
    forall i :: 0 <= i < done ==>
      var h := s.segs[j.seg].records[j.keep[i]];
      h in s.cache && s.cache[h].seg != j.seg
  }

  ghost predicate StageOk(cfg: Config, s: State, gm: nat, j: Job)
    requires j.seg in s.segs
    requires forall i :: 0 <= i < |j.keep| ==> j.keep[i] < |s.segs[j.seg].records|
  {
    match j.stage
    case Splitting | Rechecked | Copying | Stamped => true
    case Repointing(done) => done <= |j.keep| && Repointed(s, j, done)
    case Removing(todo, removed) =>
      && Repointed(s, j, |j.keep|)
      && todo <= DeadOf(s.segs[j.seg].records, j.keep)
      && (forall h :: h in s.cache && s.cache[h].seg == j.seg ==> h in todo)
      && RemovedOk(s, j.seg, removed)
    case Gate(genOk, left, removed) =>
      && NoCacheIn(s, j.seg)
      && left <= DeadOf(s.segs[j.seg].records, j.keep)
      && RemovedOk(s, j.seg, removed)
      && GateOk(s, j.seg, gm, left)
      && (genOk ==> s.published == gm && !cfg.pinsFirst)
    case Restoring(removed) => RemovedOk(s, j.seg, removed)
    case Cleared =>
      && NoCacheIn(s, j.seg)
      && forall h :: Referenced(s, h) ==> CopyOutside(s, h, j.seg)
  }

  ghost predicate JobOk(cfg: Config, s: State) {
    s.co.Repacking? ==>
      var p := s.co.pass;
      var j := s.co.job;
      && j.seg in s.segs && s.segs[j.seg].state == Sealed
      && (j.seg in s.stamps ==> s.published >= s.stamps[j.seg] + 2)
      && (forall i :: 0 <= i < |j.keep| ==> j.keep[i] < |s.segs[j.seg].records|)
      && (forall o :: 0 <= o < |s.segs[j.seg].records| && Loc(j.seg, o) in p.bits ==> o in j.keep)
      && CopyShape(s, j) && CopyStage(s, p.gm, j)
      && StageOk(cfg, s, p.gm, j)
  }

  /** While a duplicate scan runs no segment goes away, so what it has seen is still there. */
  ghost predicate ScanOk(s: State) {
    !s.scan.Quiet? ==>
      && s.co.Rest?
      && (forall p :: p in s.scan.seen ==> ValidLoc(s, p.0, p.1))
      && (s.scan.Choosing? && s.scan.found.Some? ==> ValidLoc(s, s.scan.h, s.scan.found.value))
  }

  ghost predicate Inv(cfg: Config, s: State) {
    && CacheOk(s) && IdsOk(s) && GensOk(s) && FreshOk(s) && PinsOk(s)
    && CheckpointOk(s) && CopiesOk(s) && PassOk(s) && JobOk(cfg, s) && ScanOk(s)
  }

  lemma InitInv(cfg: Config, s: State)
    requires Init(s)
    ensures Inv(cfg, s)
  {
  }
}
