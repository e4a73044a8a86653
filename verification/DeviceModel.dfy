/**
 A raw device under crashes: zones, each a header block and a payload, that segments claim, fill, sync
 and give back, and the zone scan a mount rebuilds everything from.

 Every block keeps what is durable and what has been written since, and a crash keeps any one of these
 for each header block and, more than a device would do, for each payload byte on its own. Each step is
 one device operation of the source, so a crash can fall between any two, and steps on different
 segments interleave.
 */
module DeviceModel {
  import opened Basics

  /** What names a segment on a device. */
  datatype Key = Key(kind: nat, id: nat)

  datatype Header = FreeZone | FreeingZone | OwnedZone(key: Key, ord: nat, written: nat)

  /** A block, or byte, of the device: durable value and the writes no flush has covered, oldest first. */
  datatype Cell<T> = Cell(durable: T, pending: seq<T>)

  function Cur<T>(c: Cell<T>): T {
    if c.pending == [] then c.durable else c.pending[|c.pending| - 1]
  }

  function Put<T>(c: Cell<T>, v: T): Cell<T> {
    Cell(c.durable, c.pending + [v])
  }

  function Flushed<T>(c: Cell<T>): Cell<T> {
    Cell(Cur(c), [])
  }

  /** What a crash may leave of a cell. */
  ghost predicate MayBe<T>(c: Cell<T>, v: T) {
    v == c.durable || v in c.pending
  }

  /** `head` is `None` where no header of this format reads. */
  datatype Zone = Zone(head: Cell<Option<Header>>, body: seq<Cell<Byte>>)

  datatype Wr = Wr(off: nat, data: seq<Byte>)

  datatype SyncStage = Unsynced | Loaded(len: nat) | DataDone(len: nat) | HeadPut(len: nat)

  /**
   A segment: its zones in order, what they held when it was mounted, every write since, how many of
   those a flush has covered, and the length last made durable.
   */
  datatype Seg = Seg(zones: seq<nat>, base: seq<seq<Byte>>, baseLen: nat, log: seq<Wr>, flushed: nat, synced: nat,
                     sync: SyncStage, growing: bool)

  datatype ClaimStage = Picked | Zeroing | Headed

  datatype FreeStage = Marked | ZeroPut | ZeroDone

  datatype Role =
    | Free(clean: bool)                                          // Zone::Clean or Zone::Unknown
    | Claim(key: Key, ord: nat, clean: bool, stage: ClaimStage)  // being claimed
    | Held(key: Key, ord: nat)                                   // part of a live segment
    | Doomed(key: Key, ord: nat)                                 // part of one whose removal is under way
    | Limbo(holder: Option<nat>, free: FreeStage)                // durably Freeing

  datatype RemovalStage = FirstPut | FirstGone | RestPut

  datatype Removal = Removal(holder: Option<nat>, stage: RemovalStage)

  /** `holders`: removed segments some handle, or the removal itself, still has open. */
  datatype State = State(
    zoneLen: nat,
    disk: seq<Zone>,
    role: seq<Role>,
    segs: map<Key, Seg>,
    dying: map<Key, Removal>,
    holders: map<nat, Seg>)

  datatype ClaimOp =
    | Make(key: Key, z: nat)
    | Grow(key: Key, z: nat)
    | ZeroClaim(z: nat)
    | HeadClaim(z: nat)
    | SyncClaim(z: nat)

  datatype IoOp =
    | Write(key: Key, off: nat, data: seq<Byte>)
    | FlushAll
    | SyncLoad(key: Key)
    | SyncData(key: Key)
    | SyncHead(key: Key)
    | SyncEnd(key: Key)

  datatype RemoveOp =
    | Remove(key: Key, holder: nat)
    | RemoveFirst(key: Key)
    | RemoveRest(key: Key)
    | RemoveEnd(key: Key)
    | Close(holder: nat)

  datatype FreeOp =
    | ZeroFreed(z: nat)
    | SyncFreed(z: nat)
    | MarkFree(z: nat)

  datatype Step =
    | ByClaim(claim: ClaimOp)
    | ByIo(io: IoOp)
    | ByRemove(remove: RemoveOp)
    | ByFree(free: FreeOp)
    | Crash(left: seq<Zone>)

  // ---------------------------------------------------------------------------------------------
  // A segment's bytes.
  // ---------------------------------------------------------------------------------------------

  predicate Covers(w: Wr, i: nat) {
    w.off <= i < w.off + |w.data|
  }

  /** The byte `j` of zone `k` of a segment, after the writes in `log`; never written is zero. */
  function At(base: seq<seq<Byte>>, log: seq<Wr>, zoneLen: nat, k: nat, j: nat): Byte
    decreases |log|
  {
    if log == [] then (if k < |base| && j < |base[k]| then base[k][j] else 0)
    else
      var w := log[|log| - 1];
      if Covers(w, k * zoneLen + j) then w.data[k * zoneLen + j - w.off]
      else At(base, log[..|log| - 1], zoneLen, k, j)
  }

  /** A segment's length after the writes in `log`: the largest end of any of them. */
  function LenAfter(baseLen: nat, log: seq<Wr>): nat
    decreases |log|
  {
    if log == [] then baseLen
    else Max(LenAfter(baseLen, log[..|log| - 1]), log[|log| - 1].off + |log[|log| - 1].data|)
  }

  function Len(g: Seg): nat {
    LenAfter(g.baseLen, g.log)
  }

  function Capacity(zoneLen: nat, g: Seg): nat {
    |g.zones| * zoneLen
  }

  // ---------------------------------------------------------------------------------------------
  // Device operations on one zone, and on all.
  // ---------------------------------------------------------------------------------------------

  function FlushZone(z: Zone): Zone {
    Zone(Flushed(z.head), seq(|z.body|, j requires 0 <= j < |z.body| => Flushed(z.body[j])))
  }

  function ZeroZone(z: Zone): Zone {
    z.(body := seq(|z.body|, j requires 0 <= j < |z.body| => Put(z.body[j], 0)))
  }

  function PutHead(z: Zone, h: Header): Zone {
    z.(head := Put(z.head, Some(h)))
  }

  function WriteZone(z: Zone, w: Wr, at: nat): Zone {
    z.(body := seq(|z.body|, j requires 0 <= j < |z.body| =>
         if Covers(w, at + j) then Put(z.body[j], w.data[at + j - w.off]) else z.body[j]))
  }

  function FlushSeg(g: Seg): Seg {
    g.(flushed := |g.log|)
  }

  /** A flush of the whole device, whoever asked for it. */
  function Flush(s: State): State {
    s.(disk := seq(|s.disk|, z requires 0 <= z < |s.disk| => FlushZone(s.disk[z])),
       segs := map k | k in s.segs :: FlushSeg(s.segs[k]),
       holders := map h | h in s.holders :: FlushSeg(s.holders[h]))
  }

  predicate InMap(s: State, z: nat) {
    z < |s.disk| && z < |s.role|
  }

  /** Clean zones first, then zones of unknown contents. */
  predicate MayClaim(s: State, z: nat) {
    && InMap(s, z) && s.role[z].Free?
    && (s.role[z].clean || forall y :: 0 <= y < |s.role| ==> s.role[y] != Free(true))
  }

  predicate Making(s: State, key: Key) {
    exists z :: 0 <= z < |s.role| && s.role[z].Claim? && s.role[z].key == key
  }

  function SetRole(s: State, z: nat, r: Role): State
    requires z < |s.role|
  {
    s.(role := s.role[z := r])
  }

  // ---------------------------------------------------------------------------------------------
  // Claiming a zone (`claim_zone`, `create_segment`, and `map` growing a segment).
  // ---------------------------------------------------------------------------------------------

  predicate ClaimEnabled(s: State, a: ClaimOp) {
    match a
    case Make(k, z) => k !in s.segs && k !in s.dying && !Making(s, k) && MayClaim(s, z)
    case Grow(k, z) => k in s.segs && !s.segs[k].growing && MayClaim(s, z)
    case ZeroClaim(z) => InMap(s, z) && s.role[z].Claim? && !s.role[z].clean && s.role[z].stage == Picked
    case HeadClaim(z) =>
      InMap(s, z) && s.role[z].Claim? && s.role[z].stage == (if s.role[z].clean then Picked else Zeroing)
    case SyncClaim(z) => InMap(s, z) && s.role[z].Claim? && s.role[z].stage == Headed
  }

  /** The segment a claimed zone makes, or grows. */
  function Claimed(s: State, z: nat): Seg
    requires InMap(s, z) && s.role[z].Claim?
  {
    var r := s.role[z];
    if r.key in s.segs then s.segs[r.key].(zones := s.segs[r.key].zones + [z], growing := false)
    else Seg([z], [], 0, [], 0, 0, Unsynced, false)
  }

  function ClaimApply(s: State, a: ClaimOp): State
    requires ClaimEnabled(s, a)
  {
    match a
    case Make(k, z) => SetRole(s, z, Claim(k, 0, s.role[z].clean, Picked))
    case Grow(k, z) =>
      SetRole(s, z, Claim(k, |s.segs[k].zones|, s.role[z].clean, Picked))
      .(segs := s.segs[k := s.segs[k].(growing := true)])
    case ZeroClaim(z) => SetRole(s, z, s.role[z].(stage := Zeroing)).(disk := s.disk[z := ZeroZone(s.disk[z])])
    case HeadClaim(z) =>
      SetRole(s, z, s.role[z].(stage := Headed))
      .(disk := s.disk[z := PutHead(s.disk[z], OwnedZone(s.role[z].key, s.role[z].ord, 0))])
    case SyncClaim(z) =>
      var u, r := Flush(s), s.role[z];
      SetRole(u, z, Held(r.key, r.ord)).(segs := u.segs[r.key := Claimed(u, z)])
  }

  // ---------------------------------------------------------------------------------------------
  // Writing and syncing (`write_all_at`, `sync_all`).
  // ---------------------------------------------------------------------------------------------

  predicate IoEnabled(s: State, a: IoOp) {
    match a
    case Write(k, off, data) => k in s.segs && off + |data| <= Capacity(s.zoneLen, s.segs[k])
    case FlushAll => true
    case SyncLoad(k) => k in s.segs && s.segs[k].sync.Unsynced? && Len(s.segs[k]) != s.segs[k].synced
    case SyncData(k) => k in s.segs && s.segs[k].sync.Loaded?
    case SyncHead(k) =>
      k in s.segs && s.segs[k].sync.DataDone? && |s.segs[k].zones| > 0 && s.segs[k].zones[0] < |s.disk|
    case SyncEnd(k) => k in s.segs && s.segs[k].sync.HeadPut?
  }

  function WriteAll(s: State, key: Key, w: Wr): seq<Zone> {
    seq(|s.disk|, z requires 0 <= z < |s.disk| =>
      if z < |s.role| && s.role[z].Held? && s.role[z].key == key then WriteZone(s.disk[z], w, s.role[z].ord * s.zoneLen)
      else s.disk[z])
  }

  function IoApply(s: State, a: IoOp): State
    requires IoEnabled(s, a)
  {
    match a
    case Write(k, off, data) =>
      s.(disk := WriteAll(s, k, Wr(off, data)), segs := s.segs[k := s.segs[k].(log := s.segs[k].log + [Wr(off, data)])])
    case FlushAll => Flush(s)
    case SyncLoad(k) => s.(segs := s.segs[k := s.segs[k].(sync := Loaded(Len(s.segs[k])))])
    case SyncData(k) =>
      var u := Flush(s);
      u.(segs := u.segs[k := u.segs[k].(sync := DataDone(u.segs[k].sync.len))])
    case SyncHead(k) =>
      var g := s.segs[k];
      s.(disk := s.disk[g.zones[0] := PutHead(s.disk[g.zones[0]], OwnedZone(k, 0, g.sync.len))],
         segs := s.segs[k := g.(sync := HeadPut(g.sync.len))])
    case SyncEnd(k) =>
      var u := Flush(s);
      var g := u.segs[k];
      u.(segs := u.segs[k := g.(synced := Max(g.synced, g.sync.len), sync := Unsynced)])
  }

  // ---------------------------------------------------------------------------------------------
  // Removing a segment (`mark_removed`): its first zone goes first.
  // ---------------------------------------------------------------------------------------------

  predicate RemoveEnabled(s: State, a: RemoveOp) {
    match a
    case Remove(k, h) =>
      && k in s.segs && h !in s.holders && k !in s.dying
      && !s.segs[k].growing && s.segs[k].sync.Unsynced?
      && |s.segs[k].zones| > 0 && s.segs[k].zones[0] < |s.disk|
    case RemoveFirst(k) => k in s.dying && s.dying[k].stage == FirstPut
    case RemoveRest(k) => k in s.dying && s.dying[k].stage == FirstGone
    case RemoveEnd(k) => k in s.dying && s.dying[k].stage == RestPut
    case Close(h) => h in s.holders && forall k :: k in s.dying ==> s.dying[k].holder != Some(h)
  }

  /** Roles once some of a dying segment's zones are durably Freeing. */
  function Demote(role: seq<Role>, key: Key, all: bool, to: Role): seq<Role> {
    seq(|role|, z requires 0 <= z < |role| =>
      if role[z].Doomed? && role[z].key == key && (all || role[z].ord == 0) then to else role[z])
  }

  function MarkRest(s: State, key: Key): seq<Zone> {
    seq(|s.disk|, z requires 0 <= z < |s.disk| =>
      if z < |s.role| && s.role[z].Doomed? && s.role[z].key == key then PutHead(s.disk[z], FreeingZone) else s.disk[z])
  }

  function RemoveApply(s: State, a: RemoveOp): State
    requires RemoveEnabled(s, a)
  {
    match a
    case Remove(k, h) =>
      var g := s.segs[k];
      s.(disk := s.disk[g.zones[0] := PutHead(s.disk[g.zones[0]], FreeingZone)],
         role := seq(|s.role|, z requires 0 <= z < |s.role| =>
           if s.role[z].Held? && s.role[z].key == k then Doomed(k, s.role[z].ord) else s.role[z]),
         segs := s.segs - {k},
         dying := s.dying[k := Removal(Some(h), FirstPut)],
         holders := s.holders[h := g])
    case RemoveFirst(k) =>
      Flush(s).(role := Demote(s.role, k, false, Limbo(s.dying[k].holder, Marked)),
                dying := s.dying[k := s.dying[k].(stage := FirstGone)])
    case RemoveRest(k) =>
      s.(disk := MarkRest(s, k), dying := s.dying[k := s.dying[k].(stage := RestPut)])
    case RemoveEnd(k) =>
      Flush(s).(role := Demote(s.role, k, true, Limbo(s.dying[k].holder, Marked)), dying := s.dying - {k})
    case Close(h) => s.(holders := s.holders - {h})
  }

  // ---------------------------------------------------------------------------------------------
  // Freeing a removed segment's zones (`release`, `zero_and_free`).
  // ---------------------------------------------------------------------------------------------

  predicate FreeEnabled(s: State, a: FreeOp) {
    match a
    case ZeroFreed(z) =>
      && InMap(s, z) && s.role[z].Limbo? && s.role[z].free == Marked
      && (s.role[z].holder.Some? ==> s.role[z].holder.value !in s.holders)
    case SyncFreed(z) => InMap(s, z) && s.role[z].Limbo? && s.role[z].free == ZeroPut
    case MarkFree(z) => InMap(s, z) && s.role[z].Limbo? && s.role[z].free == ZeroDone
  }

  function FreeApply(s: State, a: FreeOp): State
    requires FreeEnabled(s, a)
  {
    match a
    case ZeroFreed(z) => SetRole(s, z, Limbo(None, ZeroPut)).(disk := s.disk[z := ZeroZone(s.disk[z])])
    case SyncFreed(z) => SetRole(Flush(s), z, Limbo(None, ZeroDone))
    case MarkFree(z) => SetRole(s, z, Free(true)).(disk := s.disk[z := PutHead(s.disk[z], FreeZone)])
  }

  // ---------------------------------------------------------------------------------------------
  // A crash, and the zone scan of the next mount (`scan_zones`).
  // ---------------------------------------------------------------------------------------------

  ghost predicate Survives(before: Zone, after: Zone) {
    && MayBe(before.head, after.head.durable) && after.head.pending == []
    && |after.body| == |before.body|
    && (forall j :: 0 <= j < |after.body| ==>
      MayBe(before.body[j], after.body[j].durable) && after.body[j].pending == [])
  }

  ghost predicate CrashOf(disk: seq<Zone>, left: seq<Zone>) {
    |left| == |disk| && forall z :: 0 <= z < |disk| ==> Survives(disk[z], left[z])
  }

  predicate Owns(z: Zone, key: Key, ord: nat) {
    z.head.durable.Some? && z.head.durable.value.OwnedZone? && z.head.durable.value.key == key
      && z.head.durable.value.ord == ord
  }

  /** The lowest zone, from `z` on, whose header claims place `ord` of segment `key`. */
  function ZoneFor(disk: seq<Zone>, key: Key, ord: nat, z: nat := 0): (r: Option<nat>)
    requires z <= |disk|
    ensures r.Some? ==> z <= r.value < |disk| && Owns(disk[r.value], key, ord)
    ensures r.None? ==> forall y :: z <= y < |disk| ==> !Owns(disk[y], key, ord)
    decreases |disk| - z
  {
    if z == |disk| then None else if Owns(disk[z], key, ord) then Some(z) else ZoneFor(disk, key, ord, z + 1)
  }

  /** A segment's zones as the headers tell it: places `ord`, `ord + 1`, ... up to the first gap. */
  function ZonesOf(disk: seq<Zone>, key: Key, ord: nat := 0): (r: seq<nat>)
    requires ord <= |disk|
    ensures |r| + ord <= |disk|
    ensures forall i :: 0 <= i < |r| ==> r[i] < |disk| && ZoneFor(disk, key, ord + i) == Some(r[i])
    ensures |r| + ord < |disk| ==> ZoneFor(disk, key, ord + |r|).None?
    decreases |disk| - ord
  {
    if ord < |disk| && ZoneFor(disk, key, ord).Some? then [ZoneFor(disk, key, ord).value] + ZonesOf(disk, key, ord + 1)
    else []
  }

  function Durable(z: Zone): seq<Byte> {
    seq(|z.body|, j requires 0 <= j < |z.body| => z.body[j].durable)
  }

  /** A segment the scan found: the length its first zone claims, cut to what its zones can hold. */
  function Found(zoneLen: nat, disk: seq<Zone>, zones: seq<nat>): Seg
    requires |zones| > 0 && forall i :: 0 <= i < |zones| ==> zones[i] < |disk|
    requires disk[zones[0]].head.durable.Some? && disk[zones[0]].head.durable.value.OwnedZone?
  {
    var len := Min(disk[zones[0]].head.durable.value.written, |zones| * zoneLen);
    Seg(zones, seq(|zones|, i requires 0 <= i < |zones| => Durable(disk[zones[i]])), len, [], 0, len, Unsynced, false)
  }

  /** What a zone is, from its header and whether the segment it names has it in its list. */
  function FoundRole(disk: seq<Zone>, z: nat): Role
    requires z < |disk|
  {
    match disk[z].head.durable
    case None => Free(false)
    case Some(FreeZone) => Free(true)
    case Some(FreeingZone) => Limbo(None, Marked)
    case Some(OwnedZone(k, o, _)) =>
      var zs := ZonesOf(disk, k);
      if o < |zs| && zs[o] == z then Held(k, o) else Doomed(k, o)
  }

  function KeysOn(disk: seq<Zone>): set<Key> {
    set z | 0 <= z < |disk| && disk[z].head.durable.Some? && disk[z].head.durable.value.OwnedZone? ::
      disk[z].head.durable.value.key
  }

  predicate Orphaned(disk: seq<Zone>, k: Key) {
    exists z :: 0 <= z < |disk| && FoundRole(disk, z).Doomed? && FoundRole(disk, z).key == k
  }

  /** The mount's first look: no writes yet. What it leaves to free is freed by the steps above. */
  function Mount(zoneLen: nat, disk: seq<Zone>): State {
    State(zoneLen, disk,
          seq(|disk|, z requires 0 <= z < |disk| => FoundRole(disk, z)),
          map k | k in KeysOn(disk) && ZonesOf(disk, k) != [] :: Found(zoneLen, disk, ZonesOf(disk, k)),
          map k | k in KeysOn(disk) && Orphaned(disk, k) :: Removal(None, FirstGone),
          map[])
  }

  ghost predicate Enabled(s: State, a: Step) {
    match a
    case ByClaim(b) => ClaimEnabled(s, b)
    case ByIo(b) => IoEnabled(s, b)
    case ByRemove(b) => RemoveEnabled(s, b)
    case ByFree(b) => FreeEnabled(s, b)
    case Crash(left) => CrashOf(s.disk, left)
  }

  ghost function Apply(s: State, a: Step): State
    requires Enabled(s, a)
  {
    match a
    case ByClaim(b) => ClaimApply(s, b)
    case ByIo(b) => IoApply(s, b)
    case ByRemove(b) => RemoveApply(s, b)
    case ByFree(b) => FreeApply(s, b)
    case Crash(left) => Mount(s.zoneLen, left)
  }

  /** A freshly formatted device: no zone header of this format reads. */
  predicate Formatted(s: State) {
    && s.zoneLen > 0 && |s.role| == |s.disk|
    && (forall z :: 0 <= z < |s.disk| ==>
          s.role[z] == Free(false) && s.disk[z].head == Cell(None, []) && |s.disk[z].body| == s.zoneLen
          && forall j :: 0 <= j < s.zoneLen ==> s.disk[z].body[j].pending == [])
    && s.segs == map[] && s.dying == map[] && s.holders == map[]
  }

  ghost predicate Runs(s: State, run: seq<Step>)
    decreases |run|
  {
    run == [] || (Enabled(s, run[0]) && Runs(Apply(s, run[0]), run[1..]))
  }

  ghost function Final(s: State, run: seq<Step>): State
    requires Runs(s, run)
    decreases |run|
  {
    if run == [] then s else Final(Apply(s, run[0]), run[1..])
  }
}
