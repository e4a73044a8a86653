/**
 Which flushes the device's promises rest on: three can be left out, and every run keeps the promises if and
 only if none is.
 */
module DeviceOrderings {
  import opened Basics
  import opened DeviceModel
  import opened DeviceInvariant
  import opened DeviceSafety

  datatype Config = Config(
    dataFirst: bool,      // a sync flushes the bytes before it writes the length that covers them
    zeroFirst: bool,      // a freed zone's zeroes are flushed before its header says Free
    firstZoneFirst: bool) // a removal flushes its first zone's mark before it marks the rest

  predicate AllOrdered(cfg: Config) {
    cfg.dataFirst && cfg.zeroFirst && cfg.firstZoneFirst
  }

  /** A step of the device, or one of the same operations with a flush left out. */
  datatype Move = Sure(step: Step) | SkipData(key: Key) | SkipZero(z: nat) | SkipFirst(key: Key)

  ghost predicate Allowed(cfg: Config, s: State, a: Move) {
    match a
    case Sure(b) => Enabled(s, b)
    case SkipData(k) => !cfg.dataFirst && k in s.segs && s.segs[k].sync.Loaded?
    case SkipZero(z) => !cfg.zeroFirst && InMap(s, z) && s.role[z].Limbo? && s.role[z].free == ZeroPut
    case SkipFirst(k) => !cfg.firstZoneFirst && k in s.dying && s.dying[k].stage == FirstPut
  }

  ghost function After(cfg: Config, s: State, a: Move): State
    requires Allowed(cfg, s, a)
  {
    match a
    case Sure(b) => Apply(s, b)
    case SkipData(k) => s.(segs := s.segs[k := s.segs[k].(sync := DataDone(s.segs[k].sync.len))])
    case SkipZero(z) => SetRole(s, z, Limbo(None, ZeroDone))
    case SkipFirst(k) => s.(disk := MarkRest(s, k), dying := s.dying[k := s.dying[k].(stage := RestPut)])
  }

  ghost predicate Moves(cfg: Config, s: State, moves: seq<Move>)
    decreases |moves|
  {
    moves == [] || (Allowed(cfg, s, moves[0]) && Moves(cfg, After(cfg, s, moves[0]), moves[1..]))
  }

  ghost function Last(cfg: Config, s: State, moves: seq<Move>): State
    requires Moves(cfg, s, moves)
    decreases |moves|
  {
    if moves == [] then s else Last(cfg, After(cfg, s, moves[0]), moves[1..])
  }

  /** What the device promises of a state: free zones are zero, and any crash from here recovers. */
  ghost predicate Good(s: State) {
    FreeZonesZero(s) && forall left :: CrashOf(s.disk, left) ==> Recovers(s, Mount(s.zoneLen, left))
  }

  // ---------------------------------------------------------------------------------------------
  // With every flush in place.
  // ---------------------------------------------------------------------------------------------

  lemma {:induction false} MovesInv(cfg: Config, s: State, moves: seq<Move>)
    requires AllOrdered(cfg) && Inv(s) && Moves(cfg, s, moves)
    ensures Inv(Last(cfg, s, moves))
    decreases |moves|
  {
    hide Inv, Enabled, Apply;
    if moves != [] {
      StepInv(s, moves[0].step);
      MovesInv(cfg, After(cfg, s, moves[0]), moves[1..]);
    }
  }

  lemma OrderedIsGood(cfg: Config, s: State, moves: seq<Move>)
    requires AllOrdered(cfg) && Formatted(s) && Moves(cfg, s, moves)
    ensures Good(Last(cfg, s, moves))
  {
    FormattedInv(s);
    hide Inv, FreeZonesZero, Recovers, Formatted;
    MovesInv(cfg, s, moves);
    var t := Last(cfg, s, moves);
    InvFreeZonesZero(t);
    forall left | CrashOf(t.disk, left)
      ensures Recovers(t, Mount(t.zoneLen, left))
    {
      CrashRecovers(t, left);
    }
  }

  // ---------------------------------------------------------------------------------------------
  // Runs given state by state.
  // ---------------------------------------------------------------------------------------------

  ghost predicate Does(cfg: Config, s: State, a: Move, t: State) {
    Allowed(cfg, s, a) && After(cfg, s, a) == t
  }

  ghost predicate Path(cfg: Config, s: State, moves: seq<Move>, t: State) {
    Formatted(s) && Moves(cfg, s, moves) && Last(cfg, s, moves) == t
  }

  ghost predicate Reached(cfg: Config, t: State) {
    exists s, moves :: Path(cfg, s, moves, t)
  }

  lemma {:induction false} OneMore(cfg: Config, s: State, moves: seq<Move>, a: Move)
    requires Moves(cfg, s, moves) && Allowed(cfg, Last(cfg, s, moves), a)
    ensures Moves(cfg, s, moves + [a]) && Last(cfg, s, moves + [a]) == After(cfg, Last(cfg, s, moves), a)
    decreases |moves|
  {
    hide Allowed, After;
    if moves == [] {
      assert [a][1..] == [];
    } else {
      OneMore(cfg, After(cfg, s, moves[0]), moves[1..], a);
      assert (moves + [a])[1..] == moves[1..] + [a];
    }
  }

  lemma Starts(cfg: Config, s: State)
    requires Formatted(s)
    ensures Reached(cfg, s)
  {
    hide Formatted;
    assert Path(cfg, s, [], s);
  }

  lemma Goes(cfg: Config, s: State, a: Move, t: State)
    requires Reached(cfg, s) && Does(cfg, s, a, t)
    ensures Reached(cfg, t)
  {
    hide Allowed, After, Formatted;
    var s0, moves :| Path(cfg, s0, moves, s);
    OneMore(cfg, s0, moves, a);
    assert Path(cfg, s0, moves + [a], t);
  }

  // ---------------------------------------------------------------------------------------------
  // A device of one zone of one byte.
  // ---------------------------------------------------------------------------------------------

  function K(): Key {
    Key(0, 0)
  }

  function Own(ord: nat, written: nat): Option<Header> {
    Some(OwnedZone(K(), ord, written))
  }

  lemma PutOn<T>(d: T, v: T)
    ensures Put(Cell(d, []), v) == Cell(d, [v])
  {
    assert [] + [v] == [v];
  }

  function One(head: Cell<Option<Header>>, byte: Cell<Byte>, role: Role, segs: map<Key, Seg>,
               dying: map<Key, Removal>, holders: map<nat, Seg>): State
  {
    State(1, [Zone(head, [byte])], [role], segs, dying, holders)
  }

  lemma FlushByte(head: Cell<Option<Header>>, byte: Cell<Byte>)
    ensures FlushZone(Zone(head, [byte])) == Zone(Flushed(head), [Flushed(byte)])
  {
  }

  lemma FlushOne(head: Cell<Option<Header>>, byte: Cell<Byte>, role: Role, segs: map<Key, Seg>,
                 dying: map<Key, Removal>, holders: map<nat, Seg>)
    ensures Flush(One(head, byte, role, segs, dying, holders)) ==
            One(Flushed(head), Flushed(byte), role, map k | k in segs :: FlushSeg(segs[k]), dying,
                map h | h in holders :: FlushSeg(holders[h]))
  {
    var z := Zone(head, [byte]);
    FlushByte(head, byte);
    assert seq(1, i requires 0 <= i < 1 => FlushZone([z][i])) == [FlushZone(z)];
  }

  lemma ZeroByte(head: Cell<Option<Header>>, d: Byte)
    ensures ZeroZone(Zone(head, [Cell(d, [])])) == Zone(head, [Cell(d, [0])])
  {
    PutOn(d, 0 as Byte);
    assert ZeroZone(Zone(head, [Cell(d, [])])).body == [Cell(d, [0])];
  }

  function Blank(): State {
    One(Cell(None, []), Cell(0, []), Free(false), map[], map[], map[])
  }

  /** A zone of it being claimed. */
  function Claiming(head: Cell<Option<Header>>, byte: Cell<Byte>, stage: ClaimStage): State {
    One(head, byte, Claim(K(), 0, false, stage), map[], map[], map[])
  }

  function Fresh(): Seg {
    Seg([0], [], 0, [], 0, 0, Unsynced, false)
  }

  /** The segment with one byte written, at a stage of its sync. */
  function Written(stage: SyncStage): Seg {
    Fresh().(log := [Wr(0, [5])], sync := stage)
  }

  /** The segment made, and one byte written that no flush has covered. */
  function Wrote(stage: SyncStage): State {
    One(Cell(Own(0, 0), []), Cell(0, [5]), Held(K(), 0), map[K() := Written(stage)], map[], map[])
  }

  lemma Claims(cfg: Config)
    ensures Reached(cfg, Claiming(Cell(None, [Own(0, 0)]), Cell(0, [0]), Headed))
  {
    hide Reached;
    assert Formatted(Blank());
    Starts(cfg, Blank());
    var a := Claiming(Cell(None, []), Cell(0, []), Picked);
    Goes(cfg, Blank(), Sure(ByClaim(Make(K(), 0))), a);
    var b := Claiming(Cell(None, []), Cell(0, [0]), Zeroing);
    ZeroByte(Cell(None, []), 0);
    Goes(cfg, a, Sure(ByClaim(ZeroClaim(0))), b);
    var c := Claiming(Cell(None, [Own(0, 0)]), Cell(0, [0]), Headed);
    PutOn(None, Own(0, 0));
    Goes(cfg, b, Sure(ByClaim(HeadClaim(0))), c);
  }

  lemma WriteByte(head: Cell<Option<Header>>)
    ensures WriteZone(Zone(head, [Cell(0, [])]), Wr(0, [5]), 0) == Zone(head, [Cell(0, [5])])
  {
    PutOn(0 as Byte, 5);
    assert WriteZone(Zone(head, [Cell(0, [])]), Wr(0, [5]), 0).body == [Cell(0, [5])];
  }

  lemma Writes(cfg: Config)
    ensures Reached(cfg, Wrote(Unsynced))
  {
    hide Reached;
    var c := Claiming(Cell(None, [Own(0, 0)]), Cell(0, [0]), Headed);
    var d := One(Cell(Own(0, 0), []), Cell(0, []), Held(K(), 0), map[K() := Fresh()], map[], map[]);
    Claims(cfg);
    FlushOne(Cell(None, [Own(0, 0)]), Cell(0, [0]), Claim(K(), 0, false, Headed), map[], map[], map[]);
    Goes(cfg, c, Sure(ByClaim(SyncClaim(0))), d);
    WriteByte(Cell(Own(0, 0), []));
    assert WriteAll(d, K(), Wr(0, [5])) == Wrote(Unsynced).disk;
    assert Fresh().log + [Wr(0, [5])] == Written(Unsynced).log;
    Goes(cfg, d, Sure(ByIo(Write(K(), 0, [5]))), Wrote(Unsynced));
  }

  // ---------------------------------------------------------------------------------------------
  // The length before the bytes.
  // ---------------------------------------------------------------------------------------------

  /** The new length written, the byte not flushed. */
  function LengthOut(): State {
    One(Cell(Own(0, 0), [Own(0, 1)]), Cell(0, [5]), Held(K(), 0), map[K() := Written(HeadPut(1))], map[], map[])
  }

  lemma SyncsLength(cfg: Config)
    requires !cfg.dataFirst
    ensures Reached(cfg, LengthOut())
  {
    hide Reached;
    Writes(cfg);
    assert [Wr(0, [5])][..0] == [];
    assert Len(Written(Unsynced)) == 1;
    Goes(cfg, Wrote(Unsynced), Sure(ByIo(SyncLoad(K()))), Wrote(Loaded(1)));
    Goes(cfg, Wrote(Loaded(1)), SkipData(K()), Wrote(DataDone(1)));
    PutOn(Own(0, 0), Own(0, 1));
    Goes(cfg, Wrote(DataDone(1)), Sure(ByIo(SyncHead(K()))), LengthOut());
  }

  /** A crash that keeps the length and not the byte: the segment has a byte nobody wrote. */
  lemma LengthFirstBreaks(cfg: Config)
    requires !cfg.dataFirst
    ensures exists t :: Reached(cfg, t) && !Good(t)
  {
    hide Reached;
    SyncsLength(cfg);
    var t := LengthOut();
    var left := [Zone(Cell(Own(0, 1), []), [Cell(0, [])])];
    assert CrashOf(t.disk, left);
    var m := Mount(1, left);
    assert ZoneFor(left, K(), 0) == Some(0);
    assert ZonesOf(left, K()) == [0];
    assert K() in KeysOn(left);
    assert m.segs[K()].baseLen == 1;
    assert t.segs[K()].log[..0] == [];
    assert !Restored(1, t.segs[K()], m.segs[K()]);
    assert !Recovers(t, m);
  }

  // ---------------------------------------------------------------------------------------------
  // Free before the zeroes.
  // ---------------------------------------------------------------------------------------------

  function Leaving(head: Cell<Option<Header>>, byte: Cell<Byte>, role: Role, stage: RemovalStage, g: Seg): State {
    One(head, byte, role, map[], map[K() := Removal(Some(0), stage)], map[0 := g])
  }

  /** No segment left, and the zone on its way to Free. */
  function Freed(head: Cell<Option<Header>>, byte: Cell<Byte>, role: Role): State {
    One(head, byte, role, map[], map[], map[])
  }

  function Freeing(): Option<Header> {
    Some(FreeingZone)
  }

  lemma Removes(cfg: Config)
    ensures Reached(cfg, Leaving(Cell(Freeing(), []), Cell(5, []), Limbo(Some(0), Marked), FirstGone,
            Written(Unsynced).(flushed := 1)))
  {
    hide Reached;
    Writes(cfg);
    var a := Leaving(Cell(Own(0, 0), [Freeing()]), Cell(0, [5]), Doomed(K(), 0), FirstPut, Written(Unsynced));
    PutOn(Own(0, 0), Freeing());
    Goes(cfg, Wrote(Unsynced), Sure(ByRemove(Remove(K(), 0))), a);
    var b := Leaving(Cell(Freeing(), []), Cell(5, []), Limbo(Some(0), Marked), FirstGone,
      Written(Unsynced).(flushed := 1));
    FlushOne(a.disk[0].head, a.disk[0].body[0], a.role[0], a.segs, a.dying, a.holders);
    Goes(cfg, a, Sure(ByRemove(RemoveFirst(K()))), b);
  }

  lemma Closes(cfg: Config)
    ensures Reached(cfg, Freed(Cell(Freeing(), []), Cell(5, []), Limbo(Some(0), Marked)))
  {
    hide Reached;
    Removes(cfg);
    var g := Written(Unsynced).(flushed := 1);
    var b := Leaving(Cell(Freeing(), []), Cell(5, []), Limbo(Some(0), Marked), FirstGone, g);
    var c := Leaving(Cell(Freeing(), []), Cell(5, []), Limbo(Some(0), Marked), RestPut, g);
    Goes(cfg, b, Sure(ByRemove(RemoveRest(K()))), c);
    var d := c.(dying := map[]);
    FlushOne(c.disk[0].head, c.disk[0].body[0], c.role[0], c.segs, c.dying, c.holders);
    Goes(cfg, c, Sure(ByRemove(RemoveEnd(K()))), d);
    var e := Freed(Cell(Freeing(), []), Cell(5, []), Limbo(Some(0), Marked));
    Goes(cfg, d, Sure(ByRemove(Close(0))), e);
  }

  lemma FreesEarly(cfg: Config)
    requires !cfg.zeroFirst
    ensures Reached(cfg, Freed(Cell(Freeing(), [Some(FreeZone)]), Cell(5, [0]), Free(true)))
  {
    hide Reached;
    Closes(cfg);
    var e := Freed(Cell(Freeing(), []), Cell(5, []), Limbo(Some(0), Marked));
    var f := Freed(Cell(Freeing(), []), Cell(5, [0]), Limbo(None, ZeroPut));
    ZeroByte(Cell(Freeing(), []), 5);
    Goes(cfg, e, Sure(ByFree(ZeroFreed(0))), f);
    var g := Freed(Cell(Freeing(), []), Cell(5, [0]), Limbo(None, ZeroDone));
    Goes(cfg, f, SkipZero(0), g);
    var h := Freed(Cell(Freeing(), [Some(FreeZone)]), Cell(5, [0]), Free(true));
    PutOn(Freeing(), Some(FreeZone));
    Goes(cfg, g, Sure(ByFree(MarkFree(0))), h);
  }

  /** A crash that keeps the header and not the zeroes: a zone durably Free holds a removed segment's byte. */
  lemma ZeroLateBreaks(cfg: Config)
    requires !cfg.zeroFirst
    ensures exists t :: Reached(cfg, t) && !Good(t)
  {
    hide Reached;
    FreesEarly(cfg);
    var h := Freed(Cell(Freeing(), [Some(FreeZone)]), Cell(5, [0]), Free(true));
    var t := Freed(Cell(Some(FreeZone), []), Cell(5, []), Free(true));
    assert CrashOf(h.disk, t.disk);
    assert Mount(1, t.disk) == t;
    Goes(cfg, h, Sure(Crash(t.disk)), t);
    assert t.disk[0].body[0].durable == 5;
    assert !AllZero(t.disk[0]);
  }

  // ---------------------------------------------------------------------------------------------
  // A device of two zones: the other zones before the first.
  // ---------------------------------------------------------------------------------------------

  function Two(first: Zone, second: Zone, role: Role, other: Role, segs: map<Key, Seg>, dying: map<Key, Removal>,
               holders: map<nat, Seg>): State
  {
    State(1, [first, second], [role, other], segs, dying, holders)
  }

  function Clear(head: Cell<Option<Header>>): Zone {
    Zone(head, [Cell(0, [])])
  }

  function Zeroed(head: Cell<Option<Header>>): Zone {
    Zone(head, [Cell(0, [0])])
  }

  lemma FlushTwo(s: State)
    requires |s.disk| == 2 && |s.disk[0].body| == 1 && |s.disk[1].body| == 1
    ensures Flush(s) == s.(disk := [Zone(Flushed(s.disk[0].head), [Flushed(s.disk[0].body[0])]),
                                    Zone(Flushed(s.disk[1].head), [Flushed(s.disk[1].body[0])])],
                           segs := map k | k in s.segs :: FlushSeg(s.segs[k]),
                           holders := map h | h in s.holders :: FlushSeg(s.holders[h]))
  {
    assert s.disk[0].body == [s.disk[0].body[0]] && s.disk[1].body == [s.disk[1].body[0]];
    FlushByte(s.disk[0].head, s.disk[0].body[0]);
    FlushByte(s.disk[1].head, s.disk[1].body[0]);
    assert seq(2, i requires 0 <= i < 2 => FlushZone(s.disk[i])) == [FlushZone(s.disk[0]), FlushZone(s.disk[1])];
  }

  function Bare(): Zone {
    Clear(Cell(None, []))
  }

  /** A segment made of the first zone. */
  function Single(): State {
    Two(Clear(Cell(Own(0, 0), [])), Bare(), Held(K(), 0), Free(false), map[K() := Fresh()], map[], map[])
  }

  lemma Makes(cfg: Config)
    ensures Reached(cfg, Single())
  {
    hide Reached;
    var z := Two(Bare(), Bare(), Free(false), Free(false), map[], map[], map[]);
    assert Formatted(z);
    Starts(cfg, z);
    var a := z.(role := [Claim(K(), 0, false, Picked), Free(false)]);
    Goes(cfg, z, Sure(ByClaim(Make(K(), 0))), a);
    var b := Two(Zeroed(Cell(None, [])), Bare(), Claim(K(), 0, false, Zeroing), Free(false), map[], map[], map[]);
    ZeroByte(Cell(None, []), 0);
    Goes(cfg, a, Sure(ByClaim(ZeroClaim(0))), b);
    var c := Two(Zeroed(Cell(None, [Own(0, 0)])), Bare(), Claim(K(), 0, false, Headed), Free(false), map[], map[],
      map[]);
    PutOn(None, Own(0, 0));
    Goes(cfg, b, Sure(ByClaim(HeadClaim(0))), c);
    FlushTwo(c);
    Goes(cfg, c, Sure(ByClaim(SyncClaim(0))), Single());
  }

  function Double(): Seg {
    Fresh().(zones := [0, 1])
  }

  /** It grown by the second. */
  function Pair(): State {
    Two(Clear(Cell(Own(0, 0), [])), Clear(Cell(Own(1, 0), [])), Held(K(), 0), Held(K(), 1), map[K() := Double()],
        map[], map[])
  }

  lemma Grows(cfg: Config)
    ensures Reached(cfg, Pair())
  {
    hide Reached;
    Makes(cfg);
    var first, segs := Clear(Cell(Own(0, 0), [])), map[K() := Fresh().(growing := true)];
    var a := Two(first, Bare(), Held(K(), 0), Claim(K(), 1, false, Picked), segs, map[], map[]);
    Goes(cfg, Single(), Sure(ByClaim(Grow(K(), 1))), a);
    var b := Two(first, Zeroed(Cell(None, [])), Held(K(), 0), Claim(K(), 1, false, Zeroing), segs, map[], map[]);
    ZeroByte(Cell(None, []), 0);
    Goes(cfg, a, Sure(ByClaim(ZeroClaim(1))), b);
    var c := Two(first, Zeroed(Cell(None, [Own(1, 0)])), Held(K(), 0), Claim(K(), 1, false, Headed), segs, map[],
      map[]);
    PutOn(None, Own(1, 0));
    Goes(cfg, b, Sure(ByClaim(HeadClaim(1))), c);
    FlushTwo(c);
    assert [0 as nat] + [1] == [0, 1];
    Goes(cfg, c, Sure(ByClaim(SyncClaim(1))), Pair());
  }

  /** Both zones marked, neither mark flushed. */
  function BothMarked(): State {
    Two(Clear(Cell(Own(0, 0), [Freeing(), Freeing()])), Clear(Cell(Own(1, 0), [Freeing()])), Doomed(K(), 0),
        Doomed(K(), 1),
        map[], map[K() := Removal(Some(0), RestPut)], map[0 := Double()])
  }

  lemma MarksBoth(cfg: Config)
    requires !cfg.firstZoneFirst
    ensures Reached(cfg, BothMarked())
  {
    hide Reached;
    Grows(cfg);
    var a := Two(Clear(Cell(Own(0, 0), [Freeing()])), Clear(Cell(Own(1, 0), [])), Doomed(K(), 0), Doomed(K(), 1),
                 map[], map[K() := Removal(Some(0), FirstPut)], map[0 := Double()]);
    PutOn(Own(0, 0), Freeing());
    PutOn(Own(1, 0), Freeing());
    Goes(cfg, Pair(), Sure(ByRemove(Remove(K(), 0))), a);
    assert [Freeing()] + [Freeing()] == [Freeing(), Freeing()];
    assert MarkRest(a, K()) == BothMarked().disk;
    Goes(cfg, a, SkipFirst(K()), BothMarked());
  }

  /** A crash that keeps the second zone's mark and not the first's: half a segment comes back. */
  lemma RestFirstBreaks(cfg: Config)
    requires !cfg.firstZoneFirst
    ensures exists t :: Reached(cfg, t) && !Good(t)
  {
    hide Reached;
    MarksBoth(cfg);
    var t := BothMarked();
    var left := [Clear(Cell(Own(0, 0), [])), Clear(Cell(Freeing(), []))];
    assert CrashOf(t.disk, left);
    var m := Mount(1, left);
    assert ZoneFor(left, K(), 0) == Some(0);
    assert ZoneFor(left, K(), 1) == None;
    assert ZonesOf(left, K()) == [0];
    assert K() in KeysOn(left) by {
      assert left[0].head.durable.value.key == K();
    }
    assert m.segs[K()].zones == [0];
    assert !Undone(t, K(), m.segs[K()]);
    assert !Making(t, K());
    assert !Recovers(t, m);
  }

  // ---------------------------------------------------------------------------------------------
  // The theorem.
  // ---------------------------------------------------------------------------------------------

  /**
   Every run over every device keeps free zones zero and recovers from a crash at any moment if and only if
   bytes are flushed before a length, zeroes before Free and the first zone's mark before the others'.
   */
  lemma GoodIffOrdered(cfg: Config)
    ensures (forall t :: Reached(cfg, t) ==> Good(t)) <==> AllOrdered(cfg)
  {
    hide Good;
    if AllOrdered(cfg) {
      hide Formatted;
      forall t | Reached(cfg, t)
        ensures Good(t)
      {
        var s, moves :| Path(cfg, s, moves, t);
        OrderedIsGood(cfg, s, moves);
      }
    } else {
      hide Reached;
      if !cfg.dataFirst {
        LengthFirstBreaks(cfg);
      } else if !cfg.zeroFirst {
        ZeroLateBreaks(cfg);
      } else {
        RestFirstBreaks(cfg);
      }
    }
  }
}
