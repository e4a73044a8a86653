/**
 The loops and the in-memory table the reclamation protocol is made of, as the program runs them, against the
 functions the protocol's steps are defined by.
 */
module ReclaimLoops {
  import opened Basics
  import opened ReclaimModel

  // ---------------------------------------------------------------------------------------------
  // Splitting a segment into what is kept and what is dead.
  // ---------------------------------------------------------------------------------------------

  lemma {:induction false} SelectMore(n: nat, m: nat, keepIt: nat -> bool, i: nat)
    requires i <= n <= m
    ensures Select(m, keepIt, i) == Select(n, keepIt, i) + Select(m, keepIt, n)
    decreases n - i
  {
    if i < n {
      SelectMore(n, m, keepIt, i + 1);
    }
  }

  lemma SelectNext(n: nat, keepIt: nat -> bool)
    ensures Select(n + 1, keepIt) == Select(n, keepIt) + if keepIt(n) then [n] else []
  {
    SelectMore(n, n + 1, keepIt, 0);
  }

  predicate Ascending(os: seq<nat>) {
    forall i, j :: 0 <= i < j < |os| ==> os[i] < os[j]
  }

  lemma {:induction false} SelectAscends(n: nat, keepIt: nat -> bool, i: nat)
    requires i <= n
    ensures Ascending(Select(n, keepIt, i))
    decreases n - i
  {
    if i < n {
      SelectAscends(n, keepIt, i + 1);
      var rest := Select(n, keepIt, i + 1);
      assert forall x :: 0 <= x < |rest| ==> rest[x] in rest;
    }
  }

  /**
   The first pass over a segment's records. Kept is what is live by place, or by hash if the device has no other
   copy; everything else is dropped; both in the order of the scan, and as the protocol's step has it.
   */
  method Split(p: Pass, g: SegId, records: seq<Hash>, elsewhere: set<nat>) returns (kept: seq<nat>, dropped: seq<nat>)
    ensures Ascending(kept) && Ascending(dropped)
    ensures forall o: nat :: o in kept <==>
              o < |records| && (Loc(g, o) in p.bits || (records[o] in p.live && o !in elsewhere))
    ensures forall o: nat :: o in dropped <==> o < |records| && o !in kept
    ensures kept == SplitKeep(p, g, records, elsewhere) && dropped == Select(|records|, (o: nat) => o !in kept)
  {
    var keepIt := (o: nat) => Loc(g, o) in p.bits || (o < |records| && records[o] in p.live && o !in elsewhere);
    kept, dropped := [], [];
    for o := 0 to |records|
      invariant kept == Select(o, keepIt) && dropped == Select(o, (x: nat) => !keepIt(x))
    {
      SelectNext(o, keepIt);
      SelectNext(o, (x: nat) => !keepIt(x));
      if Loc(g, o) in p.bits || (records[o] in p.live && o !in elsewhere) {
        kept := kept + [o];
      } else {
        dropped := dropped + [o];
      }
    }
    SelectAscends(|records|, keepIt, 0);
    SelectAscends(|records|, (x: nat) => !keepIt(x), 0);
    SplitIs(p, g, records, elsewhere, keepIt, kept);
    ghost var k := kept;
    SelectSame(|records|, (x: nat) => !keepIt(x), (o: nat) => o !in k, 0);
  }

  lemma SplitIs(p: Pass, g: SegId, records: seq<Hash>, elsewhere: set<nat>, keepIt: nat -> bool, kept: seq<nat>)
    requires forall o: nat :: keepIt(o) <==>
               Loc(g, o) in p.bits || (o < |records| && records[o] in p.live && o !in elsewhere)
    requires kept == Select(|records|, keepIt)
    ensures kept == SplitKeep(p, g, records, elsewhere)
  {
    SelectSame(|records|, keepIt, (o: nat) => Loc(g, o) in p.bits
               || (o < |records| && records[o] in p.live && o !in elsewhere), 0);
  }

  lemma {:induction false} SelectSame(n: nat, a: nat -> bool, b: nat -> bool, i: nat)
    requires i <= n && forall o :: i <= o < n ==> a(o) == b(o)
    ensures Select(n, a, i) == Select(n, b, i)
    decreases n - i
  {
    if i < n {
      SelectSame(n, a, b, i + 1);
    }
  }

  /** Behind what is kept already, in order, what is pinned of the rest. */
  ghost predicate Rechecked(kept: seq<nat>, n: nat, pinned: set<nat>, live: seq<nat>) {
    && kept <= live && Ascending(live[|kept|..])
    && (forall o: nat :: o in live[|kept|..] <==> o < n && o !in kept && o in pinned)
  }

  /** The pin recheck over what was dropped: pinned records are kept after all, behind the rest; the others are dead. */
  method Recheck(records: seq<Hash>, kept: seq<nat>, dropped: seq<nat>, pinned: set<nat>)
    returns (live: seq<nat>, dead: seq<Hash>)
    requires dropped == Select(|records|, (o: nat) => o !in kept)
    ensures Rechecked(kept, |records|, pinned, live)
    ensures forall h :: h in dead <==>
              exists o :: 0 <= o < |records| && o !in kept && o !in pinned && records[o] == h
    ensures live == RecheckKeep(kept, |records|, pinned) && forall h :: h in dead <==> h in DeadOf(records, live)
  {
    DroppedInside(|records|, kept, dropped);
    hide RecheckKeep, Select, Among, Dead, Rechecked, DeadOf;
    live, dead := kept, [];
    NoneChecked(records, pinned);
    for i := 0 to |dropped|
      invariant live == kept + Among(dropped[..i], pinned) && dead == Dead(records, dropped[..i], pinned)
    {
      assert dropped[..i + 1] == dropped[..i] + [dropped[i]];
      AmongNext(dropped[..i], dropped[i], pinned);
      DeadNext(records, dropped[..i], dropped[i], pinned);
      assert dropped[i] in dropped;
      if dropped[i] in pinned {
        live := live + [dropped[i]];
      } else {
        dead := dead + [records[dropped[i]]];
      }
    }
    assert dropped[..|dropped|] == dropped;
    RecheckIs(records, kept, dropped, pinned);
    RecheckKeeps(kept, |records|, pinned);
    DeadExactly(records, kept, dropped, pinned);
  }

  lemma DroppedInside(n: nat, kept: seq<nat>, dropped: seq<nat>)
    requires dropped == Select(n, (o: nat) => o !in kept)
    ensures forall o :: o in dropped <==> 0 <= o < n && o !in kept
  {
  }

  lemma NoneChecked(records: seq<Hash>, pinned: set<nat>)
    ensures Among([], pinned) == [] && Dead(records, [], pinned) == []
  {
  }

  lemma DeadExactly(records: seq<Hash>, kept: seq<nat>, dropped: seq<nat>, pinned: set<nat>)
    requires forall o :: o in dropped <==> 0 <= o < |records| && o !in kept
    ensures forall h :: h in Dead(records, dropped, pinned) <==>
              exists o :: 0 <= o < |records| && o !in kept && o !in pinned && records[o] == h
  {
    forall h
      ensures h in Dead(records, dropped, pinned) <==>
                exists o :: 0 <= o < |records| && o !in kept && o !in pinned && records[o] == h
    {
      DeadMember(records, dropped, pinned, h);
      hide Dead;
    }
  }

  lemma RecheckKeeps(kept: seq<nat>, n: nat, pinned: set<nat>)
    ensures Rechecked(kept, n, pinned, RecheckKeep(kept, n, pinned))
  {
    var more := Select(n, (o: nat) => o !in kept && o in pinned);
    SelectAscends(n, (o: nat) => o !in kept && o in pinned, 0);
    assert RecheckKeep(kept, n, pinned)[|kept|..] == more;
  }

  /** The pinned ones, in order. */
  function Among(os: seq<nat>, pinned: set<nat>): seq<nat> {
    if os == [] then [] else (if os[0] in pinned then [os[0]] else []) + Among(os[1..], pinned)
  }

  /** The hashes of the others. */
  function Dead(records: seq<Hash>, os: seq<nat>, pinned: set<nat>): seq<Hash> {
    if os == [] then []
    else (if os[0] in pinned || os[0] >= |records| then [] else [records[os[0]]]) + Dead(records, os[1..], pinned)
  }

  lemma Assoc<T>(a: seq<T>, b: seq<T>, c: seq<T>)
    ensures a + (b + c) == a + b + c
  {
  }

  lemma {:induction false} AmongNext(os: seq<nat>, o: nat, pinned: set<nat>)
    ensures Among(os + [o], pinned) == Among(os, pinned) + if o in pinned then [o] else []
  {
    if os == [] {
      assert os + [o] == [o] && [o][1..] == [];
    } else {
      assert (os + [o])[1..] == os[1..] + [o] && (os + [o])[0] == os[0];
      AmongNext(os[1..], o, pinned);
      Assoc(if os[0] in pinned then [os[0]] else [], Among(os[1..], pinned), if o in pinned then [o] else []);
    }
  }

  lemma {:induction false} DeadNext(records: seq<Hash>, os: seq<nat>, o: nat, pinned: set<nat>)
    ensures Dead(records, os + [o], pinned) == Dead(records, os, pinned) + if o in pinned || o >= |records| then []
            else [records[o]]
  {
    if os == [] {
      assert os + [o] == [o] && [o][1..] == [];
    } else {
      assert (os + [o])[1..] == os[1..] + [o] && (os + [o])[0] == os[0];
      DeadNext(records, os[1..], o, pinned);
      Assoc(if os[0] in pinned || os[0] >= |records| then [] else [records[os[0]]], Dead(records, os[1..], pinned),
            if o in pinned || o >= |records| then [] else [records[o]]);
    }
  }

  lemma {:induction false} AmongSelect(n: nat, a: nat -> bool, b: nat -> bool, pinned: set<nat>, i: nat)
    requires i <= n && forall o :: i <= o < n ==> b(o) == (a(o) && o in pinned)
    ensures Among(Select(n, a, i), pinned) == Select(n, b, i)
    decreases n - i
  {
    if i < n {
      AmongSelect(n, a, b, pinned, i + 1);
      var rest := Select(n, a, i + 1);
      assert ([i] + rest)[1..] == rest && [] + rest == rest;
    }
  }

  lemma {:induction false} DeadMember(records: seq<Hash>, os: seq<nat>, pinned: set<nat>, h: Hash)
    ensures h in Dead(records, os, pinned) <==> exists o :: o in os && o !in pinned && o < |records| && records[o] == h
  {
    if os != [] {
      DeadMember(records, os[1..], pinned, h);
      assert os == [os[0]] + os[1..];
    }
  }

  lemma RecheckIs(records: seq<Hash>, kept: seq<nat>, dropped: seq<nat>, pinned: set<nat>)
    requires dropped == Select(|records|, (o: nat) => o !in kept)
    ensures kept + Among(dropped, pinned) == RecheckKeep(kept, |records|, pinned)
    ensures forall h :: h in Dead(records, dropped, pinned) <==>
            h in DeadOf(records, RecheckKeep(kept, |records|, pinned))
  {
    var live := RecheckKeep(kept, |records|, pinned);
    AmongSelect(|records|, (o: nat) => o !in kept, (o: nat) => o !in kept && o in pinned, pinned, 0);
    assert forall o :: 0 <= o < |records| ==> (o in dropped && o !in pinned <==> o !in live);
    forall h
      ensures h in Dead(records, dropped, pinned) <==> h in DeadOf(records, live)
    {
      DeadMember(records, dropped, pinned, h);
    }
  }

  // ---------------------------------------------------------------------------------------------
  // Converging the copies of one hash.
  // ---------------------------------------------------------------------------------------------

  predicate Before(a: Loc, b: Loc) {
    a.seg < b.seg || (a.seg == b.seg && a.off < b.off)
  }

  predicate InOrder(ls: seq<Loc>) {
    forall i, j :: 0 <= i < j < |ls| ==> Before(ls[i], ls[j])
  }

  /** Into its place, unless it is there. */
  function Place(ls: seq<Loc>, l: Loc): seq<Loc> {
    if ls == [] || Before(l, ls[0]) then [l] + ls
    else if l == ls[0] then ls
    else [ls[0]] + Place(ls[1..], l)
  }

  lemma {:induction false} PlaceIs(ls: seq<Loc>, l: Loc)
    requires InOrder(ls)
    ensures InOrder(Place(ls, l)) && forall o :: o in Place(ls, l) <==> o in ls || o == l
    decreases |ls|
  {
    if ls != [] && !Before(l, ls[0]) && l != ls[0] {
      PlaceIs(ls[1..], l);
      var rest := Place(ls[1..], l);
      assert ls == [ls[0]] + ls[1..];
      assert forall i :: 0 <= i < |rest| ==> rest[i] in rest;
    }
  }

  /** A place for the hash, seen or in use. */
  predicate Known(seen: seq<Loc>, existing: Option<Loc>, l: Loc) {
    l in seen || existing == Some(l)
  }

  /**
   One hash of a scan: if it has two places or more, the one in use stays, or else the lowest becomes it, and every
   other is a loser.
   */
  method Converge(seen: seq<Loc>, existing: Option<Loc>) returns (canonical: Option<Loc>, losers: seq<Loc>)
    ensures canonical.Some? <==> exists a, b :: Known(seen, existing, a) && Known(seen, existing, b) && a != b
    ensures canonical.Some? && existing.Some? ==> canonical == existing
    ensures canonical.Some? && existing.None? ==>
              canonical.value in seen && forall l :: l in seen ==> l == canonical.value || Before(canonical.value, l)
    ensures InOrder(losers)
    ensures forall l :: l in losers <==> canonical.Some? && Known(seen, existing, l) && l != canonical.value
  {
    var locs: seq<Loc> := [];
    for i := 0 to |seen|
      invariant InOrder(locs) && forall l :: l in locs <==> l in seen[..i]
    {
      PlaceIs(locs, seen[i]);
      locs := Place(locs, seen[i]);
    }
    if existing.Some? {
      PlaceIs(locs, existing.value);
      locs := Place(locs, existing.value);
    }
    assert forall l :: l in locs <==> Known(seen, existing, l);
    if |locs| < 2 {
      return None, [];
    }
    assert Known(seen, existing, locs[0]) && Known(seen, existing, locs[1]) && locs[0] != locs[1];
    FirstIsLowest(locs);
    var chosen := if existing.Some? then existing.value else locs[0];
    losers := Others(locs, chosen);
    return Some(chosen), losers;
  }

  lemma FirstIsLowest(ls: seq<Loc>)
    requires InOrder(ls) && ls != []
    ensures forall l :: l in ls ==> l == ls[0] || Before(ls[0], l)
  {
  }

  method Others(locs: seq<Loc>, chosen: Loc) returns (losers: seq<Loc>)
    requires InOrder(locs)
    ensures InOrder(losers) && forall l :: l in losers <==> l in locs && l != chosen
  {
    losers := [];
    for i := 0 to |locs|
      invariant InOrder(losers) && forall l :: l in losers <==> l in locs[..i] && l != chosen
    {
      assert forall j :: 0 <= j < |losers| ==> losers[j] in losers;
      if locs[i] != chosen {
        losers := losers + [locs[i]];
      }
    }
  }

  /** That is the protocol's choice. */
  lemma ConvergesAsScanned(c: Scanner, seen: seq<Loc>, l: Loc)
    requires c.Choosing? && forall x :: x in seen <==> (c.h, x) in c.seen
    requires if c.found.Some? then l == c.found.value
             else l in seen && forall x :: x in seen ==> x == l || Before(l, x)
    ensures Canonical(c, l)
  {
    if c.found.None? {
      assert (c.h, l) in c.seen;
      forall o | o in Candidates(c)
        ensures l.seg < o.seg || (l.seg == o.seg && l.off <= o.off)
      {
        assert (c.h, o) in c.seen;
      }
    }
  }

  /** And only that: two places the protocol could settle on are one. */
  lemma CanonicalIsOne(c: Scanner, l: Loc, m: Loc)
    requires c.Choosing? && Canonical(c, l) && Canonical(c, m)
    ensures l == m
  {
  }

  // ---------------------------------------------------------------------------------------------
  // The seal generations.
  // ---------------------------------------------------------------------------------------------

  const GRACE: nat := 2
  const PRUNE_AT: nat := 4096

  /** When each segment sealed, in published generations; `stamps` is every stamp of the mount. */
  class SealGenerations {
    var published: nat
    var sealed: map<SegId, nat>
    ghost var stamps: map<SegId, nat>

    ghost predicate Valid()
      reads this
    {
      && (forall g :: g in stamps ==> stamps[g] <= published)
      && (forall g :: g in sealed ==> g in stamps && sealed[g] == stamps[g])
      && (forall g :: g in stamps && g !in sealed ==> published >= stamps[g] + GRACE)
    }

    constructor (published: nat)
      ensures Valid() && stamps == map[] && this.published == published
    {
      this.published, sealed, stamps := published, map[], map[];
    }

    /** A checkpoint publishes: the counter only ever rises. */
    method Publish(generation: nat)
      requires Valid() && generation >= published
      modifies this`published
      ensures Valid() && published == generation
    {
      published := generation;
    }

    /** A segment is sealing now. Past the memory bound, entries that no longer matter are dropped. */
    method Stamp(g: SegId)
      requires Valid() && g !in stamps
      modifies this`sealed, this`stamps
      ensures Valid() && stamps == old(stamps)[g := published]
      ensures |sealed| < PRUNE_AT || forall s :: s in sealed ==> published < stamps[s] + GRACE
    {
      sealed, stamps := sealed[g := published], stamps[g := published];
      if |sealed| >= PRUNE_AT {
        sealed := map s | s in sealed && published < sealed[s] + GRACE :: sealed[s];
      }
    }

    /** Whether a segment has aged past the gate. The answer is that of the full history, whatever has been pruned. */
    method MayReclaim(g: SegId) returns (yes: bool)
      requires Valid()
      modifies this`sealed
      ensures Valid() && (yes <==> g in stamps ==> published >= stamps[g] + GRACE)
    {
      if g !in sealed {
        return true;
      }
      if published >= sealed[g] + GRACE {
        sealed := sealed - {g};
        return true;
      }
      return false;
    }
  }
}
