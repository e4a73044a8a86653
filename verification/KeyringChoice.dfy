/**
 Which keyring to unlock when several devices hold copies, of one generation or of several.
 */
module KeyringChoice {
  import opened Basics

  /**
   What unlocking a copy gives: it opens, it opens but is proven forged (its MAC or an epoch check fails), or the key
   is refused.
   */
  datatype Verdict = Opens | Forged | Refuses

  /** A device's keyring, parsed and checksummed. */
  datatype Copy = Copy(root: nat, pool: nat, generation: nat, body: nat, verdict: Verdict)

  // ---------------------------------------------------------------------------------------------
  // Reading every device's copy.
  // ---------------------------------------------------------------------------------------------

  /** Newest first; copies of one generation as they came. */
  function Insert(copies: seq<Copy>, c: Copy): seq<Copy> {
    if copies == [] || copies[|copies| - 1].generation >= c.generation then copies + [c]
    else Insert(copies[..|copies| - 1], c) + [copies[|copies| - 1]]
  }

  function NewestFirst(copies: seq<Copy>): seq<Copy> {
    if copies == [] then [] else Insert(NewestFirst(copies[..|copies| - 1]), copies[|copies| - 1])
  }

  predicate Descending(copies: seq<Copy>) {
    forall i, j :: 0 <= i < j < |copies| ==> copies[i].generation >= copies[j].generation
  }

  lemma {:induction false} InsertKeeps(copies: seq<Copy>, c: Copy)
    ensures multiset(Insert(copies, c)) == multiset(copies) + multiset{c}
    decreases |copies|
  {
    if copies != [] && copies[|copies| - 1].generation < c.generation {
      assert copies == copies[..|copies| - 1] + [copies[|copies| - 1]];
      InsertKeeps(copies[..|copies| - 1], c);
    }
  }

  lemma {:induction false} InsertOrders(copies: seq<Copy>, c: Copy)
    requires Descending(copies)
    ensures Descending(Insert(copies, c)) && forall x :: x in Insert(copies, c) ==> x == c || x in copies
    decreases |copies|
  {
    if copies != [] && copies[|copies| - 1].generation < c.generation {
      var front, last := copies[..|copies| - 1], copies[|copies| - 1];
      InsertOrders(front, c);
      var r := Insert(front, c);
      assert forall x :: x in front ==> x.generation >= last.generation;
      assert forall i :: 0 <= i < |r| ==> r[i] in r;
    }
  }

  lemma {:induction false} NewestFirstIs(copies: seq<Copy>)
    ensures Descending(NewestFirst(copies)) && multiset(NewestFirst(copies)) == multiset(copies)
    decreases |copies|
  {
    if copies != [] {
      var front, last := copies[..|copies| - 1], copies[|copies| - 1];
      assert copies == front + [last];
      NewestFirstIs(front);
      InsertOrders(NewestFirst(front), last);
      InsertKeeps(NewestFirst(front), last);
    }
  }

  /** The copies of one generation. */
  function OfGeneration(copies: seq<Copy>, g: nat): seq<Copy> {
    if copies == [] then []
    else
      OfGeneration(copies[..|copies| - 1], g)
      + if copies[|copies| - 1].generation == g then [copies[|copies| - 1]] else []
  }

  lemma {:induction false} InsertStable(copies: seq<Copy>, c: Copy, g: nat)
    ensures OfGeneration(Insert(copies, c), g) == OfGeneration(copies, g) + if c.generation == g then [c] else []
    decreases |copies|
  {
    if copies == [] || copies[|copies| - 1].generation >= c.generation {
      assert (copies + [c])[..|copies|] == copies;
    } else {
      var front, last := copies[..|copies| - 1], copies[|copies| - 1];
      InsertStable(front, c, g);
      var r := Insert(front, c);
      assert (r + [last])[..|r|] == r;
    }
  }

  lemma {:induction false} NewestFirstStable(copies: seq<Copy>, g: nat)
    ensures OfGeneration(NewestFirst(copies), g) == OfGeneration(copies, g)
    decreases |copies|
  {
    if copies != [] {
      NewestFirstStable(copies[..|copies| - 1], g);
      InsertStable(NewestFirst(copies[..|copies| - 1]), copies[|copies| - 1], g);
    }
  }

  /** All of one pool, and no two of one generation that differ. */
  predicate Agreed(copies: seq<Copy>) {
    && (forall c, d :: c in copies && d in copies ==> c.pool == d.pool)
    && (forall c, d :: c in copies && d in copies && c.generation == d.generation ==> c.body == d.body)
  }

  /** In order, copies of one generation are next to each other, so comparing neighbours compares them all. */
  lemma {:induction false} NeighboursSuffice(all: seq<Copy>, i: nat, j: nat)
    requires Descending(all) && i <= j < |all| && all[i].generation == all[j].generation
    requires forall n :: 0 <= n < |all| - 1 && all[n].generation == all[n + 1].generation ==>
             all[n].body == all[n + 1].body
    ensures all[i].body == all[j].body
    decreases j - i
  {
    if i < j {
      NeighboursSuffice(all, i + 1, j);
    }
  }

  /** Two neighbours of one generation that differ, if there are any. */
  method Diverged(all: seq<Copy>) returns (bad: bool)
    ensures bad <==>
       exists n :: 0 <= n < |all| - 1 && all[n].generation == all[n + 1].generation && all[n].body != all[n + 1].body
  {
    for n := 0 to |all|
      invariant forall m :: 0 <= m < n && m + 1 < |all| && all[m].generation == all[m + 1].generation ==>
                all[m].body == all[m + 1].body
    {
      if n + 1 < |all| && all[n].generation == all[n + 1].generation && all[n].body != all[n + 1].body {
        return true;
      }
    }
    return false;
  }

  /** `read_all`: newest first, those of one generation in the order found, or nothing if copies disagree. */
  method ReadAll(found: seq<Copy>) returns (r: Option<seq<Copy>>)
    ensures r.Some? <==> Agreed(found)
    ensures r.Some? ==>
              && Descending(r.value) && multiset(r.value) == multiset(found)
              && forall g: nat :: OfGeneration(r.value, g) == OfGeneration(found, g)
  {
    forall g: nat
      ensures OfGeneration(NewestFirst(found), g) == OfGeneration(found, g)
    {
      NewestFirstStable(found, g);
    }
    hide OfGeneration;
    for i := 0 to |found|
      invariant forall j :: 0 <= j < i ==> found[j].pool == found[0].pool
    {
      if found[i].pool != found[0].pool {
        assert found[i] in found && found[0] in found;
        return None;
      }
    }
    var all := [];
    for i := 0 to |found|
      invariant all == NewestFirst(found[..i])
    {
      assert found[..i + 1][..i] == found[..i];
      all := Insert(all, found[i]);
    }
    assert found[..|found|] == found;
    NewestFirstIs(found);
    SameMembers(all, found);
    hide NewestFirst, Agreed;
    var bad := Diverged(all);
    if bad {
      Disagree(found, all);
      return None;
    }
    AllAgree(found, all);
    return Some(all);
  }

  lemma Disagree(found: seq<Copy>, all: seq<Copy>)
    requires forall c :: c in all <==> c in found
    requires exists n ::
               0 <= n < |all| - 1 && all[n].generation == all[n + 1].generation && all[n].body != all[n + 1].body
    ensures !Agreed(found)
  {
    var n :| 0 <= n < |all| - 1 && all[n].generation == all[n + 1].generation && all[n].body != all[n + 1].body;
    assert all[n] in all && all[n + 1] in all;
  }

  lemma SameMembers(a: seq<Copy>, b: seq<Copy>)
    requires multiset(a) == multiset(b)
    ensures forall c :: c in a <==> c in b
  {
    forall c
      ensures c in a <==> c in b
    {
      assert c in a <==> c in multiset(a);
      assert c in b <==> c in multiset(b);
    }
  }

  lemma AllAgree(found: seq<Copy>, all: seq<Copy>)
    requires Descending(all) && (forall c :: c in all <==> c in found)
    requires forall j :: 0 <= j < |found| ==> found[j].pool == found[0].pool
    requires forall n :: 0 <= n < |all| - 1 && all[n].generation == all[n + 1].generation ==>
             all[n].body == all[n + 1].body
    ensures Agreed(found)
  {
    forall c, d | c in found && d in found && c.generation == d.generation
      ensures c.body == d.body
    {
      var i :| 0 <= i < |all| && all[i] == c;
      var j :| 0 <= j < |all| && all[j] == d;
      if i <= j {
        NeighboursSuffice(all, i, j);
      } else {
        NeighboursSuffice(all, j, i);
      }
    }
  }

  // ---------------------------------------------------------------------------------------------
  // Choosing one.
  // ---------------------------------------------------------------------------------------------

  datatype Choice =
    | Unlocked(generation: nat, stale: set<nat>)
    | NewestRefuses(generation: nat)
    | Refused
    | AllForged
    | NoKeyring

  predicate Held(all: seq<Copy>, g: nat) {
    exists i :: 0 <= i < |all| && all[i].generation == g
  }

  lemma HeldLater(all: seq<Copy>, g: nat)
    requires Held(all, g) && all[0].generation != g
    ensures Held(all[1..], g)
  {
    var i :| 0 <= i < |all| && all[i].generation == g;
    assert all[1..][i - 1] == all[i];
  }

  /** The copy of generation `g` of lowest index. */
  predicate FirstOf(all: seq<Copy>, g: nat, c: Copy) {
    exists i :: 0 <= i < |all| && c == all[i] && c.generation == g && forall j :: 0 <= j < i ==> all[j].generation != g
  }

  /** The copy of a generation that is tried: the first. */
  function Tried(all: seq<Copy>, g: nat): (c: Copy)
    requires Held(all, g)
    ensures FirstOf(all, g, c)
  {
    if all[0].generation == g then all[0]
    else
      HeldLater(all, g);
      var rest := all[1..];
      assert forall i :: 0 <= i < |rest| ==> rest[i] == all[i + 1];
      Tried(rest, g)
  }

  /** Every newer generation was tried, and proven forged. */
  ghost predicate NewerForged(all: seq<Copy>, g: nat) {
    forall h: nat :: Held(all, h) && h > g ==> Tried(all, h).verdict == Forged
  }

  /** Devices without a copy of generation `g`. */
  function Lacking(roots: set<nat>, all: seq<Copy>, g: nat): set<nat> {
    set r | r in roots && forall i :: 0 <= i < |all| ==> !(all[i].root == r && all[i].generation == g)
  }

  /** Distinct generations, newest first. */
  method Generations(all: seq<Copy>) returns (gens: seq<nat>)
    requires Descending(all)
    ensures (forall i, j :: 0 <= i < j < |gens| ==> gens[i] > gens[j]) && forall g :: g in gens <==> Held(all, g)
  {
    gens := [];
    for i := 0 to |all|
      invariant forall a, b :: 0 <= a < b < |gens| ==> gens[a] > gens[b]
      invariant forall g :: g in gens <==> exists j :: 0 <= j < i && all[j].generation == g
      invariant gens != [] ==> i > 0 && gens[|gens| - 1] == all[i - 1].generation
      invariant i > 0 ==> gens != []
    {
      if gens == [] || gens[|gens| - 1] != all[i].generation {
        gens := gens + [all[i].generation];
      }
    }
  }

  /** Roots of the copies of one generation, and of those at or above it. */
  function RootsAt(all: seq<Copy>, g: nat): set<nat> {
    set i | 0 <= i < |all| && all[i].generation == g :: all[i].root
  }

  function RootsFrom(all: seq<Copy>, g: nat): set<nat> {
    set i | 0 <= i < |all| && all[i].generation >= g :: all[i].root
  }

  /**
   The outcome: a generation that opens, all newer ones tried and proven forged, with every device that lacks
   it stale; or the newest not proven forged, if it refuses the key; or nothing genuine at all.
   */
  ghost predicate Chosen(roots: set<nat>, all: seq<Copy>, r: Choice) {
    match r
    case Unlocked(g, stale) =>
      Held(all, g) && Tried(all, g).verdict == Opens && NewerForged(all, g) && stale == Lacking(roots, all, g)
    case NewestRefuses(g) => Stopped(all, g) && exists h: nat :: h < g && Held(all, h)
    case Refused => exists g: nat :: Stopped(all, g) && forall h: nat :: Held(all, h) ==> h >= g
    case AllForged => all != [] && forall g: nat :: Held(all, g) ==> Tried(all, g).verdict == Forged
    case NoKeyring => all == []
  }

  /** The newest generation not proven forged refuses the key. */
  ghost predicate Stopped(all: seq<Copy>, g: nat) {
    Held(all, g) && Tried(all, g).verdict == Refuses && NewerForged(all, g)
  }

  /**
   `unlock_newest`: a generation is unlocked only if every newer one was tried and proven forged; one that
   merely refuses the key ends the search. Every device without the chosen generation is stale, and no other.
   */
  method UnlockNewest(roots: set<nat>, all: seq<Copy>) returns (r: Choice)
    requires Descending(all) && (forall i, j :: 0 <= i < j < |all| ==> all[i].root != all[j].root)
    requires forall i :: 0 <= i < |all| ==> all[i].root in roots
    ensures Chosen(roots, all, r)
  {
    if all == [] {
      return NoKeyring;
    }
    hide Tried, FirstOf, Held, NewerForged, ForgedRoots, Lacking, RootsAt, RootsFrom;
    var gens := Generations(all);
    var forged: set<nat> := {};
    NoneForged(all);
    assert gens[..0] == [];
    for i := 0 to |gens|
      invariant forall j :: 0 <= j < i ==> Held(all, gens[j]) && Tried(all, gens[j]).verdict == Forged
      invariant forged == ForgedRoots(all, gens[..i])
    {
      var g := gens[i];
      assert g in gens;
      NewerTried(all, gens, i);
      assert gens[..i + 1] == gens[..i] + [g];
      MoreForged(all, gens[..i], g);
      match Tried(all, g).verdict
      case Opens =>
        StaleIs(roots, all, gens, i);
        return Unlocked(g, (roots - RootsFrom(all, g)) + forged);
      case Forged => forged := forged + RootsAt(all, g);
      case Refuses =>
        if i + 1 < |gens| {
          assert gens[i + 1] in gens;
          return NewestRefuses(g);
        }
        assert Stopped(all, g);
        return Refused;
    }
    return AllForged;
  }

  /** Roots whose copy is of one of the generations `gens`. */
  function ForgedRoots(all: seq<Copy>, gens: seq<nat>): set<nat> {
    set n | 0 <= n < |all| && all[n].generation in gens :: all[n].root
  }

  lemma NoneForged(all: seq<Copy>)
    ensures ForgedRoots(all, []) == {}
  {
  }

  lemma MoreForged(all: seq<Copy>, gens: seq<nat>, g: nat)
    ensures ForgedRoots(all, gens + [g]) == ForgedRoots(all, gens) + RootsAt(all, g)
  {
  }

  lemma NewerTried(all: seq<Copy>, gens: seq<nat>, i: nat)
    requires (forall a, b :: 0 <= a < b < |gens| ==> gens[a] > gens[b]) && (forall g :: g in gens <==> Held(all, g))
             && i < |gens|
    requires forall j :: 0 <= j < i ==> Held(all, gens[j]) && Tried(all, gens[j]).verdict == Forged
    ensures NewerForged(all, gens[i]) && (i + 1 == |gens| ==> forall h :: Held(all, h) ==> h >= gens[i])
  {
    forall h | Held(all, h) && h > gens[i]
      ensures Tried(all, h).verdict == Forged
    {
      assert h in gens;
    }
    if i + 1 == |gens| {
      forall h | Held(all, h)
        ensures h >= gens[i]
      {
        assert h in gens;
      }
    }
  }

  lemma StaleIs(roots: set<nat>, all: seq<Copy>, gens: seq<nat>, i: nat)
    requires (forall a, b :: 0 <= a < b < |all| ==> all[a].root != all[b].root)
             && (forall n :: 0 <= n < |all| ==> all[n].root in roots)
    requires (forall a, b :: 0 <= a < b < |gens| ==> gens[a] > gens[b]) && (forall g :: g in gens <==> Held(all, g))
             && i < |gens|
    ensures (roots - RootsFrom(all, gens[i])) + ForgedRoots(all, gens[..i]) == Lacking(roots, all, gens[i])
  {
    var g := gens[i];
    forall r | r in roots
      ensures r in (roots - RootsFrom(all, g)) + ForgedRoots(all, gens[..i]) <==> r in Lacking(roots, all, g)
    {
      if n :| 0 <= n < |all| && all[n].root == r {
        assert Held(all, all[n].generation);
        assert all[n].generation in gens;
        assert all[n].generation in gens[..i] <==> all[n].generation > g;
        assert forall m :: 0 <= m < |all| && all[m].root == r ==> m == n;
      }
    }
  }
}
