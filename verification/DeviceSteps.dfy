/**
 Every step but a crash keeps the invariant.
 */
module DeviceSteps {
  import opened DeviceModel
  import opened DeviceInvariant

  // ---------------------------------------------------------------------------------------------
  // Flushing.
  // ---------------------------------------------------------------------------------------------

  lemma FlushZero(z: Zone)
    ensures AllZero(z) ==> AllZero(FlushZone(z)) && ReadsZero(z)
    ensures ReadsZero(z) ==> AllZero(FlushZone(z)) && ReadsZero(FlushZone(z))
  {
    if AllZero(z) {
      forall j | 0 <= j < |z.body|
        ensures Cur(z.body[j]) == 0
      {
        var c := z.body[j];
        assert Among(c, {0});
        if c.pending != [] {
          assert c.pending[|c.pending| - 1] in c.pending;
        }
      }
    }
  }

  lemma FlushWhole(s: State, k: Key)
    requires Whole(s, k)
    ensures Whole(Flush(s), k)
    ensures Flush(s).holders[s.dying[k].holder.value] == FlushSeg(s.holders[s.dying[k].holder.value])
  {
  }

  lemma FlushDoomed(s: State, k: Key, ord: nat, i: nat, z: Zone)
    requires DoomedOk(s, k, ord, i, z)
    ensures DoomedOk(Flush(s), k, ord, i, FlushZone(z))
  {
    if s.dying[k].stage == FirstPut {
      FlushWhole(s, k);
    }
  }

  lemma FlushZoneOk(s: State, i: nat)
    requires i < |s.disk| == |s.role| && ZoneOk(s, i)
    ensures ZoneOk(Flush(s), i)
  {
    hide DoomedOk;
    hide BodyOk;
    var z := s.disk[i];
    FlushZero(z);
    match s.role[i]
    case Free(clean) =>
    case Claim(k, ord, clean, stage) =>
    case Held(k, ord) =>
      FlushBody(s.zoneLen, s.segs[k], ord, z);
    case Doomed(k, ord) => FlushDoomed(s, k, ord, i, z);
    case Limbo(h, free) =>
  }

  lemma FlushHolder(s: State, h: nat)
    requires h in s.holders && HolderOk(s, h) && |s.disk| == |s.role|
    ensures HolderOk(Flush(s), h)
  {
    hide BodyOk, LenOk;
    var g := s.holders[h];
    FlushLen(s.zoneLen, g);
    forall i | 0 <= i < |g.zones|
      ensures KeptFor(Flush(s), h, i, g.zones[i])
      ensures BodyOk(s.zoneLen, FlushSeg(g), i, Flush(s).disk[g.zones[i]])
    {
      assert KeptFor(s, h, i, g.zones[i]);
      FlushBody(s.zoneLen, g, i, s.disk[g.zones[i]]);
    }
  }

  lemma FlushSegOk(s: State, k: Key)
    requires k in s.segs && SegOk(s, k) && |s.disk| == |s.role|
    ensures SegOk(Flush(s), k)
  {
    hide LenOk;
    FlushLen(s.zoneLen, s.segs[k]);
  }

  /** A flush of the device, at any moment, is harmless to everyone. */
  lemma FlushInv(s: State)
    requires Inv(s)
    ensures Inv(Flush(s))
  {
    hide ZoneOk, HolderOk, SegOk;
    var u := Flush(s);
    forall i | 0 <= i < |u.disk|
      ensures ZoneOk(u, i)
    {
      FlushZoneOk(s, i);
    }
    forall k | k in u.segs
      ensures SegOk(u, k)
    {
      FlushSegOk(s, k);
    }
    forall h | h in u.holders
      ensures HolderOk(u, h)
    {
      FlushHolder(s, h);
    }
    forall k | k in u.dying && u.dying[k].stage == FirstPut
      ensures Whole(u, k)
    {
      FlushWhole(s, k);
    }
  }

  // ---------------------------------------------------------------------------------------------
  // What a step leaves alone stays right.
  // ---------------------------------------------------------------------------------------------

  /** All that a zone in role `r` depends on, beyond its own blocks. */
  ghost predicate SameFor(s: State, t: State, r: Role) {
    match r
    case Claim(k, _, _, _) =>
      && (k in s.dying <==> k in t.dying) && (k in s.segs <==> k in t.segs)
      && (k in s.segs ==> t.segs[k].growing == s.segs[k].growing && |t.segs[k].zones| == |s.segs[k].zones|)
    case Held(k, _) => k in s.segs ==> k in t.segs && t.segs[k] == s.segs[k]
    case Doomed(k, _) =>
      k in s.dying ==>
        && k in t.dying && t.dying[k] == s.dying[k]
        && (Whole(s, k) ==> Whole(t, k) && t.holders[s.dying[k].holder.value] == s.holders[s.dying[k].holder.value])
    case _ => true
  }

  lemma ZoneKept(s: State, t: State, i: nat)
    requires i < |s.disk| == |s.role| == |t.disk| == |t.role| && t.zoneLen == s.zoneLen
    requires t.disk[i] == s.disk[i] && t.role[i] == s.role[i] && SameFor(s, t, s.role[i]) && ZoneOk(s, i)
    ensures ZoneOk(t, i)
  {
    hide BodyOk, Whole, Among, AllZero, ReadsZero;
  }

  /** A zone no segment, removal or open handle counts on. */
  ghost predicate Loose(s: State, z: nat) {
    && InMap(s, z)
    && match s.role[z]
       case Held(_, _) => false
       case Doomed(_, _) => false
       case Limbo(h, _) => h.Some? ==> h.value !in s.holders
       case _ => true
  }

  /** `t` is `s` but for one loose zone, and perhaps live segments. */
  ghost predicate Local(s: State, t: State, z: nat) {
    && Loose(s, z) && |s.disk| == |s.role| == |t.disk| == |t.role|
    && t == s.(role := t.role, disk := t.disk, segs := t.segs)
    && forall i :: 0 <= i < |s.disk| && i != z ==> t.disk[i] == s.disk[i] && t.role[i] == s.role[i]
  }

  lemma LocalSegs(s: State, t: State, z: nat)
    requires Local(s, t, z) && t.segs == s.segs && SegsOk(s)
    ensures SegsOk(t)
  {
    hide LenOk;
    forall k | k in t.segs
      ensures SegOk(t, k)
    {
      assert SegOk(s, k);
    }
  }

  lemma LocalDying(s: State, t: State, z: nat)
    requires Local(s, t, z) && DyingOk(s)
    ensures DyingOk(t)
  {
    forall k | k in t.dying && t.dying[k].stage == FirstPut
      ensures Whole(t, k)
    {
      assert Whole(s, k);
    }
  }

  lemma LocalHolders(s: State, t: State, z: nat)
    requires Local(s, t, z) && HoldersOk(s)
    ensures HoldersOk(t)
  {
    hide LenOk, BodyOk;
    forall h | h in t.holders
      ensures HolderOk(t, h)
    {
      assert HolderOk(s, h);
      forall i | 0 <= i < |t.holders[h].zones|
        ensures KeptFor(t, h, i, t.holders[h].zones[i])
        ensures BodyOk(t.zoneLen, t.holders[h], i, t.disk[t.holders[h].zones[i]])
      {
        assert KeptFor(s, h, i, s.holders[h].zones[i]);
      }
    }
  }

  lemma LocalInv(s: State, t: State, z: nat)
    requires Inv(s) && Local(s, t, z) && t.segs == s.segs && ZoneOk(t, z) && ClaimsOk(t)
    ensures Inv(t)
  {
    LocalSegs(s, t, z);
    LocalDying(s, t, z);
    LocalHolders(s, t, z);
    forall i | 0 <= i < |t.disk|
      ensures ZoneOk(t, i)
    {
      hide ZoneOk, SegOk, HolderOk, Whole;
      if i != z {
        assert ZoneOk(s, i);
        LocalWhole(s, t, z, i);
        ZoneKept(s, t, i);
      }
    }
  }

  lemma LocalWhole(s: State, t: State, z: nat, i: nat)
    requires Local(s, t, z) && DyingOk(s) && i < |s.role|
    requires t.segs == s.segs || s.role[i].Doomed? || s.role[i].Limbo? || s.role[i].Free?
    ensures SameFor(s, t, s.role[i])
  {
    LocalDying(s, t, z);
  }

  // ---------------------------------------------------------------------------------------------
  // Steps that touch one live segment and its zones.
  // ---------------------------------------------------------------------------------------------

  ghost predicate ZoneOf(s: State, i: nat, k: Key)
    requires i < |s.role|
  {
    s.role[i].Held? && s.role[i].key == k
  }

  /** `t` is `s` but for the live segment `k`, which keeps its zones, and their blocks. */
  ghost predicate OnlySeg(s: State, t: State, k: Key) {
    && |s.disk| == |s.role| == |t.disk| && k in s.segs && k in t.segs
    && t == s.(disk := t.disk, segs := t.segs) && t.segs == s.segs[k := t.segs[k]]
    && t.segs[k].zones == s.segs[k].zones
    && (forall i :: 0 <= i < |s.disk| && !ZoneOf(s, i, k) ==> t.disk[i] == s.disk[i])
    && (forall i :: 0 <= i < |s.role| && s.role[i].Claim? && s.role[i].key == k ==>
       t.segs[k].growing == s.segs[k].growing)
  }

  lemma OnlySegHolders(s: State, t: State, k: Key)
    requires OnlySeg(s, t, k) && HoldersOk(s)
    ensures HoldersOk(t)
  {
    hide LenOk, BodyOk;
    forall h | h in t.holders
      ensures HolderOk(t, h)
    {
      assert HolderOk(s, h);
      forall i | 0 <= i < |t.holders[h].zones|
        ensures KeptFor(t, h, i, t.holders[h].zones[i])
        ensures BodyOk(t.zoneLen, t.holders[h], i, t.disk[t.holders[h].zones[i]])
      {
        assert KeptFor(s, h, i, s.holders[h].zones[i]);
        assert !ZoneOf(s, s.holders[h].zones[i], k);
      }
    }
  }

  lemma OnlySegDying(s: State, t: State, k: Key)
    requires OnlySeg(s, t, k) && DyingOk(s)
    ensures DyingOk(t)
    ensures forall i :: 0 <= i < |s.role| && !ZoneOf(s, i, k) ==> SameFor(s, t, s.role[i])
  {
    forall l | l in t.dying && t.dying[l].stage == FirstPut
      ensures Whole(t, l)
    {
      assert Whole(s, l);
    }
  }

  lemma OnlySegSegs(s: State, t: State, k: Key)
    requires OnlySeg(s, t, k) && SegsOk(s) && LenOk(t.zoneLen, t.segs[k])
    ensures SegsOk(t)
  {
    hide LenOk;
    forall l | l in t.segs
      ensures SegOk(t, l)
    {
      assert SegOk(s, l);
    }
  }

  lemma OnlySegInv(s: State, t: State, k: Key)
    requires Inv(s) && OnlySeg(s, t, k) && LenOk(t.zoneLen, t.segs[k])
    requires forall i :: 0 <= i < |s.disk| && ZoneOf(s, i, k) ==> ZoneOk(t, i)
    ensures Inv(t)
  {
    hide ZoneOk, SegOk, HolderOk, Whole, LenOk, SameFor;
    OnlySegHolders(s, t, k);
    OnlySegDying(s, t, k);
    OnlySegSegs(s, t, k);
    forall i | 0 <= i < |t.disk|
      ensures ZoneOk(t, i)
    {
      if !ZoneOf(s, i, k) {
        assert ZoneOk(s, i);
        ZoneKept(s, t, i);
      }
    }
  }
}
