/**
 A segment writer that fans out to several devices and drops each that fails.

 Which replicas fail an operation is given by a set of device slots, as arbitrary as devices are. A replica
 that fails is dropped with whatever it holds.
 */
module SegmentWriting {
  import opened Basics
  import ZoneIo
  import opened SegmentScan
  import opened SegmentLog

  datatype Replica = Replica(id: nat, bytes: seq<Byte>)

  /** The replicas that did not fail, each with the operation done. */
  function Kept(files: seq<Replica>, fails: set<nat>, op: seq<Byte> -> seq<Byte>): seq<Replica> {
    if files == [] then []
    else (if files[0].id in fails then [] else [Replica(files[0].id, op(files[0].bytes))]) + Kept(files[1..], fails, op)
  }

  function Dropped(files: seq<Replica>, fails: set<nat>): seq<nat> {
    if files == [] then [] else (if files[0].id in fails then [files[0].id] else []) + Dropped(files[1..], fails)
  }

  function Ids(files: seq<Replica>): seq<nat> {
    if files == [] then [] else [files[0].id] + Ids(files[1..])
  }

  /** The slots that did not fail. */
  function Left(ids: seq<nat>, fails: set<nat>): seq<nat> {
    if ids == [] then [] else (if ids[0] in fails then [] else [ids[0]]) + Left(ids[1..], fails)
  }

  lemma {:induction false} KeptIds(files: seq<Replica>, fails: set<nat>, op: seq<Byte> -> seq<Byte>)
    ensures Ids(Kept(files, fails, op)) == Left(Ids(files), fails)
  {
    if files != [] {
      KeptIds(files[1..], fails, op);
      var f, rest := Replica(files[0].id, op(files[0].bytes)), Kept(files[1..], fails, op);
      assert Ids(files)[1..] == Ids(files[1..]) && ([f] + rest)[1..] == rest && [] + rest == rest;
    }
  }

  /** Once no replica is left, none comes back. */
  lemma NoneLater(files: seq<Replica>, ids: seq<nat>, fails0: set<nat>, fails1: set<nat>, fails2: set<nat>)
    requires files == [] && Ids(files) == Left(ids, fails0)
    ensures Ids(files) == Left(Left(ids, fails0), fails1) == Left(Left(Left(ids, fails0), fails1), fails2)
  {
  }

  lemma {:induction false} OneMore(files: seq<Replica>, f: Replica, fails: set<nat>, op: seq<Byte> -> seq<Byte>)
    ensures Kept(files + [f], fails, op) ==
            Kept(files, fails, op) + if f.id in fails then [] else [Replica(f.id, op(f.bytes))]
    ensures Dropped(files + [f], fails) == Dropped(files, fails) + if f.id in fails then [f.id] else []
  {
    if files == [] {
      assert files + [f] == [f] && [f][1..] == [];
    } else {
      assert (files + [f])[1..] == files[1..] + [f];
      OneMore(files[1..], f, fails, op);
    }
  }

  /** A pass over the replicas that has done the first `n` of them. */
  ghost predicate Progress(was: seq<Replica>, n: nat, fails: set<nat>, op: seq<Byte> -> seq<Byte>,
                           files: seq<Replica>, i: nat, dropped: seq<nat>) {
    && n <= |was| && i == |Kept(was[..n], fails, op)|
    && files == Kept(was[..n], fails, op) + was[n..] && dropped == Dropped(was[..n], fails)
  }

  lemma Starts(was: seq<Replica>, fails: set<nat>, op: seq<Byte> -> seq<Byte>)
    ensures Progress(was, 0, fails, op, was, 0, [])
  {
    assert was[0..] == was;
  }

  /** The next replica is the one at hand: dropped if it fails, and stepped over if not. */
  lemma Steps(was: seq<Replica>, n: nat, fails: set<nat>, op: seq<Byte> -> seq<Byte>, files: seq<Replica>, i: nat,
              dropped: seq<nat>)
    requires Progress(was, n, fails, op, files, i, dropped) && i < |files|
    ensures n < |was| && files[i] == was[n]
    ensures files[i].id in fails ==> Progress(was, n + 1, fails, op, files[..i] + files[i + 1..], i,
            dropped + [files[i].id])
    ensures files[i].id !in fails ==> Progress(was, n + 1, fails, op,
            files[i := Replica(files[i].id, op(files[i].bytes))], i + 1, dropped)
  {
    var kept := Kept(was[..n], fails, op);
    assert was[..n + 1] == was[..n] + [was[n]] && was[n..] == [was[n]] + was[n + 1..];
    OneMore(was[..n], was[n], fails, op);
    hide Kept, Dropped;
    assert files[..i] == kept && files[i + 1..] == was[n + 1..];
    assert files[i := Replica(files[i].id, op(files[i].bytes))] ==
           kept + [Replica(files[i].id, op(files[i].bytes))] + was[n + 1..];
  }

  lemma Ends(was: seq<Replica>, n: nat, fails: set<nat>, op: seq<Byte> -> seq<Byte>, files: seq<Replica>, i: nat,
             dropped: seq<nat>)
    requires Progress(was, n, fails, op, files, i, dropped) && (i == |files| || n == |was|)
    ensures files == Kept(was, fails, op) && dropped == Dropped(was, fails)
  {
    assert was[n..] == [];
    assert was[..n] == was;
  }

  lemma IdsFirst(f: Replica, rest: seq<Replica>)
    ensures Ids([f] + rest) == [f.id] + Ids(rest)
  {
    assert ([f] + rest)[1..] == rest;
  }

  /** Every slot is either kept or dropped, and none is lost or doubled. */
  lemma {:induction false} KeptOrDropped(files: seq<Replica>, fails: set<nat>, op: seq<Byte> -> seq<Byte>)
    ensures multiset(Ids(files)) == multiset(Ids(Kept(files, fails, op))) + multiset(Dropped(files, fails))
  {
    if files != [] {
      var f, rest := Replica(files[0].id, op(files[0].bytes)), Kept(files[1..], fails, op);
      var gone := Dropped(files[1..], fails);
      KeptOrDropped(files[1..], fails, op);
      IdsFirst(f, rest);
      assert Ids(files) == [f.id] + Ids(files[1..]);
      assert Kept(files, fails, op) == (if f.id in fails then [] else [f]) + rest;
      assert Dropped(files, fails) == (if f.id in fails then [f.id] else []) + gone;
      hide Ids, Kept, Dropped;
      assert [] + rest == rest && [] + gone == gone;
    }
  }

  /** A kept replica did not fail, and has the operation done. */
  lemma {:induction false} KeptIs(files: seq<Replica>, fails: set<nat>, op: seq<Byte> -> seq<Byte>,
                                  i: nat) returns (j: nat)
    requires i < |Kept(files, fails, op)|
    ensures j < |files| && Kept(files, fails, op)[i] == Replica(files[j].id, op(files[j].bytes))
            && files[j].id !in fails
  {
    if files[0].id in fails {
      j := KeptIs(files[1..], fails, op, i);
      j := j + 1;
    } else if i == 0 {
      j := 0;
    } else {
      j := KeptIs(files[1..], fails, op, i - 1);
      j := j + 1;
    }
  }

  /** What is in a replica's file up to the writer's cursor. */
  ghost predicate Prefix(bytes: seq<Byte>, front: seq<Byte>) {
    |front| <= |bytes| && bytes[..|front|] == front
  }

  /** A write at the end of what counts puts it there. */
  lemma OverlayExtends(bytes: seq<Byte>, front: seq<Byte>, data: seq<Byte>)
    requires Prefix(bytes, front)
    ensures Prefix(ZoneIo.Overlay(bytes, |front|, data), front + data)
  {
  }

  /** Overwriting the first page leaves the rest. */
  lemma OverlayPage(bytes: seq<Byte>, page: seq<Byte>, rest: seq<Byte>, other: seq<Byte>)
    requires Prefix(bytes, page + rest) && |other| == |page|
    ensures Prefix(ZoneIo.Overlay(bytes, 0, other), other + rest)
  {
  }

  /** All replicas hold the same bytes, which begin with `front`. */
  ghost predicate Same(files: seq<Replica>, front: seq<Byte>) {
    && (forall i, j :: 0 <= i < |files| && 0 <= j < |files| ==> files[i].bytes == files[j].bytes)
    && (forall i :: 0 <= i < |files| ==> Prefix(files[i].bytes, front))
  }

  /** An operation that does one thing to what counts, done to all replicas, keeps them the same. */
  lemma KeptSame(files: seq<Replica>, fails: set<nat>, op: seq<Byte> -> seq<Byte>, front: seq<Byte>, next: seq<Byte>)
    requires Same(files, front) && forall b :: Prefix(b, front) ==> Prefix(op(b), next)
    ensures Same(Kept(files, fails, op), next)
  {
    hide Prefix, Kept;
    var kept := Kept(files, fails, op);
    forall i | 0 <= i < |kept|
      ensures Prefix(kept[i].bytes, next)
    {
      var j := KeptIs(files, fails, op, i);
    }
    forall i, j | 0 <= i < |kept| && 0 <= j < |kept|
      ensures kept[i].bytes == kept[j].bytes
    {
      var x := KeptIs(files, fails, op, i);
      var y := KeptIs(files, fails, op, j);
    }
  }

  /** The three writes of one record. */
  function PutRecord(bytes: seq<Byte>, at: nat, r: Rec): seq<Byte>
    requires |r.encoded| < U32_LIMIT
  {
    var b := ZoneIo.Overlay(bytes, at, Le32(|r.encoded|));
    var c := ZoneIo.Overlay(b, at + 4, r.encoded);
    ZoneIo.Overlay(c, at + 4 + |r.encoded|, r.payload)
  }

  lemma PutRecordExtends(bytes: seq<Byte>, front: seq<Byte>, r: Rec)
    requires |r.encoded| < U32_LIMIT && Prefix(bytes, front)
    ensures Prefix(PutRecord(bytes, |front|, r), front + Framed(r))
  {
    hide Prefix, Le32;
    var le := Le32(|r.encoded|);
    OverlayExtends(bytes, front, le);
    var b := ZoneIo.Overlay(bytes, |front|, le);
    OverlayExtends(b, front + le, r.encoded);
    var c := ZoneIo.Overlay(b, |front + le|, r.encoded);
    OverlayExtends(c, front + le + r.encoded, r.payload);
    assert front + le + r.encoded + r.payload == front + (le + r.encoded + r.payload);
  }

  function PutFooter(bytes: seq<Byte>, at: nat, footer: seq<Byte>): seq<Byte>
    requires |footer| < U32_LIMIT
  {
    ZoneIo.Overlay(ZoneIo.Overlay(bytes, at, Le32(|footer|)), at + 4, footer)
  }

  lemma PutFooterExtends(bytes: seq<Byte>, front: seq<Byte>, footer: seq<Byte>)
    requires |footer| < U32_LIMIT && Prefix(bytes, front)
    ensures Prefix(PutFooter(bytes, |front|, footer), front + (Le32(|footer|) + footer))
  {
    hide Prefix, Le32;
    var le := Le32(|footer|);
    OverlayExtends(bytes, front, le);
    OverlayExtends(ZoneIo.Overlay(bytes, |front|, le), front + le, footer);
    assert front + le + footer == front + (le + footer);
  }

  /** The replicas hold the records acknowledged, and the writer's counters are theirs. */
  ghost predicate Written(fmt: Format, page: seq<Byte>, files: seq<Replica>, cursor: nat, recordCount: nat,
                          hashes: seq<nat>, records: seq<Rec>) {
    && AllSound(fmt, records) && Same(files, page + Log(fmt, records))
    && cursor == |page| + |Log(fmt, records)| && recordCount == |records|
    && hashes == seq(|records|, i requires 0 <= i < |records| => records[i].header.contentHash)
  }

  /** Listed and dropped slots together are the slots the writer started with. */
  ghost predicate Accounted(files: seq<Replica>, gone: seq<nat>, start: multiset<nat>) {
    multiset(Ids(files)) + multiset(gone) == start
  }

  /** The slots still to be reported are the last ones dropped. */
  ghost predicate Unreported(faulted: seq<nat>, gone: seq<nat>) {
    |faulted| <= |gone| && faulted == gone[|gone| - |faulted|..]
  }

  lemma MoreUnreported(faulted: seq<nat>, gone: seq<nat>, more: seq<nat>)
    requires Unreported(faulted, gone)
    ensures Unreported(faulted + more, gone + more)
  {
  }

  /** What was dropped from one list of slots to the next. */
  function Since(before: seq<nat>, now: seq<nat>): seq<nat>
    requires |before| <= |now|
  {
    now[|before|..]
  }

  /** Whatever is dropped is both remembered and reported. */
  ghost predicate Reported(faulted: seq<nat>, gone: seq<nat>, nowFaulted: seq<nat>, nowGone: seq<nat>) {
    gone <= nowGone && nowFaulted == faulted + Since(gone, nowGone)
  }

  lemma ReportedTwice(f0: seq<nat>, g0: seq<nat>, f1: seq<nat>, g1: seq<nat>, f2: seq<nat>, g2: seq<nat>)
    requires Reported(f0, g0, f1, g1) && Reported(f1, g1, f2, g2)
    ensures Reported(f0, g0, f2, g2)
  {
    assert Since(g0, g2) == Since(g0, g1) + Since(g1, g2);
  }

  lemma ReportedMore(faulted: seq<nat>, gone: seq<nat>, more: seq<nat>)
    ensures Reported(faulted, gone, faulted + more, gone + more)
  {
  }

  lemma FramedLen(r: Rec)
    requires |r.encoded| < U32_LIMIT
    ensures |Framed(r)| == 4 + |r.encoded| + |r.payload|
  {
  }

  lemma StillAccounted(files: seq<Replica>, fails: set<nat>, op: seq<Byte> -> seq<Byte>, gone: seq<nat>,
                       start: multiset<nat>)
    requires Accounted(files, gone, start)
    ensures Accounted(Kept(files, fails, op), gone + Dropped(files, fails), start)
  {
    KeptOrDropped(files, fails, op);
  }

  /** One record more, on every replica that did not fail. */
  lemma Appended(fmt: Format, page: seq<Byte>, files: seq<Replica>, cursor: nat, count: nat, hashes: seq<nat>,
                 records: seq<Rec>, r: Rec, fails: set<nat>, op: seq<Byte> -> seq<Byte>)
    requires Written(fmt, page, files, cursor, count, hashes, records) && Sound(fmt, r)
    requires forall b :: op(b) == PutRecord(b, cursor, r)
    ensures Written(fmt, page, Kept(files, fails, op), cursor + r.header.recordLen, count + 1,
            hashes + [r.header.contentHash], records + [r])
  {
    hide Same, Kept, Prefix;
    var front := page + Log(fmt, records);
    forall b | Prefix(b, front)
      ensures Prefix(op(b), front + Framed(r))
    {
      PutRecordExtends(b, front, r);
    }
    KeptSame(files, fails, op, front, front + Framed(r));
    LogApp(fmt, records, r);
    hide Log, Sound;
    assert front + Framed(r) == page + (Log(fmt, records) + Framed(r));
  }

  /** Nobody is left, and nothing was acknowledged. */
  lemma NoneLeft(fmt: Format, page: seq<Byte>, files: seq<Replica>, cursor: nat, count: nat, hashes: seq<nat>,
                 records: seq<Rec>)
    requires Written(fmt, page, files, cursor, count, hashes, records)
    ensures Written(fmt, page, [], cursor, count, hashes, records)
  {
  }

  /** Footer, then header page: sealed. */
  lemma FooterPut(files: seq<Replica>, front: seq<Byte>, footer: seq<Byte>, fails: set<nat>, op: seq<Byte> -> seq<Byte>)
    requires Same(files, front) && |footer| < U32_LIMIT && forall b :: op(b) == PutFooter(b, |front|, footer)
    ensures Same(Kept(files, fails, op), front + (Le32(|footer|) + footer))
  {
    hide Same, Kept, Prefix, Le32;
    forall b | Prefix(b, front)
      ensures Prefix(op(b), front + (Le32(|footer|) + footer))
    {
      PutFooterExtends(b, front, footer);
    }
    KeptSame(files, fails, op, front, front + (Le32(|footer|) + footer));
  }

  lemma PageFlipped(files: seq<Replica>, page: seq<Byte>, rest: seq<Byte>, sealed: seq<Byte>, fails: set<nat>,
                    op: seq<Byte> -> seq<Byte>)
    requires Same(files, page + rest) && |sealed| == |page| && forall b :: op(b) == ZoneIo.Overlay(b, 0, sealed)
    ensures Same(Kept(files, fails, op), sealed + rest)
  {
    hide Same, Kept, Prefix;
    forall b | Prefix(b, page + rest)
      ensures Prefix(op(b), sealed + rest)
    {
      OverlayPage(b, page, rest, sealed);
    }
    KeptSame(files, fails, op, page + rest, sealed + rest);
  }

  /** A file left open, for the writer its scan makes. */
  lemma CutWritten(fmt: Format, id: nat, file: seq<Byte>, rs: seq<Rec>, n: nat)
    requires CutFile(fmt, file, rs, n)
    ensures |file[..PAGE]| == PAGE && Contained(rs, n) <= |rs|
    ensures var c := Reopened(Goods(Walk(fmt, file, PAGE).spans));
            Written(fmt, file[..PAGE], [Replica(id, file)], c.at, |c.hashes|, c.hashes, rs[..Contained(rs, n)])
    ensures Accounted([Replica(id, file)], [], multiset(Ids([Replica(id, file)]))) && Unreported([], [])
  {
    ReopenTorn(fmt, file, rs, n);
    assert AllSound(fmt, rs[..Contained(rs, n)]);
    hide Walk, Reopened, Contained, Tail, Log, CutFile;
    assert Prefix(file, file[..PAGE] + Log(fmt, rs[..Contained(rs, n)]));
  }

  lemma FoundAligned(fmt: Format, id: nat, file: seq<Byte>)
    requires PAGE <= |file|
    ensures var goods := Goods(Walk(fmt, file, PAGE).spans);
            && Reopened(goods).at == EndOf(goods, PAGE) && |Reopened(goods).hashes| == |goods|
            && PAGE <= EndOf(goods, PAGE) <= |file| && Same([Replica(id, file)], file[..EndOf(goods, PAGE)])
    ensures Accounted([Replica(id, file)], [], multiset(Ids([Replica(id, file)])))
  {
    var goods := Goods(Walk(fmt, file, PAGE).spans);
    FoundBehind(fmt, file, PAGE);
    hide Walk, Goods, Reopened;
    BehindEnd(goods, PAGE, |file|);
    ReopenedAt(goods, |file|);
  }

  class SegmentWriter {
    const fmt: Format
    const page: seq<Byte>
    /** A footer, encoded, from the record count and the content hashes in order. */
    const footerOf: (nat, seq<nat>) -> seq<Byte>
    var files: seq<Replica>
    var faulted: seq<nat>
    var cursor: nat
    var recordCount: nat
    var hashes: seq<nat>
    /** The records acknowledged, and every slot dropped, reported or not. */
    ghost var records: seq<Rec>
    ghost var gone: seq<nat>
    ghost const start: multiset<nat>

    ghost predicate Valid()
      reads this
    {
      && |page| == PAGE && Written(fmt, page, files, cursor, recordCount, hashes, records)
         && Accounted(files, gone, start)
      && Unreported(faulted, gone)
    }

    /** Every replica listed holds `front` up to the cursor. */
    ghost predicate Aligned(front: seq<Byte>)
      reads this
    {
      PAGE <= |front| == cursor && Same(files, front) && Accounted(files, gone, start)
    }

    constructor (fmt: Format, footerOf: (nat, seq<nat>) -> seq<Byte>, page: seq<Byte>, files: seq<Replica>,
                 faulted: seq<nat>)
      requires |page| == PAGE && forall i :: 0 <= i < |files| ==> files[i].bytes == page
      ensures Valid() && records == [] && this.files == files && this.faulted == faulted && this.fmt == fmt
              && this.page == page
      ensures start == multiset(Ids(files)) + multiset(faulted)
    {
      this.fmt, this.footerOf, this.page, this.files, this.faulted := fmt, footerOf, page, files, faulted;
      cursor, recordCount, hashes, records, gone := PAGE, 0, [], [], faulted;
      start := multiset(Ids(files)) + multiset(faulted);
      new;
      assert page + [] == page;
      assert forall i :: 0 <= i < |files| ==> Prefix(files[i].bytes, page);
    }

    /**
     `reopen_open_replicas`, one replica: the writer over a file left open, from a scan of that file, goes on where
     the last record found ends. If the file is a segment cut short, it is as if just the whole records had been
     appended.
     */
    constructor FromDisk(fmt: Format, footerOf: (nat, seq<nat>) -> seq<Byte>, id: nat, file: seq<Byte>,
                         ghost rs: seq<Rec>, ghost n: nat)
      requires MagicFirst(fmt) && PAGE <= |file|
      ensures files == [Replica(id, file)] && faulted == [] && this.fmt == fmt && this.footerOf == footerOf
      ensures var goods := Goods(Walk(fmt, file, PAGE).spans);
              && cursor == EndOf(goods, PAGE) <= |file| && Aligned(file[..cursor])
              && hashes == Reopened(goods).hashes && recordCount == |goods| == |hashes|
      ensures CutFile(fmt, file, rs, n) ==> Contained(rs, n) <= |rs| && Valid() && records == rs[..Contained(rs, n)]
    {
      ghost var whole := [];
      if CutFile(fmt, file, rs, n) {
        CutWritten(fmt, id, file, rs, n);
        whole := rs[..Contained(rs, n)];
      }
      FoundAligned(fmt, id, file);
      hide *;
      var c := Reopen(fmt, file);
      this.fmt, this.footerOf, page, files, faulted := fmt, footerOf, file[..PAGE], [Replica(id, file)], [];
      cursor, recordCount, hashes, records, gone := c.at, |c.hashes|, c.hashes, whole, [];
      start := multiset(Ids([Replica(id, file)]));
    }

    /** Runs an operation on every replica, dropping those that fail; fails itself only if none is left. */
    method EachReplica(fails: set<nat>, op: seq<Byte> -> seq<Byte>) returns (ok: bool)
      modifies this`files, this`faulted, this`gone
      ensures files == Kept(old(files), fails, op)
      ensures faulted == old(faulted) + Dropped(old(files), fails) && gone == old(gone) + Dropped(old(files), fails)
      ensures ok <==> files != []
    {
      hide Kept, Dropped, Progress;
      if files == [] {
        Starts(files, fails, op);
        Ends(files, 0, fails, op, files, 0, []);
        return false;
      }
      var i := 0;
      ghost var was, n, dropped := files, 0, [];
      Starts(was, fails, op);
      while i < |files|
        invariant 0 <= i <= |files| && Progress(was, n, fails, op, files, i, dropped)
        invariant faulted == old(faulted) + dropped && gone == old(gone) + dropped
        decreases |files| - i
      {
        Steps(was, n, fails, op, files, i, dropped);
        var f := files[i];
        if f.id in fails {
          files, faulted := files[..i] + files[i + 1..], faulted + [f.id];
          gone, dropped := gone + [f.id], dropped + [f.id];
        } else {
          files := files[i := Replica(f.id, op(f.bytes))];
          i := i + 1;
        }
        n := n + 1;
      }
      Ends(was, n, fails, op, files, i, dropped);
      return files != [];
    }

    /** The syncs of several replicas, issued together: the same replicas are dropped, in the same order. */
    method SyncReplicas(fails: set<nat>) returns (ok: bool)
      modifies this`files, this`faulted, this`gone
      ensures files == Kept(old(files), fails, b => b)
      ensures faulted == old(faulted) + Dropped(old(files), fails) && gone == old(gone) + Dropped(old(files), fails)
      ensures ok <==> files != []
    {
      if |files| < 2 {
        ok := EachReplica(fails, b => b);
        return;
      }
      hide Kept, Dropped, Progress;
      var was := files;
      var failed := seq(|was|, m requires 0 <= m < |was| => was[m].id in fails);
      var i := 0;
      ghost var dropped := [];
      ghost var op: seq<Byte> -> seq<Byte> := b => b;
      Starts(was, fails, op);
      for n := 0 to |failed|
        invariant 0 <= i <= |files| == i + (|was| - n) && Progress(was, n, fails, op, files, i, dropped)
        invariant faulted == old(faulted) + dropped && gone == old(gone) + dropped
      {
        Steps(was, n, fails, op, files, i, dropped);
        var f := files[i];
        assert files[i := Replica(f.id, f.bytes)] == files;
        if failed[n] {
          files, faulted := files[..i] + files[i + 1..], faulted + [f.id];
          gone, dropped := gone + [f.id], dropped + [f.id];
        } else {
          i := i + 1;
        }
      }
      Ends(was, |was|, fails, op, files, i, dropped);
      SameOp(was, fails, op, b => b);
      return files != [];
    }

    /** Slots dropped since the last call. */
    method TakeFaults() returns (ids: seq<nat>)
      requires Valid()
      modifies this`faulted
      ensures Valid() && ids == old(faulted) && faulted == []
    {
      ids := faulted;
      faulted := [];
    }

    /**
     Appends a record. It is acknowledged only if some replica took it, and then every replica listed holds
     it at the offset returned; otherwise the writer's records are what they were.
     */
    method Append(r: Rec, fails: set<nat>) returns (at: Option<nat>)
      requires Valid() && Built(fmt, r)
      modifies this
      ensures Valid()
      ensures at.Some? <==> r.header.recordLen == |Framed(r)| && files != []
      ensures records == (if at.Some? then old(records) + [r] else old(records))
      ensures at.Some? ==> at.value == old(cursor) % U32_LIMIT
      ensures if r.header.recordLen == |Framed(r)| then Ids(files) == Left(old(Ids(files)), fails)
              else files == old(files) && faulted == old(faulted)
    {
      hide Kept, Dropped, Ids, Written, Accounted, PutRecord, Framed, Unreported;
      FramedLen(r);
      if r.header.recordLen != 4 + |r.encoded| + |r.payload| {
        return None;
      }
      ghost var was := files;
      var c := cursor;
      var op := (b: seq<Byte>) => PutRecord(b, c, r);
      var ok := EachReplica(fails, op);
      StillAccounted(was, fails, op, old(gone), start);
      MoreUnreported(old(faulted), old(gone), Dropped(was, fails));
      KeptIds(was, fails, op);
      if !ok {
        NoneLeft(fmt, page, was, cursor, recordCount, hashes, records);
        return None;
      }
      Appended(fmt, page, was, cursor, recordCount, hashes, records, r, fails, op);
      cursor, recordCount, hashes := cursor + r.header.recordLen, recordCount + 1, hashes + [r.header.contentHash];
      records := records + [r];
      return Some(c % U32_LIMIT);
    }

    method WriteFooter(footer: seq<Byte>, fails: set<nat>, ghost front: seq<Byte>) returns (ok: bool)
      requires Aligned(front) && |footer| < U32_LIMIT
      modifies this`files, this`faulted, this`gone
      ensures (ok <==> files != []) && Ids(files) == Left(old(Ids(files)), fails)
      ensures Accounted(files, gone, start) && Same(files, front + (Le32(|footer|) + footer))
      ensures Reported(old(faulted), old(gone), faulted, gone)
    {
      ghost var was := files;
      hide Same, Kept, Dropped, Accounted, PutFooter, Le32, Reported;
      var c := cursor;
      var put := (b: seq<Byte>) => PutFooter(b, c, footer);
      ok := EachReplica(fails, put);
      ReportedMore(old(faulted), old(gone), Dropped(was, fails));
      StillAccounted(was, fails, put, old(gone), start);
      KeptIds(was, fails, put);
      FooterPut(was, front, footer, fails, put);
    }

    method WritePage(sealed: seq<Byte>, ghost page: seq<Byte>, ghost rest: seq<Byte>, fails: set<nat>)
      returns (ok: bool)
      requires |sealed| == |page| && Same(files, page + rest) && Accounted(files, gone, start)
      modifies this`files, this`faulted, this`gone
      ensures (ok <==> files != []) && Ids(files) == Left(old(Ids(files)), fails)
      ensures Accounted(files, gone, start) && Same(files, sealed + rest)
      ensures Reported(old(faulted), old(gone), faulted, gone)
    {
      hide Same, Kept, Dropped, Accounted, Reported;
      ghost var was := files;
      var flip := (b: seq<Byte>) => ZoneIo.Overlay(b, 0, sealed);
      ok := EachReplica(fails, flip);
      ReportedMore(old(faulted), old(gone), Dropped(was, fails));
      StillAccounted(was, fails, flip, old(gone), start);
      KeptIds(was, fails, flip);
      PageFlipped(was, page, rest, sealed, fails, flip);
    }

    method SyncWritten(ghost front: seq<Byte>, fails: set<nat>) returns (ok: bool)
      requires Same(files, front) && Accounted(files, gone, start)
      modifies this`files, this`faulted, this`gone
      ensures (ok <==> files != []) && Ids(files) == Left(old(Ids(files)), fails)
      ensures Accounted(files, gone, start) && Same(files, front)
      ensures Reported(old(faulted), old(gone), faulted, gone)
    {
      hide Same, Kept, Dropped, Accounted, Reported;
      ghost var was := files;
      ok := SyncReplicas(fails);
      ReportedMore(old(faulted), old(gone), Dropped(was, fails));
      StillAccounted(was, fails, b => b, old(gone), start);
      KeptIds(was, fails, b => b);
      KeptSame(was, fails, b => b, front, front);
    }

    /** Footer, header page, flush: `seal` on whatever the replicas hold up to the cursor. */
    method SealBehind(sealed: seq<Byte>, fails0: set<nat>, fails1: set<nat>, fails2: set<nat>, ghost front: seq<Byte>)
      returns (r: Option<seq<nat>>)
      requires Aligned(front) && |sealed| == PAGE && |footerOf(recordCount, hashes)| < U32_LIMIT
      modifies this`files, this`faulted, this`gone
      ensures Accounted(files, gone, start)
      ensures (r.Some? <==> files != []) && Ids(files) == Left(Left(Left(old(Ids(files)), fails0), fails1), fails2)
      ensures r.Some? ==> faulted == [] && Reported(old(faulted), old(gone), r.value, gone)
      ensures r.Some? ==>
                var footer := footerOf(recordCount, hashes);
                Same(files, sealed + (front[PAGE..] + (Le32(|footer|) + footer)))
    {
      var footer := footerOf(recordCount, hashes);
      hide Same, Kept, Dropped, Accounted, Le32, Ids, Left, Reported;
      ghost var ids := Ids(files);
      var ok := WriteFooter(footer, fails0, front);
      ghost var f1, g1 := faulted, gone;
      if !ok {
        NoneLater(files, ids, fails0, fails1, fails2);
        return None;
      }
      ghost var tail := Le32(|footer|) + footer;
      assert front + tail == front[..PAGE] + (front[PAGE..] + tail);
      ok := WritePage(sealed, front[..PAGE], front[PAGE..] + tail, fails1);
      if !ok {
        NoneLater(files, Left(ids, fails0), fails1, fails2, {});
        return None;
      }
      ReportedTwice(old(faulted), old(gone), f1, g1, faulted, gone);
      ghost var f2, g2 := faulted, gone;
      ok := SyncWritten(sealed + (front[PAGE..] + tail), fails2);
      ReportedTwice(old(faulted), old(gone), f2, g2, faulted, gone);
      if !ok {
        return None;
      }
      r, faulted := Some(faulted), [];
    }

    /** Seals the segment. What is left listed is sealed, with the footer of exactly the records acknowledged. */
    method Seal(sealed: seq<Byte>, fails0: set<nat>, fails1: set<nat>, fails2: set<nat>) returns (r: Option<seq<nat>>)
      requires Valid() && |sealed| == PAGE && |footerOf(recordCount, hashes)| < U32_LIMIT
      modifies this`files, this`faulted, this`gone
      ensures Accounted(files, gone, start) && AllSound(fmt, records)
      ensures (r.Some? <==> files != []) && Ids(files) == Left(Left(Left(old(Ids(files)), fails0), fails1), fails2)
      ensures r.Some? ==> faulted == [] && Reported(old(faulted), old(gone), r.value, gone)
      ensures r.Some? ==>
                var footer := footerOf(|records|, WriterAfter(fmt, records).hashes);
                |footer| < U32_LIMIT && Same(files, sealed + (Log(fmt, records) + (Le32(|footer|) + footer)))
    {
      ghost var front := page + Log(fmt, records);
      assert AllSound(fmt, records) && recordCount == |records| && hashes == WriterAfter(fmt, records).hashes;
      assert front[PAGE..] == Log(fmt, records);
      hide Same, Accounted, Log, Le32, AllSound, Ids, Left, Reported;
      r := SealBehind(sealed, fails0, fails1, fails2, front);
    }
  }

  /**
   A replica a seal left listed scans to exactly the records acknowledged, and to the footer, whatever is behind it.
   */
  lemma SealedScans(fmt: Format, sealed: seq<Byte>, records: seq<Rec>, footer: seq<Byte>, bytes: seq<Byte>)
    requires |sealed| == PAGE && AllSound(fmt, records) && PAGE + |Log(fmt, records)| < U32_LIMIT
             && IsFooter(fmt, footer)
    requires Prefix(bytes, sealed + (Log(fmt, records) + (Le32(|footer|) + footer)))
    ensures Walk(fmt, bytes, PAGE) == Walked(Landed(records, PAGE), Footer, PAGE + |Log(fmt, records)|)
  {
    hide Walk, Log, Landed, Le32, IsFooter;
    var log, frame := Log(fmt, records), Le32(|footer|) + footer;
    var behind := bytes[PAGE + |log| + |frame|..];
    assert bytes == sealed + log + (frame + behind);
    ScanSealed(fmt, sealed, records, footer, behind);
  }

  // ---------------------------------------------------------------------------------------------
  // A segment left open.
  // ---------------------------------------------------------------------------------------------

  datatype Orphan = Removed | SealedAs(bytes: seq<Byte>) | Failed

  lemma {:induction false} CutShorter(fmt: Format, rs: seq<Rec>, k: nat)
    requires AllSound(fmt, rs) && k <= |rs|
    ensures |Log(fmt, rs[..k])| <= |Log(fmt, rs)|
    decreases k
  {
    if k > 0 {
      LogFirst(fmt, rs, k);
      CutShorter(fmt, rs[1..], k - 1);
    }
  }

  /** What is left of a file whose whole records end at `c`, sealed there. */
  ghost predicate SealedAt(file: seq<Byte>, c: nat, sealed: seq<Byte>, footer: seq<Byte>, bytes: seq<Byte>) {
    && PAGE <= c <= |file| && |footer| < U32_LIMIT
    && Prefix(bytes, sealed + (file[PAGE..c] + (Le32(|footer|) + footer)))
  }

  /** A segment with damage anywhere, sealed where its last record found ends, scans to the same records. */
  lemma ResealedScans(fmt: Format, file: seq<Byte>, sealed: seq<Byte>, footer: seq<Byte>, bytes: seq<Byte>)
    requires |sealed| == PAGE && IsFooter(fmt, footer)
    requires var c := EndOf(Goods(Walk(fmt, file, PAGE).spans), PAGE);
             SealedAt(file, c, sealed, footer, bytes) && Undisturbed(fmt, file, bytes, PAGE, c)
    ensures var w, goods := Walk(fmt, bytes, PAGE), Goods(Walk(fmt, file, PAGE).spans);
            Goods(w.spans) == goods && w.end == Footer && w.stop == EndOf(goods, PAGE)
  {
    var c := EndOf(Goods(Walk(fmt, file, PAGE).spans), PAGE);
    hide Walk, Goods, Undisturbed, Le32, IsFooter, FooterAt, ScanNext;
    var body, frame := sealed + file[PAGE..c], Le32(|footer|) + footer;
    var behind := bytes[|body| + |frame|..];
    assert bytes == body + (frame + behind);
    FooterFound(fmt, body, footer, behind);
    SealKeepsScan(fmt, file, bytes, PAGE);
  }

  /** A segment cut short, so sealed, scans to exactly its whole records. */
  lemma CutScans(fmt: Format, file: seq<Byte>, rs: seq<Rec>, n: nat, sealed: seq<Byte>, footer: seq<Byte>,
                 bytes: seq<Byte>)
    requires CutFile(fmt, file, rs, n) && |sealed| == PAGE && IsFooter(fmt, footer)
    requires SealedAt(file, EndOf(Goods(Walk(fmt, file, PAGE).spans), PAGE), sealed, footer, bytes)
    ensures Contained(rs, n) <= |rs|
    ensures var whole := rs[..Contained(rs, n)];
            Walk(fmt, bytes, PAGE) == Walked(Landed(whole, PAGE), Footer, PAGE + |Log(fmt, whole)|)
  {
    ReopenTorn(fmt, file, rs, n);
    FoundAligned(fmt, 0, file);
    var whole := rs[..Contained(rs, n)];
    CutShorter(fmt, rs, |whole|);
    assert PAGE + |Log(fmt, rs)| < U32_LIMIT && AllSound(fmt, whole);
    hide Walk, Goods, Contained, Log, Landed, CutFile, Le32, IsFooter, Reopened, Tail, Same;
    var c := PAGE + |Log(fmt, whole)|;
    assert file[PAGE..c] == Log(fmt, whole);
    SealedScans(fmt, sealed, whole, footer, bytes);
  }

  /**
   `seal_orphaned_on`, one replica: a segment left open is sealed behind the last record a scan finds, with the
   footer of the records found, or removed if there is none. Sealed, it scans to those records and to the footer,
   whatever is behind it: if the footer disturbs no offset ahead of it, whatever damage there is, and always if the
   segment was cut short.
   */
  method SealOrphan(fmt: Format, footerOf: (nat, seq<nat>) -> seq<Byte>, sealed: seq<Byte>, id: nat, file: seq<Byte>,
                    fails0: set<nat>, fails1: set<nat>, fails2: set<nat>, removes: bool, ghost rs: seq<Rec>,
                    ghost n: nat)
    returns (r: Orphan)
    requires MagicFirst(fmt) && PAGE <= |file| && |sealed| == PAGE
    requires var c := Reopened(Goods(Walk(fmt, file, PAGE).spans)); IsFooter(fmt, footerOf(|c.hashes|, c.hashes))
    ensures if Goods(Walk(fmt, file, PAGE).spans) == [] then r == if removes then Removed else Failed
            else !r.Removed? && (r.SealedAs? <==> id !in fails0 + fails1 + fails2)
    ensures r.SealedAs? ==>
              var goods, w := Goods(Walk(fmt, file, PAGE).spans), Walk(fmt, r.bytes, PAGE);
              Undisturbed(fmt, file, r.bytes, PAGE, EndOf(goods, PAGE)) ==>
                Goods(w.spans) == goods && w.end == Footer && w.stop == EndOf(goods, PAGE)
    ensures r.SealedAs? && CutFile(fmt, file, rs, n) ==>
              && Contained(rs, n) <= |rs|
              && var whole := rs[..Contained(rs, n)];
                 Walk(fmt, r.bytes, PAGE) == Walked(Landed(whole, PAGE), Footer, PAGE + |Log(fmt, whole)|)
  {
    var w := new SegmentWriter.FromDisk(fmt, footerOf, id, file, rs, n);
    ghost var goods := Goods(Walk(fmt, file, PAGE).spans);
    hide Walk, Goods, Contained, Log, Landed, CutFile, MagicFirst, Le32, IsFooter, Reopened, Undisturbed, Left, Ids;
    if w.recordCount == 0 {
      return if removes then Removed else Failed;
    }
    ghost var footer, c := footerOf(w.recordCount, w.hashes), w.cursor;
    SingleId(id, file, fails0, fails1, fails2);
    FooterShort(fmt, footer);
    var ids := w.SealBehind(sealed, fails0, fails1, fails2, file[..c]);
    if ids.None? {
      NoIds();
      return Failed;
    }
    r := SealedAs(w.files[0].bytes);
    assert file[..c][PAGE..] == file[PAGE..c];
    if Undisturbed(fmt, file, r.bytes, PAGE, c) {
      ResealedScans(fmt, file, sealed, footer, r.bytes);
    }
    if CutFile(fmt, file, rs, n) {
      CutScans(fmt, file, rs, n, sealed, footer, r.bytes);
    }
  }

  lemma NoIds()
    ensures Ids([]) == []
  {
  }

  lemma FooterShort(fmt: Format, footer: seq<Byte>)
    requires IsFooter(fmt, footer)
    ensures |footer| < U32_LIMIT
  {
  }

  lemma SingleId(id: nat, file: seq<Byte>, fails0: set<nat>, fails1: set<nat>, fails2: set<nat>)
    ensures Left(Left(Left(Ids([Replica(id, file)]), fails0), fails1), fails2) == if id in fails0 + fails1 + fails2
            then [] else [id]
  {
    assert [Replica(id, file)][1..] == [] && [id][1..] == [];
    assert Ids([Replica(id, file)]) == [id];
  }

  /** A header the format library built for these encoded bytes. */
  predicate Built(fmt: Format, r: Rec) {
    && 0 < |r.encoded| <= MAX_HEADER_LEN && fmt.decode(r.encoded) == Some(r.header)
    && r.header.magic == MAGIC && fmt.crc(r.header) == r.header.checksum && r.header.recordLen <= MAX_RECORD_LEN
  }

  lemma {:induction false} SameOp(files: seq<Replica>, fails: set<nat>, op: seq<Byte> -> seq<Byte>,
                                  other: seq<Byte> -> seq<Byte>)
    requires forall b :: op(b) == other(b)
    ensures Kept(files, fails, op) == Kept(files, fails, other)
  {
    if files != [] {
      SameOp(files[1..], fails, op, other);
    }
  }
}
