/**
 The incremental chunker: bytes pushed in pieces, boundaries emitted as soon as they cannot change.

 The content-defined cut itself is a parameter: given at least `maxSize` bytes it cuts off between one and
 `maxSize` of them, and looks no further than the first `maxSize`.
 */
module Chunker {
  import opened Basics

  datatype Boundary = Boundary(offset: nat, len: nat)

  datatype Cutter = Cutter(maxSize: nat, cut: seq<Byte> -> nat)

  ghost predicate CutOk(c: Cutter) {
    c.maxSize > 0 && forall window: seq<Byte> :: |window| == c.maxSize ==> 1 <= c.cut(window) <= c.maxSize
  }

  /** Where a stream is cut: from its first `maxSize` bytes. */
  function CutAt(c: Cutter, stream: seq<Byte>): (n: nat)
    requires CutOk(c) && |stream| >= c.maxSize
    ensures 1 <= n <= c.maxSize
  {
    c.cut(stream[..c.maxSize])
  }

  lemma CutKept(c: Cutter, s: seq<Byte>, t: seq<Byte>)
    requires CutOk(c) && |s| >= c.maxSize
    ensures CutAt(c, s + t) == CutAt(c, s)
  {
    assert (s + t)[..c.maxSize] == s[..c.maxSize];
  }

  /** The boundaries that are final once `stream` has come in, the first at `base`. */
  ghost function Cuts(c: Cutter, stream: seq<Byte>, base: nat): seq<Boundary>
    requires CutOk(c)
    decreases |stream|
  {
    if |stream| < c.maxSize then []
    else [Boundary(base, CutAt(c, stream))] + Cuts(c, stream[CutAt(c, stream)..], base + CutAt(c, stream))
  }

  /** What is left behind them. */
  ghost function Rest(c: Cutter, stream: seq<Byte>): (r: seq<Byte>)
    requires CutOk(c)
    ensures |r| < c.maxSize && |r| <= |stream|
    decreases |stream|
  {
    if |stream| < c.maxSize then stream else Rest(c, stream[CutAt(c, stream)..])
  }

  /** One cut, behind the boundaries `bs` emitted so far. */
  lemma CutsStep(c: Cutter, bs: seq<Boundary>, s: seq<Byte>, base: nat)
    requires CutOk(c) && |s| >= c.maxSize
    ensures var n := CutAt(c, s);
            && bs + Cuts(c, s, base) == bs + [Boundary(base, n)] + Cuts(c, s[n..], base + n)
            && Rest(c, s) == Rest(c, s[n..])
  {
    hide CutOk, CutAt;
  }

  lemma CutsEnd(c: Cutter, s: seq<Byte>, base: nat)
    requires CutOk(c) && |s| < c.maxSize
    ensures Cuts(c, s, base) == [] && Rest(c, s) == s
  {
  }

  /** More bytes move no boundary already final, and add those of what was left with them. */
  lemma {:induction false} CutsExtend(c: Cutter, s: seq<Byte>, t: seq<Byte>, base: nat)
    requires CutOk(c)
    ensures Cuts(c, s + t, base) == Cuts(c, s, base) + Cuts(c, Rest(c, s) + t, base + |s| - |Rest(c, s)|)
    ensures Rest(c, s + t) == Rest(c, Rest(c, s) + t)
    decreases |s|
  {
    hide CutOk, CutAt;
    if |s| >= c.maxSize {
      CutKept(c, s, t);
      var n := CutAt(c, s);
      assert (s + t)[n..] == s[n..] + t;
      CutsExtend(c, s[n..], t, base + n);
    }
  }

  /** Boundaries one after another, none empty and none longer than `maxSize`, from `a` to `b`. */
  predicate Tiles(bs: seq<Boundary>, a: nat, b: nat, maxSize: nat)
    decreases |bs|
  {
    if bs == [] then a == b
    else bs[0].offset == a && 1 <= bs[0].len <= maxSize && Tiles(bs[1..], a + bs[0].len, b, maxSize)
  }

  lemma {:induction false} CutsTile(c: Cutter, s: seq<Byte>, base: nat)
    requires CutOk(c)
    ensures Tiles(Cuts(c, s, base), base, base + |s| - |Rest(c, s)|, c.maxSize)
    decreases |s|
  {
    hide CutOk, CutAt;
    if |s| >= c.maxSize {
      var n := CutAt(c, s);
      CutsTile(c, s[n..], base + n);
      assert Cuts(c, s, base)[1..] == Cuts(c, s[n..], base + n);
    }
  }

  lemma {:induction false} TilesEnd(bs: seq<Boundary>, a: nat, b: nat, n: nat, maxSize: nat)
    requires Tiles(bs, a, b, maxSize) && 1 <= n <= maxSize
    ensures Tiles(bs + [Boundary(b, n)], a, b + n, maxSize)
    decreases |bs|
  {
    if bs == [] {
      assert [Boundary(b, n)][1..] == [];
      assert bs + [Boundary(b, n)] == [Boundary(b, n)];
    } else {
      TilesEnd(bs[1..], a + bs[0].len, b, n, maxSize);
      assert (bs + [Boundary(b, n)])[1..] == bs[1..] + [Boundary(b, n)];
    }
  }

  /** All of a stream's boundaries: the final ones, and one for what is left. */
  ghost function Whole(c: Cutter, stream: seq<Byte>): seq<Boundary>
    requires CutOk(c)
  {
    Cuts(c, stream, 0) + Last(|stream|, |Rest(c, stream)|)
  }

  function Last(end: nat, len: nat): seq<Boundary>
    requires len <= end
  {
    if len == 0 then [] else [Boundary(end - len, len)]
  }

  /** They tile the stream. */
  lemma {:induction false} WholeTiles(c: Cutter, stream: seq<Byte>)
    requires CutOk(c)
    ensures Tiles(Whole(c, stream), 0, |stream|, c.maxSize)
  {
    hide CutOk, CutAt, Cuts, Rest, Tiles;
    CutsTile(c, stream, 0);
    LastTiles(Cuts(c, stream, 0), |stream|, |Rest(c, stream)|, c.maxSize);
  }

  lemma {:induction false} LastTiles(bs: seq<Boundary>, end: nat, len: nat, maxSize: nat)
    requires len <= end && len <= maxSize && Tiles(bs, 0, end - len, maxSize)
    ensures Tiles(bs + Last(end, len), 0, end, maxSize)
  {
    if len == 0 {
      assert bs + [] == bs;
    } else {
      TilesEnd(bs, 0, end - len, len, maxSize);
    }
  }

  /** Every chunk ends where the cutter, shown the stream from its start, says; the last may be what is left. */
  ghost predicate CutRight(c: Cutter, stream: seq<Byte>, bs: seq<Boundary>) {
    forall i :: 0 <= i < |bs| ==>
      && bs[i].offset <= |stream|
      && var rest := stream[bs[i].offset..];
         if |rest| >= c.maxSize then bs[i].len == c.cut(rest[..c.maxSize]) else bs[i].len == |rest| && i == |bs| - 1
  }

  lemma {:induction false} CutsRight(c: Cutter, all: seq<Byte>, at: nat, i: nat)
    requires CutOk(c) && at <= |all| && i < |Cuts(c, all[at..], at)|
    ensures var b := Cuts(c, all[at..], at)[i];
            b.offset + c.maxSize <= |all| && b.len == c.cut(all[b.offset..][..c.maxSize])
    decreases |all| - at
  {
    var stream := all[at..];
    var n := CutAt(c, stream);
    if i > 0 {
      assert stream[n..] == all[at + n..];
      CutsRight(c, all, at + n, i - 1);
    }
  }

  lemma WholeRight(c: Cutter, stream: seq<Byte>)
    requires CutOk(c)
    ensures CutRight(c, stream, Whole(c, stream))
  {
    var bs, final := Whole(c, stream), Cuts(c, stream, 0);
    assert stream[0..] == stream;
    forall i | 0 <= i < |final|
      ensures final[i].offset + c.maxSize <= |stream|
              && final[i].len == c.cut(stream[final[i].offset..][..c.maxSize])
    {
      CutsRight(c, stream, 0, i);
    }
  }

  class FastCdcChunker {
    const cutter: Cutter
    var buffer: seq<Byte>
    var baseOffset: nat
    /** Everything pushed, and everything emitted. */
    ghost var fed: seq<Byte>
    ghost var emitted: seq<Boundary>

    ghost predicate Valid()
      reads this
    {
      && CutOk(cutter) && buffer == Rest(cutter, fed) && baseOffset == |fed| - |buffer|
      && emitted == Cuts(cutter, fed, 0)
    }

    constructor (cutter: Cutter)
      requires CutOk(cutter)
      ensures Valid() && fed == [] && emitted == [] && this.cutter == cutter
    {
      this.cutter, buffer, baseOffset, fed, emitted := cutter, [], 0, [], [];
    }

    /** Emits every boundary the new bytes make final. */
    method Push(data: seq<Byte>) returns (bs: seq<Boundary>)
      requires Valid()
      modifies this
      ensures Valid() && fed == old(fed) + data && emitted == old(emitted) + bs
    {
      hide CutOk, CutAt, Cuts, Rest;
      CutsExtend(cutter, fed, data, 0);
      buffer := buffer + data;
      ghost var all := buffer;
      bs := [];
      ghost var base := baseOffset;
      while |buffer| >= cutter.maxSize
        invariant bs + Cuts(cutter, buffer, baseOffset) == Cuts(cutter, all, base)
                  && Rest(cutter, buffer) == Rest(cutter, all)
        invariant baseOffset + |buffer| == base + |all|
        invariant fed == old(fed) && emitted == old(emitted)
        decreases |buffer|
      {
        var cutpoint := CutAt(cutter, buffer);
        if cutpoint == 0 {
          break;
        }
        CutsStep(cutter, bs, buffer, baseOffset);
        bs := bs + [Boundary(baseOffset, cutpoint)];
        buffer := buffer[cutpoint..];
        baseOffset := baseOffset + cutpoint;
      }
      CutsEnd(cutter, buffer, baseOffset);
      fed := fed + data;
      emitted := emitted + bs;
    }

    /** The end of the stream: whatever is left is the last chunk. */
    method Finish() returns (last: Option<Boundary>)
      requires Valid()
      modifies this
      ensures emitted == old(emitted) + (if last.Some? then [last.value] else []) == Whole(cutter, fed)
              && fed == old(fed)
      ensures buffer == [] && baseOffset == |fed|
    {
      if buffer == [] {
        return None;
      }
      last := Some(Boundary(baseOffset, |buffer|));
      baseOffset := baseOffset + |buffer|;
      buffer := [];
      emitted := emitted + [last.value];
    }
  }

  function Concat(pieces: seq<seq<Byte>>): seq<Byte> {
    if pieces == [] then [] else Concat(pieces[..|pieces| - 1]) + pieces[|pieces| - 1]
  }

  /**
   However a stream is cut into pushes, its boundaries are those of the whole stream: they tile it, and each chunk ends
   where the cutter says.
   */
  method ChunkAll(cutter: Cutter, pieces: seq<seq<Byte>>) returns (bs: seq<Boundary>)
    requires CutOk(cutter)
    ensures bs == Whole(cutter, Concat(pieces)) && Tiles(bs, 0, |Concat(pieces)|, cutter.maxSize)
    ensures CutRight(cutter, Concat(pieces), bs)
  {
    var chunker := new FastCdcChunker(cutter);
    bs := [];
    for i := 0 to |pieces|
      invariant fresh(chunker) && chunker.Valid() && chunker.cutter == cutter
      invariant chunker.fed == Concat(pieces[..i]) && chunker.emitted == bs
    {
      assert pieces[..i + 1][..i] == pieces[..i];
      var more := chunker.Push(pieces[i]);
      bs := bs + more;
    }
    assert pieces[..|pieces|] == pieces;
    var last := chunker.Finish();
    if last.Some? {
      bs := bs + [last.value];
    }
    WholeTiles(cutter, Concat(pieces));
    WholeRight(cutter, Concat(pieces));
  }
}
