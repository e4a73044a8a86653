/**
 Scanning a segment: records one after another, the footer or the end of file, and the resync past damage.

 What the format library computes (decoding a header or a footer, checking its checksum) is given by a
 `Format`. A file is its bytes; a read past its end fails.
 */
module SegmentScan {
  import opened Basics

  const PAGE: nat := 4096
  const MAGIC: nat := 0x4C43_4846
  const MAX_HEADER_LEN: nat := 16 * 1024 * 1024
  const MAX_RECORD_LEN: nat := 512 * 1024 * 1024
  const RESYNC_MAX_HEADER_LEN: nat := 64 * 1024
  const RESYNC_WINDOW: nat := 1024 * 1024

  datatype Header = Header(magic: nat, recordLen: nat, contentHash: nat, checksum: nat)

  /** `decode` and `crc` of a record header; whether bytes decode to a footer with its checksum. */
  datatype Format = Format(decode: seq<Byte> -> Option<Header>, crc: Header -> nat, footer: seq<Byte> -> bool)

  function U32(b: seq<Byte>): nat
    requires |b| == 4
  {
    b[0] as int + 256 * b[1] as int + 65536 * b[2] as int + 16777216 * b[3] as int
  }

  /** The magic is the first thing in an encoded header. */
  ghost predicate MagicFirst(fmt: Format) {
    forall b :: fmt.decode(b).Some? ==> |b| >= 4 && U32(b[..4]) == fmt.decode(b).value.magic
  }

  function ReadExact(file: seq<Byte>, at: nat, n: nat): Option<seq<Byte>> {
    if at + n <= |file| then Some(file[at..at + n]) else None
  }

  /** The header at the front of `bytes`, and its length with the prefix. */
  function ParseHeader(fmt: Format, bytes: seq<Byte>): Option<(Header, nat)> {
    if |bytes| < 4 then None
    else
      var headerLen := U32(bytes[..4]);
      if headerLen == 0 || headerLen > MAX_HEADER_LEN || 4 + headerLen > |bytes| then None
      else
        match fmt.decode(bytes[4..4 + headerLen])
        case None => None
        case Some(h) => if h.magic != MAGIC || fmt.crc(h) != h.checksum then None else Some((h, 4 + headerLen))
  }

  /** A header read at `at` whose length prefix is at most `limit`. */
  function HeaderAt(fmt: Format, file: seq<Byte>, at: nat, limit: nat): Option<Header> {
    match ReadExact(file, at, 4)
    case None => None
    case Some(prefix) =>
      var headerLen := U32(prefix);
      if headerLen == 0 || headerLen > limit then None
      else
        match ReadExact(file, at, 4 + headerLen)
        case None => None
        case Some(bytes) =>
          match ParseHeader(fmt, bytes)
          case None => None
          case Some((h, _)) => if h.recordLen == 0 || h.recordLen > MAX_RECORD_LEN then None else Some(h)
  }

  /** `scan_next`: the record at `offset`, wherever it ends, as long as that is a 32-bit offset. */
  function ScanNext(fmt: Format, file: seq<Byte>, offset: nat): (r: Option<Header>)
    ensures r.Some? ==> 0 < r.value.recordLen && offset + r.value.recordLen < U32_LIMIT
  {
    match HeaderAt(fmt, file, offset, MAX_HEADER_LEN)
    case None => None
    case Some(h) => if offset + h.recordLen >= U32_LIMIT then None else Some(h)
  }

  /** `try_header_at`: a sound record that fits in the file. */
  function TryHeader(fmt: Format, file: seq<Byte>, at: nat): (r: Option<Header>)
    ensures r.Some? ==> 0 < r.value.recordLen && at + r.value.recordLen <= |file| && at + r.value.recordLen < U32_LIMIT
  {
    match HeaderAt(fmt, file, at, RESYNC_MAX_HEADER_LEN)
    case None => None
    case Some(h) => if at + h.recordLen >= U32_LIMIT || at + h.recordLen > |file| then None else Some(h)
  }

  predicate FooterAt(fmt: Format, file: seq<Byte>, offset: nat) {
    match ReadExact(file, offset, 4)
    case None => false
    case Some(prefix) =>
      var len := U32(prefix);
      0 < len <= 4096 &&
      match ReadExact(file, offset + 4, len)
      case None => false
      case Some(bytes) => fmt.footer(bytes)
  }

  // ---------------------------------------------------------------------------------------------
  // Resync.
  // ---------------------------------------------------------------------------------------------

  /** The least offset from `at` on with a sound record: byte by byte. */
  function Naive(fmt: Format, file: seq<Byte>, at: nat): (r: Option<nat>)
    ensures r.Some? ==> at <= r.value < |file| && TryHeader(fmt, file, r.value).Some?
    ensures forall i :: at <= i < (if r.Some? then r.value else |file|) ==> TryHeader(fmt, file, i).None?
    decreases |file| - at
  {
    if at >= |file| then None
    else if TryHeader(fmt, file, at).Some? then Some(at)
    else Naive(fmt, file, at + 1)
  }

  predicate MagicAt(file: seq<Byte>, at: nat) {
    at + 8 <= |file| && U32(file[at + 4..at + 8]) == MAGIC
  }

  /** A sound record shows its magic four bytes in. */
  lemma SoundHasMagic(fmt: Format, file: seq<Byte>, at: nat)
    requires MagicFirst(fmt) && TryHeader(fmt, file, at).Some?
    ensures MagicAt(file, at)
  {
    var headerLen := U32(file[at..at + 4]);
    var bytes := file[at..at + (4 + headerLen)];
    assert bytes[..4] == file[at..at + 4];
    var body := bytes[4..4 + headerLen];
    assert fmt.decode(body).Some? && |body| >= 4;
    assert body == file[at + 4..at + 4 + headerLen];
    assert body[..4] == file[at + 4..at + 8];
  }

  lemma {:induction false} NaiveSkips(fmt: Format, file: seq<Byte>, at: nat, to: nat)
    requires at <= to && forall i :: at <= i < to ==> TryHeader(fmt, file, i).None?
    ensures Naive(fmt, file, at) == Naive(fmt, file, to)
    decreases |file| - at
  {
    if at < to && at < |file| {
      NaiveSkips(fmt, file, at + 1, to);
    }
  }

  /** No magic, no record. */
  lemma NoMagic(fmt: Format, file: seq<Byte>, at: nat)
    requires MagicFirst(fmt) && !MagicAt(file, at)
    ensures TryHeader(fmt, file, at).None?
  {
    if TryHeader(fmt, file, at).Some? {
      SoundHasMagic(fmt, file, at);
    }
  }

  lemma SliceOfSlice(file: seq<Byte>, start: nat, len: nat, i: nat, n: nat)
    requires start + len <= |file| && i + n <= len
    ensures file[start..start + len][i..i + n] == file[start + i..start + i + n]
  {
    var w := file[start..start + len];
    var x, y := w[i..i + n], file[start + i..start + i + n];
    forall k | 0 <= k < n
      ensures x[k] == y[k]
    {
      assert x[k] == w[i + k];
    }
  }

  /** One window: a record is tried only where the magic shows. */
  method SearchWindow(fmt: Format, file: seq<Byte>, start: nat, len: nat) returns (r: Option<nat>)
    requires MagicFirst(fmt) && 8 <= len && start + len <= |file|
    ensures match r
            case Some(at) =>
              && start <= at && TryHeader(fmt, file, at).Some?
              && forall i :: start <= i < at ==> TryHeader(fmt, file, i).None?
            case None => forall i :: start <= i < start + len - 7 ==> TryHeader(fmt, file, i).None?
  {
    hide TryHeader, MagicFirst;
    var window, i := file[start..start + len], 0;
    while i + 8 <= len
      invariant 0 <= i <= len - 7
      invariant forall at :: start <= at < start + i ==> TryHeader(fmt, file, at).None?
      decreases len - i
    {
      SliceOfSlice(file, start, len, i + 4, 4);
      if U32(window[i + 4..i + 8]) == MAGIC {
        if TryHeader(fmt, file, start + i).Some? {
          return Some(start + i);
        }
      } else {
        NoMagic(fmt, file, start + i);
      }
      i := i + 1;
    }
    return None;
  }

  /**
   `resync`: the file in windows that overlap by seven bytes. It finds what the byte-by-byte search finds.
   */
  method Resync(fmt: Format, file: seq<Byte>, from: nat) returns (r: Option<nat>)
    requires MagicFirst(fmt)
    ensures r == Naive(fmt, file, from + 1)
  {
    hide TryHeader, MagicFirst;
    var start := from + 1;
    while start + 8 <= |file|
      invariant from + 1 <= start
      invariant forall at :: from + 1 <= at < start ==> TryHeader(fmt, file, at).None?
      decreases |file| - start
    {
      var len := Min(|file| - start, RESYNC_WINDOW);
      r := SearchWindow(fmt, file, start, len);
      if r.Some? {
        NaiveSkips(fmt, file, from + 1, r.value);
        return;
      }
      if start + len >= |file| {
        break;
      }
      start := start + (len - 7);
    }
    NothingLeft(fmt, file, from + 1);
    return None;
  }

  /** The last seven bytes of a file hold no record. */
  lemma NothingLeft(fmt: Format, file: seq<Byte>, at: nat)
    requires MagicFirst(fmt) && forall i :: at <= i && i + 8 <= |file| ==> TryHeader(fmt, file, i).None?
    ensures Naive(fmt, file, at).None?
  {
    if Naive(fmt, file, at).Some? {
      NoMagic(fmt, file, Naive(fmt, file, at).value);
    }
  }

  // ---------------------------------------------------------------------------------------------
  // The scan.
  // ---------------------------------------------------------------------------------------------

  datatype ScanEnd = Footer | Eof | Damaged(at: nat)

  datatype Span = Good(header: Header, at: nat) | Bad(from: nat, to: nat)

  function From(s: Span): nat {
    if s.Good? then s.at else s.from
  }

  function To(s: Span): nat {
    if s.Good? then s.at + s.header.recordLen else s.to
  }

  /** What is at an offset: a record, the end, or damage with a record somewhere behind it. */
  datatype Looked = Record(header: Header) | Later(header: Header, at: nat) | End(end: ScanEnd)

  function Look(fmt: Format, file: seq<Byte>, offset: nat): (r: Looked)
    ensures r.Record? ==> 0 < r.header.recordLen && offset + r.header.recordLen <= |file|
    ensures r.Later? ==> offset < r.at && 0 < r.header.recordLen && r.at + r.header.recordLen <= |file|
    ensures r.End? && r.end.Damaged? ==> r.end.at == offset < |file|
  {
    match ScanNext(fmt, file, offset)
    case Some(h) => if offset + h.recordLen > |file| then End(Eof) else Record(h)
    case None =>
      if offset >= |file| then End(Eof)
      else if FooterAt(fmt, file, offset) then End(Footer)
      else
        match Naive(fmt, file, offset + 1)
        case Some(at) => Later(TryHeader(fmt, file, at).value, at)
        case None => End(Damaged(offset))
  }

  datatype Walked = Walked(spans: seq<Span>, end: ScanEnd, stop: nat)

  function After(spans: seq<Span>, w: Walked): Walked {
    w.(spans := spans + w.spans)
  }

  /** Everything a scan from `offset` reports, in order; `stop` is where it stopped looking. */
  function Walk(fmt: Format, file: seq<Byte>, offset: nat): Walked
    decreases |file| - offset
  {
    match Look(fmt, file, offset)
    case Record(h) => After([Good(h, offset)], Walk(fmt, file, offset + h.recordLen))
    case Later(h, at) => After([Bad(offset, at), Good(h, at)], Walk(fmt, file, at + h.recordLen))
    case End(Damaged(_)) => Walked([Bad(offset, |file| % U32_LIMIT)], Damaged(offset), |file|)
    case End(e) => Walked([], e, offset)
  }

  /** Walking on from a record, or stopping. */
  lemma WalkUnfolds(fmt: Format, file: seq<Byte>, offset: nat)
    ensures Walk(fmt, file, offset) ==
            match Look(fmt, file, offset)
            case Record(h) => After([Good(h, offset)], Walk(fmt, file, offset + h.recordLen))
            case Later(h, at) => After([Bad(offset, at), Good(h, at)], Walk(fmt, file, at + h.recordLen))
            case End(Damaged(_)) => Walked([Bad(offset, |file| % U32_LIMIT)], Damaged(offset), |file|)
            case End(e) => Walked([], e, offset)
  {
    hide Look, After;
  }

  lemma AfterApp(a: seq<Span>, b: seq<Span>, w: Walked)
    ensures After(a + b, w) == After(a, After(b, w))
  {
    assert a + b + w.spans == a + (b + w.spans);
  }

  function Goods(spans: seq<Span>): seq<Span> {
    if spans == [] then [] else (if spans[0].Good? then [spans[0]] else []) + Goods(spans[1..])
  }

  function Bads(spans: seq<Span>): seq<Span> {
    if spans == [] then [] else (if spans[0].Bad? then [spans[0]] else []) + Bads(spans[1..])
  }

  lemma SpansFirst(s: Span, rest: seq<Span>)
    ensures Goods([s] + rest) == (if s.Good? then [s] else []) + Goods(rest)
    ensures Bads([s] + rest) == (if s.Bad? then [s] else []) + Bads(rest)
  {
    assert ([s] + rest)[1..] == rest;
  }

  lemma Regrouped(x: seq<Span>, y: seq<Span>, z: seq<Span>)
    ensures x + (y + z) == x + y + z
  {
  }

  lemma NoSpans()
    ensures Goods([]) == [] && Bads([]) == []
  {
  }

  lemma {:induction false} GoodsApp(a: seq<Span>, b: seq<Span>)
    ensures Goods(a + b) == Goods(a) + Goods(b) && Bads(a + b) == Bads(a) + Bads(b)
  {
    hide Goods, Bads;
    if a == [] {
      NoSpans();
      assert a + b == b;
    } else {
      var first, rest := a[0], a[1..];
      assert a == [first] + rest;
      Regrouped([first], rest, b);
      GoodsApp(rest, b);
      SpansFirst(first, rest);
      SpansFirst(first, rest + b);
      Regrouped(if first.Good? then [first] else [], Goods(rest), Goods(b));
      Regrouped(if first.Bad? then [first] else [], Bads(rest), Bads(b));
    }
  }

  /** A scan in progress; `spans` is all it has reported, records and damage, in order. */
  class Scan {
    const fmt: Format
    const file: seq<Byte>
    var offset: nat
    var damaged: seq<Span>
    var end: Option<ScanEnd>
    ghost var spans: seq<Span>

    ghost predicate Valid()
      reads this
    {
      MagicFirst(fmt) && damaged == Bads(spans)
    }

    /** What is still to be reported. */
    ghost function Rest(): Walked
      reads this
    {
      if end.Some? then Walked([], end.value, if end.value.Damaged? then |file| else offset)
        else Walk(fmt, file, offset)
    }

    constructor (fmt: Format, file: seq<Byte>)
      requires MagicFirst(fmt)
      ensures Valid() && spans == [] && end.None? && Rest() == Walk(fmt, file, PAGE) && this.file == file
              && this.fmt == fmt
    {
      this.fmt, this.file, offset, damaged, end, spans := fmt, file, PAGE, [], None, [];
    }

    /** The next record, past any damage. Records and damage come out as `Walk` lists them. */
    method Next() returns (r: Option<Span>)
      requires Valid()
      modifies this
      ensures Valid()
      ensures After(spans, Rest()) == After(old(spans), old(Rest()))
      ensures match r
              case Some(g) => g.Good? && Goods(spans) == old(Goods(spans)) + [g] && end.None?
                && |Rest().spans| < |old(Rest().spans)|
              case None => Goods(spans) == old(Goods(spans)) && end.Some?
    {
      hide Walk, Goods, Bads, MagicFirst, ScanNext, TryHeader, FooterAt, Naive;
      if end.Some? {
        return None;
      }
      WalkUnfolds(fmt, file, offset);
      var here := ScanNext(fmt, file, offset);
      if here.Some? {
        var h := here.value;
        if offset + h.recordLen > |file| {
          end := Some(Eof);
          return None;
        }
        r := Some(Good(h, offset));
        Report([r.value]);
        offset := offset + h.recordLen;
        return;
      }
      if offset >= |file| {
        end := Some(Eof);
        return None;
      }
      if FooterAt(fmt, file, offset) {
        end := Some(Footer);
        return None;
      }
      var found := Resync(fmt, file, offset);
      if found.Some? {
        var h := TryHeader(fmt, file, found.value).value;
        r := Some(Good(h, found.value));
        damaged := damaged + [Bad(offset, found.value)];
        Report([Bad(offset, found.value), r.value]);
        offset := found.value + h.recordLen;
        return;
      }
      damaged := damaged + [Bad(offset, |file| % U32_LIMIT)];
      Report([Bad(offset, |file| % U32_LIMIT)]);
      end := Some(Damaged(offset));
      return None;
    }

    ghost method Report(more: seq<Span>)
      modifies this`spans
      ensures spans == old(spans) + more
      ensures Goods(spans) == old(Goods(spans)) + Goods(more) && Bads(spans) == old(Bads(spans)) + Bads(more)
      ensures |more| == 1 && more[0].Good? ==> Goods(more) == more && Bads(more) == []
      ensures |more| == 1 && more[0].Bad? ==> Goods(more) == [] && Bads(more) == more
      ensures |more| == 2 && more[0].Bad? && more[1].Good? ==> Goods(more) == [more[1]] && Bads(more) == [more[0]]
      ensures forall w :: After(spans, w) == After(old(spans), After(more, w))
    {
      GoodsApp(spans, more);
      assert |more| == 1 ==> more[1..] == [];
      if |more| == 2 {
        assert more == [more[0]] + [more[1]];
        GoodsApp([more[0]], [more[1]]);
      }
      forall w
        ensures After(spans + more, w) == After(spans, After(more, w))
      {
        AfterApp(spans, more, w);
      }
      spans := spans + more;
    }
  }

  lemma AfterNone()
    ensures Goods([]) == [] && forall w :: After([], w) == w
  {
    assert forall w: Walked :: [] + w.spans == w.spans;
  }

  /** A whole scan. */
  method ScanAll(fmt: Format, file: seq<Byte>) returns (records: seq<Span>, damaged: seq<Span>, end: ScanEnd)
    requires MagicFirst(fmt)
    ensures var w := Walk(fmt, file, PAGE);
            records == Goods(w.spans) && damaged == Bads(w.spans) && end == w.end
  {
    hide Walk, Goods, Bads, MagicFirst;
    var scan := new Scan(fmt, file);
    AfterNone();
    records := [];
    var more := true;
    while more
      invariant scan.Valid() && fresh(scan) && scan.file == file && scan.fmt == fmt
      invariant After(scan.spans, scan.Rest()) == Walk(fmt, file, PAGE)
      invariant records == Goods(scan.spans) && (!more ==> scan.end.Some?)
      decreases more, |scan.Rest().spans|
    {
      var r := scan.Next();
      match r
      case Some(g) => records := records + [g];
      case None => more := false;
    }
    assert scan.spans + [] == scan.spans;
    return records, scan.damaged, scan.end.value;
  }

  // ---------------------------------------------------------------------------------------------
  // Records and damage tile the file.
  // ---------------------------------------------------------------------------------------------

  /** One after another, none empty, from `a` to `b`. */
  predicate Tiles(spans: seq<Span>, a: nat, b: nat)
    decreases |spans|
  {
    if spans == [] then a == b
    else From(spans[0]) == a && To(spans[0]) > a && Tiles(spans[1..], To(spans[0]), b)
  }

  /** The damage at the end is reported up to the length as a 32-bit number. */
  predicate LongDamage(file: seq<Byte>, w: Walked) {
    w.end.Damaged? && |file| >= U32_LIMIT
  }

  /**
   What a scan reports tiles the file from where it began to where it stopped, every record inside the
   file, exactly if it does not end in damage in a file of 4 GiB or more.
   */
  lemma {:induction false} WalkTiles(fmt: Format, file: seq<Byte>, offset: nat)
    ensures var w := Walk(fmt, file, offset);
            && (Tiles(w.spans, offset, w.stop) <==> !LongDamage(file, w))
            && (forall s :: s in w.spans && s.Good? ==> To(s) <= |file|)
            && (w.end.Damaged? ==> w.stop == |file|) && (offset <= |file| ==> w.stop <= |file|)
    decreases |file| - offset
  {
    WalkUnfolds(fmt, file, offset);
    hide Look, Walk, Tiles;
    match Look(fmt, file, offset)
    case Record(h) =>
      WalkTiles(fmt, file, offset + h.recordLen);
      TilesFirst(Good(h, offset), Walk(fmt, file, offset + h.recordLen), offset);
    case Later(h, at) =>
      WalkTiles(fmt, file, at + h.recordLen);
      var v := Walk(fmt, file, at + h.recordLen);
      TilesFirst(Good(h, at), v, at);
      TilesFirst(Bad(offset, at), After([Good(h, at)], v), offset);
      AfterApp([Bad(offset, at)], [Good(h, at)], v);
      assert [Bad(offset, at)] + [Good(h, at)] == [Bad(offset, at), Good(h, at)];
    case End(e) =>
      if e.Damaged? {
        LastTile(Bad(offset, |file| % U32_LIMIT), offset, |file|);
      } else {
        NoTiles(offset);
      }
  }

  lemma TilesFirst(s: Span, w: Walked, at: nat)
    requires From(s) == at < To(s)
    ensures Tiles(After([s], w).spans, at, w.stop) <==> Tiles(w.spans, To(s), w.stop)
  {
    assert ([s] + w.spans)[1..] == w.spans;
  }

  lemma NoTiles(at: nat)
    ensures Tiles([], at, at)
  {
  }

  /** So what is reported of a file below 4 GiB always tiles it. */
  lemma ShortFileTiles(fmt: Format, file: seq<Byte>, offset: nat)
    requires |file| < U32_LIMIT
    ensures Tiles(Walk(fmt, file, offset).spans, offset, Walk(fmt, file, offset).stop)
  {
    hide Walk, Tiles;
    WalkTiles(fmt, file, offset);
  }

  lemma LastTile(s: Span, a: nat, b: nat)
    requires s == Bad(a, b % U32_LIMIT) && a < b
    ensures Tiles([s], a, b) <==> b < U32_LIMIT
  {
    assert [s][1..] == [];
  }

  /** A 4 GiB file with nothing readable in it: the damage reported does not reach its end. */
  lemma LongFileMisreported()
    ensures var fmt := Format(_ => None, _ => 0, _ => false);
            var file := seq(U32_LIMIT, _ => 0);
            MagicFirst(fmt) && Walk(fmt, file, PAGE).spans == [Bad(PAGE, 0)]
                       && Walk(fmt, file, PAGE).end == Damaged(PAGE)
  {
    var fmt := Format(_ => None, _ => 0, _ => false);
    var file: seq<Byte> := seq(U32_LIMIT, _ => 0);
    assert forall at: nat ::
             HeaderAt(fmt, file, at, MAX_HEADER_LEN).None? && HeaderAt(fmt, file, at, RESYNC_MAX_HEADER_LEN).None?;
    assert Naive(fmt, file, PAGE + 1).None?;
  }
}
