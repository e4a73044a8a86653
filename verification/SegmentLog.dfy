/**
 What a segment writer puts in a file, and what a scan of it, whole, torn or sealed, gives back.
 */
module SegmentLog {
  import opened Basics
  import opened SegmentScan

  function Le32(n: nat): (b: seq<Byte>)
    requires n < U32_LIMIT
    ensures |b| == 4 && U32(b) == n
  {
    var a := n / 256;
    var b := a / 256;
    [n % 256, a % 256, b % 256, b / 256]
  }

  /** A record: its header, the header as encoded, and its payload. */
  datatype Rec = Rec(header: Header, encoded: seq<Byte>, payload: seq<Byte>)

  /** A record an append accepts and a scan can read. */
  predicate Sound(fmt: Format, r: Rec) {
    && 0 < |r.encoded| <= MAX_HEADER_LEN
    && fmt.decode(r.encoded) == Some(r.header)
    && r.header.magic == MAGIC && fmt.crc(r.header) == r.header.checksum
    && r.header.recordLen == 4 + |r.encoded| + |r.payload| <= MAX_RECORD_LEN
  }

  function Framed(r: Rec): seq<Byte>
    requires |r.encoded| < U32_LIMIT
  {
    Le32(|r.encoded|) + r.encoded + r.payload
  }

  ghost predicate AllSound(fmt: Format, rs: seq<Rec>) {
    forall i :: 0 <= i < |rs| ==> Sound(fmt, rs[i])
  }

  function Log(fmt: Format, rs: seq<Rec>): seq<Byte>
    requires AllSound(fmt, rs)
  {
    if rs == [] then [] else Framed(rs[0]) + Log(fmt, rs[1..])
  }

  /** Where each record lands, the first at `at`. */
  function Landed(rs: seq<Rec>, at: nat): seq<Span> {
    if rs == [] then [] else [Good(rs[0].header, at)] + Landed(rs[1..], at + rs[0].header.recordLen)
  }

  // ---------------------------------------------------------------------------------------------
  // Whole records.
  // ---------------------------------------------------------------------------------------------

  lemma SliceOf(pre: seq<Byte>, mid: seq<Byte>, post: seq<Byte>)
    ensures (pre + mid + post)[|pre|..|pre| + |mid|] == mid
  {
  }

  /** A header is found where it was framed, whatever follows its last byte. */
  lemma HeaderRead(fmt: Format, pre: seq<Byte>, r: Rec, post: seq<Byte>)
    requires Sound(fmt, r)
    ensures HeaderAt(fmt, pre + (Le32(|r.encoded|) + r.encoded) + post, |pre|, MAX_HEADER_LEN) == Some(r.header)
  {
    var front := Le32(|r.encoded|) + r.encoded;
    var file := pre + front + post;
    assert file == pre + Le32(|r.encoded|) + (r.encoded + post);
    SliceOf(pre, Le32(|r.encoded|), r.encoded + post);
    SliceOf(pre, front, post);
    assert front[..4] == Le32(|r.encoded|) && front[4..4 + |r.encoded|] == r.encoded;
  }

  lemma RecordRead(fmt: Format, pre: seq<Byte>, r: Rec, post: seq<Byte>)
    requires Sound(fmt, r) && |pre| + |Framed(r)| < U32_LIMIT
    ensures Look(fmt, pre + Framed(r) + post, |pre|) == Record(r.header) && |Framed(r)| == r.header.recordLen
  {
    assert pre + Framed(r) + post == pre + (Le32(|r.encoded|) + r.encoded) + (r.payload + post);
    HeaderRead(fmt, pre, r, r.payload + post);
  }

  /** A scan passes over framed records, one span each, and goes on from there. */
  lemma {:induction false} WalkRecords(fmt: Format, pre: seq<Byte>, rs: seq<Rec>, post: seq<Byte>)
    requires AllSound(fmt, rs) && |pre| + |Log(fmt, rs)| < U32_LIMIT
    ensures var file := pre + Log(fmt, rs) + post;
            Walk(fmt, file, |pre|) == After(Landed(rs, |pre|), Walk(fmt, file, |pre| + |Log(fmt, rs)|))
    decreases |rs|
  {
    hide Look, Walk, After;
    var file := pre + Log(fmt, rs) + post;
    if rs != [] {
      var first, rest := Framed(rs[0]), Log(fmt, rs[1..]);
      Regroup(pre, first, rest, post);
      RecordRead(fmt, pre, rs[0], rest + post);
      WalkRecords(fmt, pre + first, rs[1..], post);
      WalkUnfolds(fmt, file, |pre|);
      AfterApp([Good(rs[0].header, |pre|)], Landed(rs[1..], |pre| + |first|), Walk(fmt, file, |pre| + |Log(fmt, rs)|));
    } else {
      AfterNothing(Walk(fmt, file, |pre|));
    }
  }

  lemma Regroup(pre: seq<Byte>, first: seq<Byte>, rest: seq<Byte>, post: seq<Byte>)
    ensures pre + (first + rest) + post == pre + first + (rest + post) == (pre + first) + rest + post
  {
  }

  lemma AfterNothing(w: Walked)
    ensures After([], w) == w && forall spans :: w.spans == [] ==> After(spans, w) == w.(spans := spans)
  {
    assert [] + w.spans == w.spans;
    assert forall spans: seq<Span> :: spans + [] == spans;
  }

  lemma {:induction false} LandedGood(rs: seq<Rec>, at: nat)
    ensures Goods(Landed(rs, at)) == Landed(rs, at) && Bads(Landed(rs, at)) == []
  {
    if rs != [] {
      assert Landed(rs, at)[1..] == Landed(rs[1..], at + rs[0].header.recordLen);
      LandedGood(rs[1..], at + rs[0].header.recordLen);
    }
  }

  /** Scanning an open segment gives back its records where they were put, and a clean end. */
  lemma ScanOpen(fmt: Format, page: seq<Byte>, rs: seq<Rec>)
    requires |page| == PAGE && AllSound(fmt, rs) && PAGE + |Log(fmt, rs)| < U32_LIMIT
    ensures var file := page + Log(fmt, rs);
            Walk(fmt, file, PAGE) == Walked(Landed(rs, PAGE), Eof, |file|)
  {
    hide Walk, After, Log;
    var file := page + Log(fmt, rs);
    WalkRecords(fmt, page, rs, []);
    assert page + Log(fmt, rs) + [] == file;
    WalkUnfolds(fmt, file, |file|);
    AfterNothing(Walk(fmt, file, |file|));
  }

  /** Bytes a scan takes for a footer: they decode as one, and not as a record's header. */
  predicate IsFooter(fmt: Format, footer: seq<Byte>) {
    && 0 < |footer| <= 4096 && fmt.footer(footer)
    && match fmt.decode(footer)
       case None => true
       case Some(h) => h.magic != MAGIC || fmt.crc(h) != h.checksum
  }

  /** Whatever follows a footer is never looked at. `page` may have changed since: sealing rewrites it. */
  lemma ScanSealed(fmt: Format, page: seq<Byte>, rs: seq<Rec>, footer: seq<Byte>, behind: seq<Byte>)
    requires |page| == PAGE && AllSound(fmt, rs) && PAGE + |Log(fmt, rs)| < U32_LIMIT && IsFooter(fmt, footer)
    ensures var file := page + Log(fmt, rs) + (Le32(|footer|) + footer + behind);
            Walk(fmt, file, PAGE) == Walked(Landed(rs, PAGE), Footer, PAGE + |Log(fmt, rs)|)
  {
    hide Walk, After, Log, ScanNext, FooterAt, Naive;
    var body, post := page + Log(fmt, rs), Le32(|footer|) + footer + behind;
    WalkRecords(fmt, page, rs, post);
    FooterFound(fmt, body, footer, behind);
    WalkUnfolds(fmt, body + post, |body|);
    AfterNothing(Walk(fmt, body + post, |body|));
  }

  lemma FooterFound(fmt: Format, body: seq<Byte>, footer: seq<Byte>, behind: seq<Byte>)
    requires IsFooter(fmt, footer)
    ensures var file := body + (Le32(|footer|) + footer + behind);
            FooterAt(fmt, file, |body|) && ScanNext(fmt, file, |body|).None?
  {
    var le := Le32(|footer|);
    var post := le + footer + behind;
    assert body + post == body + le + (footer + behind);
    SliceOf(body, le, footer + behind);
    assert body + post == (body + le) + footer + behind;
    SliceOf(body + le, footer, behind);
    assert body + post == body + (le + footer) + behind;
    SliceOf(body, le + footer, behind);
    assert (le + footer)[..4] == le && (le + footer)[4..4 + |footer|] == footer;
  }

  // ---------------------------------------------------------------------------------------------
  // A torn tail.
  // ---------------------------------------------------------------------------------------------

  /** Records wholly within the first `n` bytes of the log. */
  function Contained(rs: seq<Rec>, n: nat): nat {
    if rs == [] || rs[0].header.recordLen > n then 0 else 1 + Contained(rs[1..], n - rs[0].header.recordLen)
  }

  /** What is left of the first record not wholly there. */
  function Tail(fmt: Format, rs: seq<Rec>, n: nat): seq<Byte>
    requires AllSound(fmt, rs)
  {
    if rs == [] then []
    else if rs[0].header.recordLen > n then Framed(rs[0])[..n]
    else Tail(fmt, rs[1..], n - rs[0].header.recordLen)
  }

  /** A cut log is its whole records, and a proper beginning of the next. */
  ghost predicate CutAfter(fmt: Format, rs: seq<Rec>, n: nat, k: nat, tail: seq<Byte>) {
    && AllSound(fmt, rs) && k <= |rs| && n <= |Log(fmt, rs)| && Log(fmt, rs)[..n] == Log(fmt, rs[..k]) + tail
    && (k == |rs| ==> tail == [])
    && (k < |rs| ==>
          && |tail| < |Framed(rs[k])| && tail == Framed(rs[k])[..|tail|]
          && |Log(fmt, rs[..k])| + |Framed(rs[k])| <= |Log(fmt, rs)|)
  }

  lemma {:induction false} Torn(fmt: Format, rs: seq<Rec>, n: nat)
    requires AllSound(fmt, rs) && n <= |Log(fmt, rs)|
    ensures CutAfter(fmt, rs, n, Contained(rs, n), Tail(fmt, rs, n))
  {
    if rs == [] {
    } else if rs[0].header.recordLen <= n {
      assert |Framed(rs[0])| == rs[0].header.recordLen;
      hide CutAfter;
      Torn(fmt, rs[1..], n - rs[0].header.recordLen);
      CutLater(fmt, rs, n, Contained(rs, n), Tail(fmt, rs, n));
    } else {
      CutFirst(fmt, rs, n);
    }
  }

  lemma CutFirst(fmt: Format, rs: seq<Rec>, n: nat)
    requires AllSound(fmt, rs) && rs != [] && n <= |Log(fmt, rs)| && rs[0].header.recordLen > n
    ensures CutAfter(fmt, rs, n, 0, Framed(rs[0])[..n])
  {
    var first, rest := Framed(rs[0]), Log(fmt, rs[1..]);
    assert |first| == rs[0].header.recordLen;
    hide Framed;
    assert rs[..0] == [];
    assert (first + rest)[..n] == first[..n] == [] + first[..n];
  }

  lemma CutLater(fmt: Format, rs: seq<Rec>, n: nat, k: nat, tail: seq<Byte>)
    requires AllSound(fmt, rs) && rs != [] && 0 < k && |Framed(rs[0])| <= n
    requires CutAfter(fmt, rs[1..], n - |Framed(rs[0])|, k - 1, tail)
    ensures CutAfter(fmt, rs, n, k, tail)
  {
    LogFirst(fmt, rs, k);
    hide Log, Framed;
    var first, rest, whole := Framed(rs[0]), Log(fmt, rs[1..]), Log(fmt, rs[1..][..k - 1]);
    CutBehind(first, rest, n);
    assert first + (whole + tail) == first + whole + tail;
  }

  lemma LogFirst(fmt: Format, rs: seq<Rec>, k: nat)
    requires AllSound(fmt, rs) && 0 < k <= |rs|
    ensures Log(fmt, rs[..k]) == Framed(rs[0]) + Log(fmt, rs[1..][..k - 1])
            && Log(fmt, rs) == Framed(rs[0]) + Log(fmt, rs[1..])
  {
    assert rs[..k][1..] == rs[1..][..k - 1];
  }

  lemma CutBehind(first: seq<Byte>, rest: seq<Byte>, n: nat)
    requires |first| <= n <= |first| + |rest|
    ensures (first + rest)[..n] == first + rest[..n - |first|]
  {
  }

  /** Nothing after `at` reads as a footer or a record. */
  ghost predicate Quiet(fmt: Format, file: seq<Byte>, at: nat) {
    !FooterAt(fmt, file, at) && Naive(fmt, file, at + 1).None?
  }

  /** A cut inside a header leaves no header. */
  lemma CutHeader(fmt: Format, pre: seq<Byte>, r: Rec, n: nat)
    requires Sound(fmt, r) && n < 4 + |r.encoded|
    ensures ScanNext(fmt, pre + Framed(r)[..n], |pre|).None?
  {
    var file := pre + Framed(r)[..n];
    if n >= 4 {
      assert file[|pre|..|pre| + 4] == Framed(r)[..4] == Le32(|r.encoded|);
    }
  }

  /** A cut past the header, but not at the end, is a clean end. */
  lemma CutPayload(fmt: Format, pre: seq<Byte>, r: Rec, n: nat)
    requires Sound(fmt, r) && 4 + |r.encoded| <= n < |Framed(r)| && |pre| + |Framed(r)| < U32_LIMIT
    ensures Look(fmt, pre + Framed(r)[..n], |pre|) == End(Eof)
  {
    var front := Le32(|r.encoded|) + r.encoded;
    assert Framed(r)[..n] == front + Framed(r)[|front|..n];
    assert pre + Framed(r)[..n] == pre + front + Framed(r)[|front|..n];
    HeaderRead(fmt, pre, r, Framed(r)[|front|..n]);
  }

  /**
   Cutting an open segment anywhere past its header page: the scan gives back exactly the records wholly
   contained, where they were; if the cut is inside a header, provided the torn piece does not happen to hold
   a record or a footer.
   */
  lemma ScanTorn(fmt: Format, page: seq<Byte>, rs: seq<Rec>, n: nat)
    requires |page| == PAGE && AllSound(fmt, rs) && PAGE + |Log(fmt, rs)| < U32_LIMIT && n <= |Log(fmt, rs)|
    requires var k, tail := Contained(rs, n), Tail(fmt, rs, n);
             k < |rs| && 0 < |tail| < 4 + |rs[k].encoded| ==>
               Quiet(fmt, page + Log(fmt, rs)[..n], PAGE + |Log(fmt, rs[..k])|)
    ensures Contained(rs, n) <= |rs|
    ensures var w := Walk(fmt, page + Log(fmt, rs)[..n], PAGE);
            Goods(w.spans) == Landed(rs[..Contained(rs, n)], PAGE) && !w.end.Footer?
  {
    hide Walk, After, Log, Quiet, Framed, Contained, Landed, Tail;
    var k := Contained(rs, n);
    Torn(fmt, rs, n);
    var whole := Log(fmt, rs[..k]);
    var pre, torn := page + whole, Tail(fmt, rs, n);
    var file := pre + torn;
    assert file == page + Log(fmt, rs)[..n];
    WalkRecords(fmt, page, rs[..k], torn);
    LandedGood(rs[..k], PAGE);
    TornEnd(fmt, pre, rs, k, torn);
    var w := Walk(fmt, file, |pre|);
    GoodsApp(Landed(rs[..k], PAGE), w.spans);
    AfterIs(Landed(rs[..k], PAGE), w);
  }

  lemma AfterIs(spans: seq<Span>, w: Walked)
    ensures After(spans, w).spans == spans + w.spans && After(spans, w).end == w.end
  {
  }

  lemma TornEnd(fmt: Format, pre: seq<Byte>, rs: seq<Rec>, k: nat, torn: seq<Byte>)
    requires AllSound(fmt, rs) && k <= |rs| && (k == |rs| ==> torn == [])
    requires k < |rs| ==>
               |torn| < |Framed(rs[k])| && torn == Framed(rs[k])[..|torn|] && |pre| + |Framed(rs[k])| < U32_LIMIT
    requires k < |rs| && 0 < |torn| < 4 + |rs[k].encoded| ==> Quiet(fmt, pre + torn, |pre|)
    ensures var w := Walk(fmt, pre + torn, |pre|); Goods(w.spans) == [] && !w.end.Footer?
  {
    var file := pre + torn;
    WalkUnfolds(fmt, file, |pre|);
    hide Walk;
    if k == |rs| {
      assert file == pre;
    } else if |torn| < 4 + |rs[k].encoded| {
      CutHeader(fmt, pre, rs[k], |torn|);
    } else {
      CutPayload(fmt, pre, rs[k], |torn|);
    }
  }

  // ---------------------------------------------------------------------------------------------
  // Reopening a segment left open.
  // ---------------------------------------------------------------------------------------------

  /** What a writer carries along: where it writes next, and what its footer is made of. */
  datatype Cursor = Cursor(at: nat, hashes: seq<nat>)

  /** A writer after appending `rs` to a new segment. */
  function WriterAfter(fmt: Format, rs: seq<Rec>): Cursor
    requires AllSound(fmt, rs)
  {
    Cursor(PAGE + |Log(fmt, rs)|, seq(|rs|, i requires 0 <= i < |rs| => rs[i].header.contentHash))
  }

  /** `reopen_open_replicas`, for one replica: the cursor and the hashes come from the records a scan finds. */
  method Reopen(fmt: Format, file: seq<Byte>) returns (c: Cursor)
    requires MagicFirst(fmt)
    ensures c == Reopened(Goods(Walk(fmt, file, PAGE).spans))
  {
    var records, _, _ := ScanAll(fmt, file);
    GoodsAreGood(Walk(fmt, file, PAGE).spans);
    hide Walk, Goods, MagicFirst;
    c := Cursor(PAGE, []);
    for n := 0 to |records|
      invariant c == Reopened(records[..n])
    {
      assert records[..n + 1][..n] == records[..n];
      c := Cursor(Max(c.at, To(records[n])), c.hashes + [records[n].header.contentHash]);
    }
    assert records[..|records|] == records;
  }

  lemma {:induction false} GoodsAreGood(spans: seq<Span>)
    ensures forall i :: 0 <= i < |Goods(spans)| ==> Goods(spans)[i].Good?
  {
    if spans != [] {
      GoodsAreGood(spans[1..]);
    }
  }

  function Reopened(records: seq<Span>): Cursor {
    if records == [] then Cursor(PAGE, [])
    else
      var c, last := Reopened(records[..|records| - 1]), records[|records| - 1];
      Cursor(Max(c.at, To(last)), c.hashes + [if last.Good? then last.header.contentHash else 0])
  }

  lemma {:induction false} LogApp(fmt: Format, rs: seq<Rec>, r: Rec)
    requires AllSound(fmt, rs) && Sound(fmt, r)
    ensures AllSound(fmt, rs + [r]) && Log(fmt, rs + [r]) == Log(fmt, rs) + Framed(r)
  {
    if rs == [] {
      assert (rs + [r])[1..] == [];
      assert rs + [r] == [r];
    } else {
      LogApp(fmt, rs[1..], r);
      assert (rs + [r])[1..] == rs[1..] + [r];
    }
  }

  lemma {:induction false} LandedApp(rs: seq<Rec>, r: Rec, at: nat, fmt: Format)
    requires AllSound(fmt, rs)
    ensures Landed(rs + [r], at) == Landed(rs, at) + [Good(r.header, at + |Log(fmt, rs)|)]
  {
    if rs == [] {
      assert (rs + [r])[1..] == [];
      assert rs + [r] == [r];
    } else {
      LandedApp(rs[1..], r, at + rs[0].header.recordLen, fmt);
      assert (rs + [r])[1..] == rs[1..] + [r];
    }
  }

  /** Reopening after a scan that found `rs` puts the writer where one that had appended just `rs` would be. */
  lemma {:induction false} ReopenedIsWriter(fmt: Format, rs: seq<Rec>)
    requires AllSound(fmt, rs)
    ensures Reopened(Landed(rs, PAGE)) == WriterAfter(fmt, rs)
    decreases |rs|
  {
    if rs != [] {
      var front, r := rs[..|rs| - 1], rs[|rs| - 1];
      assert rs == front + [r];
      ReopenedIsWriter(fmt, front);
      LandedApp(front, r, PAGE, fmt);
      LogApp(fmt, front, r);
      var l := Landed(rs, PAGE);
      assert l[..|l| - 1] == Landed(front, PAGE);
      hide Landed, Log;
      assert WriterAfter(fmt, rs).hashes == WriterAfter(fmt, front).hashes + [r.header.contentHash];
    }
  }

  /**
   A file that is an open segment with records `rs`, cut after `n` bytes of them; if the cut is inside a header,
   the torn piece does not happen to hold a record or a footer.
   */
  ghost predicate CutFile(fmt: Format, file: seq<Byte>, rs: seq<Rec>, n: nat) {
    && PAGE <= |file| && AllSound(fmt, rs) && PAGE + |Log(fmt, rs)| < U32_LIMIT && n <= |Log(fmt, rs)|
    && file == file[..PAGE] + Log(fmt, rs)[..n]
    && var k, tail := Contained(rs, n), Tail(fmt, rs, n);
       k < |rs| && 0 < |tail| < 4 + |rs[k].encoded| ==> Quiet(fmt, file, PAGE + |Log(fmt, rs[..k])|)
  }

  /** Reopening a segment cut anywhere puts the writer where one that had appended just the whole records would be. */
  lemma ReopenTorn(fmt: Format, file: seq<Byte>, rs: seq<Rec>, n: nat)
    requires CutFile(fmt, file, rs, n)
    ensures Contained(rs, n) <= |rs|
    ensures Reopened(Goods(Walk(fmt, file, PAGE).spans)) == WriterAfter(fmt, rs[..Contained(rs, n)])
    ensures file == file[..PAGE] + Log(fmt, rs[..Contained(rs, n)]) + Tail(fmt, rs, n)
  {
    ScanTorn(fmt, file[..PAGE], rs, n);
    Torn(fmt, rs, n);
    hide Walk, Log, Quiet, Contained, Tail, Landed, Reopened;
    ReopenedIsWriter(fmt, rs[..Contained(rs, n)]);
  }

  // ---------------------------------------------------------------------------------------------
  // A footer behind what a scan found, whatever damage is in between.
  // ---------------------------------------------------------------------------------------------

  /** Where the last record found ends. */
  function EndOf(goods: seq<Span>, from: nat): nat {
    if goods == [] then from else To(goods[|goods| - 1])
  }

  /** Records found are behind one another, and inside the file. */
  ghost predicate Behind(goods: seq<Span>, from: nat, to: nat) {
    && (forall i :: 0 <= i < |goods| ==> from < To(goods[i]) <= to)
    && (forall i, j :: 0 <= i < j < |goods| ==> To(goods[i]) <= To(goods[j]))
  }

  lemma BehindFirst(g: Span, rest: seq<Span>, from: nat, to: nat)
    requires from < To(g) <= to && Behind(rest, To(g), to)
    ensures Behind([g] + rest, from, to) && EndOf([g] + rest, from) == EndOf(rest, To(g))
  {
  }

  /** The next record of a scan, past any damage. */
  lemma GoodsNext(fmt: Format, file: seq<Byte>, at: nat)
    ensures var w := Walk(fmt, file, at);
            match Look(fmt, file, at)
            case Record(h) => Goods(w.spans) == [Good(h, at)] + Goods(Walk(fmt, file, at + h.recordLen).spans)
            case Later(h, x) => Goods(w.spans) == [Good(h, x)] + Goods(Walk(fmt, file, x + h.recordLen).spans)
            case End(_) => Goods(w.spans) == []
  {
    WalkUnfolds(fmt, file, at);
    hide Walk, Look;
    match Look(fmt, file, at)
    case Record(h) => GoodFirst([Good(h, at)], Walk(fmt, file, at + h.recordLen).spans);
    case Later(h, x) => GoodFirst([Bad(at, x), Good(h, x)], Walk(fmt, file, x + h.recordLen).spans);
    case End(_) => assert [Bad(at, |file| % U32_LIMIT)][1..] == [];
  }

  lemma GoodFirst(front: seq<Span>, rest: seq<Span>)
    requires 0 < |front| <= 2 && front[|front| - 1].Good? && (|front| == 2 ==> front[0].Bad?)
    ensures Goods(front + rest) == [front[|front| - 1]] + Goods(rest)
  {
    GoodsApp(front, rest);
    var last := front[|front| - 1];
    assert [last][1..] == [];
    assert front == if |front| == 1 then [last] else [front[0], last];
    assert [front[0], last][1..] == [last];
  }

  lemma {:induction false} FoundBehind(fmt: Format, file: seq<Byte>, at: nat)
    ensures Behind(Goods(Walk(fmt, file, at).spans), at, |file|)
    decreases |file| - at
  {
    GoodsNext(fmt, file, at);
    hide Walk, Behind, Goods;
    match Look(fmt, file, at)
    case Record(h) =>
      FoundBehind(fmt, file, at + h.recordLen);
      BehindFirst(Good(h, at), Goods(Walk(fmt, file, at + h.recordLen).spans), at, |file|);
    case Later(h, x) =>
      FoundBehind(fmt, file, x + h.recordLen);
      BehindFirst(Good(h, x), Goods(Walk(fmt, file, x + h.recordLen).spans), at, |file|);
    case End(_) => BehindNone(at, |file|);
  }

  lemma BehindNone(from: nat, to: nat)
    ensures Behind([], from, to)
  {
  }

  /** A reopened writer goes on where the last record found ends. */
  lemma {:induction false} ReopenedAt(goods: seq<Span>, to: nat)
    requires Behind(goods, PAGE, to)
    ensures Reopened(goods).at == EndOf(goods, PAGE) && |Reopened(goods).hashes| == |goods|
    decreases |goods|
  {
    if goods != [] {
      ReopenedAt(goods[..|goods| - 1], to);
    }
  }

  /** At no offset from `from` to `to` do the two files read differently. */
  ghost predicate Undisturbed(fmt: Format, file: seq<Byte>, now: seq<Byte>, from: nat, to: nat) {
    forall x :: from <= x < to ==>
      && ScanNext(fmt, now, x) == ScanNext(fmt, file, x) && TryHeader(fmt, now, x) == TryHeader(fmt, file, x)
      && FooterAt(fmt, now, x) == FooterAt(fmt, file, x)
  }

  lemma LookSame(fmt: Format, file: seq<Byte>, now: seq<Byte>, at: nat, to: nat, g: Span)
    requires g.Good? && at <= g.at && Look(fmt, file, at) == NextIs(g, at)
    requires To(g) <= to <= |now| && Undisturbed(fmt, file, now, at, to)
    ensures Look(fmt, now, at) == NextIs(g, at)
  {
    hide ScanNext, TryHeader, FooterAt, Naive;
    assert ScanNext(fmt, now, at) == ScanNext(fmt, file, at) && FooterAt(fmt, now, at) == FooterAt(fmt, file, at);
    if at < g.at {
      SearchSame(fmt, file, now, at + 1, to, g.at);
    }
  }

  /** The byte-by-byte search ends at the same record. */
  lemma SearchSame(fmt: Format, file: seq<Byte>, now: seq<Byte>, at: nat, to: nat, x: nat)
    requires Naive(fmt, file, at) == Some(x) && x < to <= |now| && 0 < at && Undisturbed(fmt, file, now, at - 1, to)
    ensures Naive(fmt, now, at) == Some(x) && TryHeader(fmt, now, x) == TryHeader(fmt, file, x)
  {
    hide ScanNext, TryHeader, FooterAt;
    assert TryHeader(fmt, now, x) == TryHeader(fmt, file, x);
    assert forall i :: at <= i < x ==> TryHeader(fmt, now, i) == TryHeader(fmt, file, i);
    NaiveSkips(fmt, now, at, x);
  }

  /** What a scan at `at` sees if `g` is the next record. */
  function NextIs(g: Span, at: nat): Looked
    requires g.Good?
  {
    if g.at == at then Record(g.header) else Later(g.header, g.at)
  }

  /** A footer where the last record found ends, and nothing before it disturbed. */
  ghost predicate Footed(fmt: Format, file: seq<Byte>, now: seq<Byte>, at: nat, c: nat) {
    FooterAt(fmt, now, c) && ScanNext(fmt, now, c).None? && Undisturbed(fmt, file, now, at, c)
  }

  lemma FootedInside(fmt: Format, file: seq<Byte>, now: seq<Byte>, at: nat, c: nat, next: nat)
    requires Footed(fmt, file, now, at, c) && at <= next
    ensures c <= |now| && Undisturbed(fmt, file, now, at, c) && Footed(fmt, file, now, next, c)
  {
    hide ScanNext, TryHeader;
  }

  lemma FooterEnds(fmt: Format, file: seq<Byte>, now: seq<Byte>, at: nat)
    requires Footed(fmt, file, now, at, at)
    ensures Walk(fmt, now, at) == Walked([], Footer, at)
  {
    hide ScanNext, TryHeader, Naive, Undisturbed;
  }

  /** Behind a footer put where the last record found ends, the scan finds the same records, and that footer. */
  lemma {:induction false} SealKeepsScan(fmt: Format, file: seq<Byte>, now: seq<Byte>, at: nat)
    requires Footed(fmt, file, now, at, EndOf(Goods(Walk(fmt, file, at).spans), at))
    ensures var w, goods := Walk(fmt, now, at), Goods(Walk(fmt, file, at).spans);
            Goods(w.spans) == goods && w.end == Footer && w.stop == EndOf(goods, at)
    decreases |file| - at, 1
  {
    hide Walk, Footed, Behind, Goods;
    GoodsNext(fmt, file, at);
    match Look(fmt, file, at)
    case Record(h) => SealKeepsNext(fmt, file, now, at, Good(h, at));
    case Later(h, x) => SealKeepsNext(fmt, file, now, at, Good(h, x));
    case End(_) =>
      FooterEnds(fmt, file, now, at);
      NoSpans();
  }

  lemma {:induction false} SealKeepsNext(fmt: Format, file: seq<Byte>, now: seq<Byte>, at: nat, g: Span)
    requires g.Good? && at <= g.at && at < To(g) <= |file| && Look(fmt, file, at) == NextIs(g, at)
    requires Goods(Walk(fmt, file, at).spans) == [g] + Goods(Walk(fmt, file, To(g)).spans)
    requires Footed(fmt, file, now, at, EndOf(Goods(Walk(fmt, file, at).spans), at))
    ensures var w, goods := Walk(fmt, now, at), Goods(Walk(fmt, file, at).spans);
            Goods(w.spans) == goods && w.end == Footer && w.stop == EndOf(goods, at)
    decreases |file| - at, 0
  {
    hide Walk, Goods, Look, Undisturbed, Footed, Behind;
    var rest := Goods(Walk(fmt, file, To(g)).spans);
    FoundBehind(fmt, file, To(g));
    BehindEnd(rest, To(g), |file|);
    BehindFirst(g, rest, at, |file|);
    var c := EndOf(rest, To(g));
    FootedInside(fmt, file, now, at, c, To(g));
    LookSame(fmt, file, now, at, c, g);
    GoodsNext(fmt, now, at);
    WalkUnfolds(fmt, now, at);
    SealKeepsScan(fmt, file, now, To(g));
  }

  lemma BehindEnd(goods: seq<Span>, from: nat, to: nat)
    requires Behind(goods, from, to) && from <= to
    ensures from <= EndOf(goods, from) <= to
  {
  }
}
