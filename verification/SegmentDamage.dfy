/**
 Scanning past damage: what a search for the next record accepts, and what a scan gives back of a log with any
 number of unreadable stretches in it.
 */
module SegmentDamage {
  import opened Basics
  import opened SegmentScan
  import opened SegmentLog

  /** The bytes at `x`, taken as a length and what it covers, are neither a record's header nor a footer. */
  predicate Unframed(fmt: Format, file: seq<Byte>, x: nat) {
    x + 4 <= |file| ==>
      var n := U32(file[x..x + 4]);
      0 < n && x + 4 + n <= |file| ==>
        var bytes := file[x + 4..x + 4 + n];
        && (n <= 4096 ==> !fmt.footer(bytes))
        && match fmt.decode(bytes)
           case None => true
           case Some(h) => h.magic != MAGIC || fmt.crc(h) != h.checksum
  }

  ghost predicate AllUnframed(fmt: Format, file: seq<Byte>, from: nat, to: nat) {
    forall x :: from <= x < to ==> Unframed(fmt, file, x)
  }

  /** No reader takes such bytes for anything. */
  lemma UnframedUnread(fmt: Format, file: seq<Byte>, x: nat)
    requires Unframed(fmt, file, x)
    ensures ScanNext(fmt, file, x).None? && TryHeader(fmt, file, x).None? && !FooterAt(fmt, file, x)
  {
    if x + 4 <= |file| {
      var n := U32(file[x..x + 4]);
      if x + 4 + n <= |file| {
        SliceOfSlice(file, x, 4 + n, 0, 4);
        SliceOfSlice(file, x, 4 + n, 4, n);
      }
    }
  }

  lemma {:induction false} SearchSkips(fmt: Format, file: seq<Byte>, at: nat, to: nat)
    requires at <= to && AllUnframed(fmt, file, at, to)
    ensures Naive(fmt, file, at) == Naive(fmt, file, to)
  {
    forall x | at <= x < to
      ensures TryHeader(fmt, file, x).None?
    {
      UnframedUnread(fmt, file, x);
    }
    NaiveSkips(fmt, file, at, to);
  }

  /** A lower limit on header lengths only turns long headers away. */
  lemma HeaderLimited(fmt: Format, file: seq<Byte>, at: nat, limit: nat)
    requires limit <= MAX_HEADER_LEN && at + 4 <= |file|
    ensures HeaderAt(fmt, file, at, limit) ==
            if U32(file[at..at + 4]) <= limit then HeaderAt(fmt, file, at, MAX_HEADER_LEN) else None
  {
  }

  /** Encoded bytes that decode to this header, with its magic and its checksum. */
  predicate Header(fmt: Format, h: SegmentScan.Header, encoded: seq<Byte>) {
    0 < |encoded| <= MAX_HEADER_LEN && fmt.decode(encoded) == Some(h) && h.magic == MAGIC && fmt.crc(h) == h.checksum
  }

  /**
   What makes a reader take a header, exactly: a length that is not zero and within the record limit, and an end below
   4 GiB; and, for the search past damage, a header of at most 64 KiB and an end inside the file.
   */
  lemma HeaderTaken(fmt: Format, pre: seq<Byte>, h: SegmentScan.Header, encoded: seq<Byte>, post: seq<Byte>)
    requires Header(fmt, h, encoded)
    ensures var file := pre + (Le32(|encoded|) + encoded) + post;
            && ScanNext(fmt, file, |pre|) ==
               (if 0 < h.recordLen <= MAX_RECORD_LEN && |pre| + h.recordLen < U32_LIMIT then Some(h) else None)
            && TryHeader(fmt, file, |pre|) ==
               (if && 0 < h.recordLen <= MAX_RECORD_LEN && |pre| + h.recordLen < U32_LIMIT
                   && |encoded| <= RESYNC_MAX_HEADER_LEN && |pre| + h.recordLen <= |file| then Some(h) else None)
  {
    var le := Le32(|encoded|);
    var file := pre + (le + encoded) + post;
    HeaderParsed(fmt, pre, h, encoded, post);
    assert file == pre + le + (encoded + post);
    SliceOf(pre, le, encoded + post);
    HeaderLimited(fmt, file, |pre|, RESYNC_MAX_HEADER_LEN);
    hide HeaderAt, Le32, U32;
  }

  lemma HeaderParsed(fmt: Format, pre: seq<Byte>, h: SegmentScan.Header, encoded: seq<Byte>, post: seq<Byte>)
    requires Header(fmt, h, encoded)
    ensures HeaderAt(fmt, pre + (Le32(|encoded|) + encoded) + post, |pre|, MAX_HEADER_LEN) ==
            if 0 < h.recordLen <= MAX_RECORD_LEN then Some(h) else None
  {
    var front := Le32(|encoded|) + encoded;
    var file := pre + front + post;
    assert file == pre + Le32(|encoded|) + (encoded + post);
    SliceOf(pre, Le32(|encoded|), encoded + post);
    SliceOf(pre, front, post);
    assert front[..4] == Le32(|encoded|) && front[4..4 + |encoded|] == encoded;
  }

  /** A record's frame, at the very end of a file or not, is accepted if its header is short and it ends below 4 GiB. */
  lemma FrameTried(fmt: Format, pre: seq<Byte>, r: Rec, post: seq<Byte>)
    requires Sound(fmt, r)
    ensures TryHeader(fmt, pre + Framed(r) + post, |pre|) ==
            if |r.encoded| <= RESYNC_MAX_HEADER_LEN && |pre| + |Framed(r)| < U32_LIMIT then Some(r.header) else None
  {
    FramedSize(fmt, r);
    assert pre + Framed(r) + post == pre + (Le32(|r.encoded|) + r.encoded) + (r.payload + post);
    HeaderTaken(fmt, pre, r.header, r.encoded, r.payload + post);
    hide TryHeader, ScanNext, Framed, Le32;
  }

  /**
   A search that meets nothing on the way finds the record, at the end of the file or not, if and only if its header
   is at most 64 KiB and it ends below 4 GiB.
   */
  lemma SearchFinds(fmt: Format, pre: seq<Byte>, r: Rec, post: seq<Byte>, from: nat)
    requires Sound(fmt, r) && from <= |pre| && AllUnframed(fmt, pre + Framed(r) + post, from, |pre|)
    ensures var file := pre + Framed(r) + post;
            Naive(fmt, file, from) == Some(|pre|) <==>
            |r.encoded| <= RESYNC_MAX_HEADER_LEN && |pre| + |Framed(r)| < U32_LIMIT
  {
    var file := pre + Framed(r) + post;
    FramedSize(fmt, r);
    FrameTried(fmt, pre, r, post);
    hide TryHeader, Framed, AllUnframed;
    SearchSkips(fmt, file, from, |pre|);
  }

  lemma FramedSize(fmt: Format, r: Rec)
    requires Sound(fmt, r)
    ensures |Framed(r)| == r.header.recordLen > 0
  {
  }

  /** And the scan goes on with it. */
  lemma LookPast(fmt: Format, pre: seq<Byte>, bad: seq<Byte>, r: Rec, post: seq<Byte>)
    requires Sound(fmt, r) && |r.encoded| <= RESYNC_MAX_HEADER_LEN && |pre + bad| + |Framed(r)| < U32_LIMIT
    requires bad != [] && AllUnframed(fmt, pre + bad + Framed(r) + post, |pre|, |pre + bad|)
    ensures Look(fmt, pre + bad + Framed(r) + post, |pre|) == Later(r.header, |pre + bad|)
  {
    var file := pre + bad + Framed(r) + post;
    UnframedUnread(fmt, file, |pre|);
    SearchFinds(fmt, pre + bad, r, post, |pre| + 1);
    FrameTried(fmt, pre + bad, r, post);
    hide ScanNext, TryHeader, FooterAt, Naive, Framed, Sound;
  }

  // ---------------------------------------------------------------------------------------------
  // Any number of damaged stretches.
  // ---------------------------------------------------------------------------------------------

  /** A stretch that does not read, perhaps empty, and the records behind it. */
  datatype Piece = Piece(bad: seq<Byte>, records: seq<Rec>)

  predicate PieceOk(fmt: Format, p: Piece) {
    && (forall i :: 0 <= i < |p.records| ==> Sound(fmt, p.records[i]))
    && (p.bad != [] ==> p.records != [] && |p.records[0].encoded| <= RESYNC_MAX_HEADER_LEN)
  }

  ghost predicate PiecesOk(fmt: Format, ps: seq<Piece>) {
    forall i :: 0 <= i < |ps| ==> PieceOk(fmt, ps[i])
  }

  function Bytes(fmt: Format, ps: seq<Piece>): seq<Byte>
    requires PiecesOk(fmt, ps)
  {
    if ps == [] then [] else ps[0].bad + Log(fmt, ps[0].records) + Bytes(fmt, ps[1..])
  }

  /** Every stretch is reported as damage, and every record where it is. */
  function Reported(fmt: Format, ps: seq<Piece>, at: nat): seq<Span>
    requires PiecesOk(fmt, ps)
  {
    if ps == [] then []
    else
      var p := ps[0];
      (if p.bad == [] then [] else [Bad(at, at + |p.bad|)]) + Landed(p.records, at + |p.bad|)
      + Reported(fmt, ps[1..], at + |p.bad| + |Log(fmt, p.records)|)
  }

  /** Nothing in a damaged stretch happens to read as a header or a footer. */
  ghost predicate Quiescent(fmt: Format, file: seq<Byte>, ps: seq<Piece>, at: nat)
    requires PiecesOk(fmt, ps)
    decreases |ps|
  {
    ps == [] ||
    (&& AllUnframed(fmt, file, at, at + |ps[0].bad|)
     && Quiescent(fmt, file, ps[1..], at + |ps[0].bad| + |Log(fmt, ps[0].records)|))
  }

  /** Past one stretch, and on from the record behind it. */
  lemma WalkPast(fmt: Format, pre: seq<Byte>, bad: seq<Byte>, rs: seq<Rec>, post: seq<Byte>)
    requires AllSound(fmt, rs) && rs != [] && |rs[0].encoded| <= RESYNC_MAX_HEADER_LEN && bad != []
    requires |pre + bad| + |Log(fmt, rs)| < U32_LIMIT
    requires AllUnframed(fmt, pre + bad + Log(fmt, rs) + post, |pre|, |pre + bad|)
    ensures var file, at := pre + bad + Log(fmt, rs) + post, |pre + bad|;
            Walk(fmt, file, |pre|) ==
            After([Bad(|pre|, at)] + Landed(rs, at), Walk(fmt, file, at + |Log(fmt, rs)|))
  {
    hide Look, Walk, After, AllUnframed;
    var first, rest := Framed(rs[0]), Log(fmt, rs[1..]);
    var front, at := pre + bad, |pre + bad|;
    var file := front + Log(fmt, rs) + post;
    Regroup(front, first, rest, post);
    FramedSize(fmt, rs[0]);
    LookPast(fmt, pre, bad, rs[0], rest + post);
    WalkUnfolds(fmt, file, |pre|);
    WalkRecords(fmt, front + first, rs[1..], post);
    var w := Walk(fmt, file, at + |Log(fmt, rs)|);
    AfterApp([Bad(|pre|, at), Good(rs[0].header, at)], Landed(rs[1..], at + |first|), w);
    assert [Bad(|pre|, at), Good(rs[0].header, at)] + Landed(rs[1..], at + |first|) ==
           [Bad(|pre|, at)] + ([Good(rs[0].header, at)] + Landed(rs[1..], at + |first|));
  }

  /** One piece, damaged or not. */
  lemma WalkPiece(fmt: Format, pre: seq<Byte>, p: Piece, post: seq<Byte>)
    requires PieceOk(fmt, p) && |pre + p.bad| + |Log(fmt, p.records)| < U32_LIMIT
    requires AllUnframed(fmt, pre + (p.bad + Log(fmt, p.records)) + post, |pre|, |pre| + |p.bad|)
    ensures var file, at := pre + (p.bad + Log(fmt, p.records)) + post, |pre| + |p.bad|;
            Walk(fmt, file, |pre|) ==
            After((if p.bad == [] then [] else [Bad(|pre|, at)]) + Landed(p.records, at),
                  Walk(fmt, file, at + |Log(fmt, p.records)|))
  {
    hide Walk, After, AllUnframed, Log, Landed;
    var log := Log(fmt, p.records);
    assert pre + (p.bad + log) + post == pre + p.bad + log + post;
    if p.bad == [] {
      assert pre + p.bad == pre && [] + Landed(p.records, |pre|) == Landed(p.records, |pre|);
      WalkRecords(fmt, pre, p.records, post);
    } else {
      WalkPast(fmt, pre, p.bad, p.records, post);
    }
  }

  lemma {:induction false} WalkPieces(fmt: Format, pre: seq<Byte>, ps: seq<Piece>, post: seq<Byte>)
    requires PiecesOk(fmt, ps) && |pre| + |Bytes(fmt, ps)| < U32_LIMIT
    requires Quiescent(fmt, pre + Bytes(fmt, ps) + post, ps, |pre|)
    ensures var file := pre + Bytes(fmt, ps) + post;
            Walk(fmt, file, |pre|) == After(Reported(fmt, ps, |pre|), Walk(fmt, file, |pre| + |Bytes(fmt, ps)|))
    decreases |ps|
  {
    hide Walk, After, AllUnframed, Log, Landed, PieceOk;
    var file := pre + Bytes(fmt, ps) + post;
    if ps == [] {
      AfterNothing(Walk(fmt, file, |pre|));
    } else {
      var p, rest := ps[0], Bytes(fmt, ps[1..]);
      LogFits(fmt, p);
      var mine := p.bad + Log(fmt, p.records);
      Regroup(pre, mine, rest, post);
      WalkPiece(fmt, pre, p, rest + post);
      WalkPieces(fmt, pre + mine, ps[1..], post);
      var at := |pre| + |p.bad|;
      var spans := (if p.bad == [] then [] else [Bad(|pre|, at)]) + Landed(p.records, at);
      AfterApp(spans, Reported(fmt, ps[1..], at + |Log(fmt, p.records)|), Walk(fmt, file, |pre| + |Bytes(fmt, ps)|));
    }
  }

  lemma LogFits(fmt: Format, p: Piece)
    requires PieceOk(fmt, p)
    ensures AllSound(fmt, p.records)
  {
  }

  /**
   An open segment with any number of damaged stretches, each with a record behind it and nothing in it that reads
   as one: the scan reports each stretch as damage and gives back every record, where it was put.
   */
  lemma ScanDamaged(fmt: Format, page: seq<Byte>, ps: seq<Piece>)
    requires |page| == PAGE && PiecesOk(fmt, ps) && PAGE + |Bytes(fmt, ps)| < U32_LIMIT
    requires Quiescent(fmt, page + Bytes(fmt, ps), ps, PAGE)
    ensures var file := page + Bytes(fmt, ps);
            Walk(fmt, file, PAGE) == Walked(Reported(fmt, ps, PAGE), Eof, |file|)
  {
    hide Walk, After, Quiescent, Bytes, Reported;
    var file := page + Bytes(fmt, ps);
    assert file + [] == file;
    WalkPieces(fmt, page, ps, []);
    WalkUnfolds(fmt, file, |file|);
    AfterNothing(Walk(fmt, file, |file|));
  }

  /** So is a sealed one, up to its footer, whatever lies behind that. */
  lemma ScanDamagedSealed(fmt: Format, page: seq<Byte>, ps: seq<Piece>, footer: seq<Byte>, behind: seq<Byte>)
    requires |page| == PAGE && PiecesOk(fmt, ps) && PAGE + |Bytes(fmt, ps)| < U32_LIMIT && IsFooter(fmt, footer)
    requires Quiescent(fmt, page + Bytes(fmt, ps) + (Le32(|footer|) + footer + behind), ps, PAGE)
    ensures var file := page + Bytes(fmt, ps) + (Le32(|footer|) + footer + behind);
            Walk(fmt, file, PAGE) == Walked(Reported(fmt, ps, PAGE), Footer, PAGE + |Bytes(fmt, ps)|)
  {
    hide Walk, After, Quiescent, Bytes, Reported, ScanNext, FooterAt, Naive;
    var body, post := page + Bytes(fmt, ps), Le32(|footer|) + footer + behind;
    WalkPieces(fmt, page, ps, post);
    FooterFound(fmt, body, footer, behind);
    WalkUnfolds(fmt, body + post, |body|);
    AfterNothing(Walk(fmt, body + post, |body|));
  }

  /** Damage with no record behind it ends the scan, and is reported as such. */
  lemma ScanTail(fmt: Format, file: seq<Byte>, at: nat)
    requires at < |file| && AllUnframed(fmt, file, at, |file|)
    ensures Walk(fmt, file, at) == Walked([Bad(at, |file| % U32_LIMIT)], Damaged(at), |file|)
  {
    UnframedUnread(fmt, file, at);
    SearchSkips(fmt, file, at + 1, |file|);
    WalkUnfolds(fmt, file, at);
    hide Walk, ScanNext, TryHeader, FooterAt;
  }
}
