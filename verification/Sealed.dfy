/**
 Sealed records: a record's content and its own header, padded and encrypted, behind an outer header that is
 bound into the encryption.

 Serialisation and the authenticated encryption are given by a `Library`, with what is asked of them.
 */
module Sealed {
  import opened Basics
  import opened Padme

  const SEALED_FLAG: nat := 0x8000
  const MAX_RECORD_LEN: nat := 512 * 1024 * 1024
  const OVERHEAD: nat := 40

  datatype Kind = SealedKind | Plain(kind: nat)

  datatype Outer = Outer(recordLen: Word32, hash: nat, kind: Kind, codec: nat, flags: nat, uncompressedLen: Word32,
                         compressedLen: Word32, backpointers: seq<nat>, checksum: Word32)

  datatype Inner = Inner(kind: Kind, codec: nat, uncompressedLen: Word32, payloadLen: Word32, backpointers: seq<nat>)

  /** An inner header read from the front of some bytes, and how many it took. */
  datatype Decoded = Decoded(header: Inner, len: nat)

  datatype Opened = Opened(kind: Kind, codec: nat, uncompressedLen: Word32, backpointers: seq<nat>, payload: seq<Byte>,
                           epoch: nat)

  datatype Error =
    | BelowMinimum | SealedKindInPlain | NotLaidOutSealed | UnknownEpoch | KeyRequired | Authentication
    | TooLarge | Undecodable | NestedSealed | OutOfBounds

  datatype Library = Library(
    encode: Outer -> seq<Byte>,
    checksum: Outer -> Word32,
    encodeInner: Inner -> seq<Byte>,
    decodeInner: seq<Byte> -> Option<Decoded>,
    box: (nat, seq<Byte>, seq<Byte>) -> seq<Byte>,
    unbox: (nat, seq<Byte>, seq<Byte>) -> Option<seq<Byte>>)

  /**
   Headers are told apart by their encoding, whose length does not depend on the numbers in it; the checksum is of
   everything else; an inner header is decoded from the front of whatever begins with it; a box is longer by its
   overhead and opens to what was put in.
   */
  ghost predicate Lawful(l: Library) {
    && (forall a, b :: l.encode(a) == l.encode(b) ==> a == b)
    && (forall h: Outer, n, c :: |l.encode(h.(recordLen := n, checksum := c))| == |l.encode(h)|)
    && (forall h: Outer, c :: l.checksum(h.(checksum := c)) == l.checksum(h))
    && (forall k, a, p :: |l.box(k, a, p)| == |p| + OVERHEAD)
    && (forall h, rest :: l.decodeInner(l.encodeInner(h) + rest) == Some(Decoded(h, |l.encodeInner(h)|)))
    && (forall k, a, p :: l.unbox(k, a, l.box(k, a, p)) == Some(p))
  }

  datatype Crypto = Crypto(uuid: seq<Byte>, minEpoch: nat, padme: bool, keys: map<nat, nat>)

  function MaxInnerLen(): nat {
    PaddedLen(MAX_RECORD_LEN + 1024 * 1024)
  }

  function RecordEpoch(h: Outer): nat {
    if h.flags / SEALED_FLAG % 2 == 1 then h.flags % SEALED_FLAG else PLAINTEXT
  }

  /** A length as the header carries it. */
  function Short(n: nat): Word32 {
    n % U32_LIMIT
  }

  /** The outer header of a sealed record, from its hash, epoch and envelope length. */
  function SealedHeader(l: Library, hash: nat, epoch: nat, envelopeLen: nat): Outer {
    var n := Short(envelopeLen);
    var h := Outer(0, hash, SealedKind, 0, SEALED_FLAG + epoch, n, n, [], 0);
    var sized := h.(recordLen := Short(4 + |l.encode(h)| + n));
    sized.(checksum := l.checksum(sized))
  }

  const AAD_PREFIX: seq<Byte> := [108, 99, 104, 102, 115, 45, 114, 101, 99, 111, 114, 100, 45, 118, 49]

  function Aad(l: Library, uuid: seq<Byte>, h: Outer): seq<Byte> {
    AAD_PREFIX + uuid + l.encode(h.(checksum := 0))
  }

  function Zeroes(n: nat): seq<Byte> {
    seq(n, _ => 0)
  }

  /** The bytes that are encrypted: inner header, payload, padding. */
  function InnerBytes(l: Library, padme: bool, h: Inner, payload: seq<Byte>): seq<Byte> {
    var bytes := l.encodeInner(h) + payload;
    if padme then bytes + Zeroes(PaddedLen(|bytes|) - |bytes|) else bytes
  }

  function Seal(l: Library, c: Crypto, epoch: nat, kind: Kind, hash: nat, codec: nat, uncompressedLen: Word32,
                payload: seq<Byte>, backpointers: seq<nat>): (Outer, seq<Byte>)
    requires epoch in c.keys
  {
    var inner := InnerBytes(l, c.padme, Inner(kind, codec, uncompressedLen, Short(|payload|), backpointers), payload);
    var header := SealedHeader(l, hash, epoch, |inner| + OVERHEAD);
    (header, l.box(c.keys[epoch], Aad(l, c.uuid, header), inner))
  }

  function Open(l: Library, c: Crypto, h: Outer, payload: seq<Byte>): Result<Opened, Error> {
    var epoch := RecordEpoch(h);
    if epoch < c.minEpoch then Err(BelowMinimum)
    else if epoch == PLAINTEXT then
      if h.kind.SealedKind? then Err(SealedKindInPlain)
      else Ok(Opened(h.kind, h.codec, h.uncompressedLen, h.backpointers, payload, epoch))
    else if !h.kind.SealedKind? || h.codec != 0 || h.backpointers != [] then Err(NotLaidOutSealed)
    else if epoch !in c.keys then Err(if c.keys != map[] then UnknownEpoch else KeyRequired)
    else
      match l.unbox(c.keys[epoch], Aad(l, c.uuid, h), payload)
      case None => Err(Authentication)
      case Some(inner) => OpenInner(l, inner, epoch)
  }

  function OpenInner(l: Library, inner: seq<Byte>, epoch: nat): Result<Opened, Error> {
    if |inner| > MaxInnerLen() then Err(TooLarge)
    else
      match l.decodeInner(inner)
      case None => Err(Undecodable)
      case Some(Decoded(h, start)) =>
        if h.kind.SealedKind? then Err(NestedSealed)
        else if start + h.payloadLen > |inner| then Err(OutOfBounds)
        else Ok(Opened(h.kind, h.codec, h.uncompressedLen, h.backpointers, inner[start..start + h.payloadLen], epoch))
  }

  /** Padding never takes a record over the limit: it fits padded exactly if it fits as it is. */
  lemma FitsEitherWay(n: nat)
    ensures PaddedLen(n) <= MaxInnerLen() <==> n <= MaxInnerLen()
  {
    if n <= MaxInnerLen() {
      Monotone(n, MaxInnerLen());
      Idempotent(MAX_RECORD_LEN + 1024 * 1024);
    }
  }

  lemma LimitIsShort()
    ensures MaxInnerLen() < U32_LIMIT
  {
    AtMostTwelvePercent(MAX_RECORD_LEN + 1024 * 1024);
  }

  lemma EpochOf(l: Library, hash: nat, epoch: nat, len: nat)
    requires epoch <= MAX_EPOCH
    ensures RecordEpoch(SealedHeader(l, hash, epoch, len)) == epoch
  {
  }

  /** What is sealed decodes to its header and its payload, whatever padding follows. */
  lemma InnerOpens(l: Library, padme: bool, h: Inner, payload: seq<Byte>, epoch: nat)
    requires Lawful(l) && h.payloadLen == Short(|payload|) && !h.kind.SealedKind?
    ensures OpenInner(l, InnerBytes(l, padme, h, payload), epoch) ==
            if |l.encodeInner(h)| + |payload| <= MaxInnerLen()
            then Ok(Opened(h.kind, h.codec, h.uncompressedLen, h.backpointers, payload, epoch)) else Err(TooLarge)
  {
    LimitIsShort();
    hide Lawful, PaddedLen, MaxInnerLen, InnerBytes;
    var front, inner := l.encodeInner(h), InnerBytes(l, padme, h, payload);
    FitsEitherWay(|front| + |payload|);
    var pad := Padding(l, padme, h, payload);
    DecodeFront(l, h, payload + pad);
    SliceAfter(front, payload, pad);
  }

  lemma Padding(l: Library, padme: bool, h: Inner, payload: seq<Byte>) returns (pad: seq<Byte>)
    ensures InnerBytes(l, padme, h, payload) == l.encodeInner(h) + (payload + pad)
    ensures var n := |l.encodeInner(h)| + |payload|; n + |pad| == if padme then PaddedLen(n) else n
  {
    hide PaddedLen;
    var bytes := l.encodeInner(h) + payload;
    pad := if padme then Zeroes(PaddedLen(|bytes|) - |bytes|) else [];
    assert bytes + pad == l.encodeInner(h) + (payload + pad);
    assert bytes + [] == bytes;
  }

  lemma DecodeFront(l: Library, h: Inner, rest: seq<Byte>)
    requires Lawful(l)
    ensures l.decodeInner(l.encodeInner(h) + rest) == Some(Decoded(h, |l.encodeInner(h)|))
  {
  }

  lemma SliceAfter(front: seq<Byte>, mid: seq<Byte>, back: seq<Byte>)
    ensures (front + (mid + back))[|front|..|front| + |mid|] == mid
  {
  }

  /**
   Opening what was sealed gives back the same record, under either padding, exactly when its inner header and
   payload together are within the limit; otherwise the record can never be read again.
   */
  lemma OpenOfSeal(l: Library, c: Crypto, epoch: nat, kind: Kind, hash: nat, codec: nat, uncompressedLen: Word32,
                   payload: seq<Byte>, backpointers: seq<nat>)
    requires Lawful(l) && epoch in c.keys && 0 < epoch <= MAX_EPOCH && c.minEpoch <= epoch && !kind.SealedKind?
    ensures var (header, envelope) := Seal(l, c, epoch, kind, hash, codec, uncompressedLen, payload, backpointers);
            var inner := Inner(kind, codec, uncompressedLen, Short(|payload|), backpointers);
            Open(l, c, header, envelope) ==
            if |l.encodeInner(inner)| + |payload| <= MaxInnerLen()
            then Ok(Opened(kind, codec, uncompressedLen, backpointers, payload, epoch)) else Err(TooLarge)
  {
    var inner := Inner(kind, codec, uncompressedLen, Short(|payload|), backpointers);
    var bytes := InnerBytes(l, c.padme, inner, payload);
    InnerOpens(l, c.padme, inner, payload, epoch);
    EpochOf(l, hash, epoch, |bytes| + OVERHEAD);
    hide InnerBytes, OpenInner, RecordEpoch, MaxInnerLen, PaddedLen;
  }

  /** Every payload up to the record limit, with an inner header up to 1 MiB, comes back. */
  lemma OrdinaryRecordsOpen(l: Library, c: Crypto, epoch: nat, kind: Kind, hash: nat, codec: nat,
                            uncompressedLen: Word32, payload: seq<Byte>, backpointers: seq<nat>)
    requires Lawful(l) && epoch in c.keys && 0 < epoch <= MAX_EPOCH && c.minEpoch <= epoch && !kind.SealedKind?
    requires |payload| <= MAX_RECORD_LEN
    requires |l.encodeInner(Inner(kind, codec, uncompressedLen, Short(|payload|), backpointers))| <= 1024 * 1024
    ensures var (header, envelope) := Seal(l, c, epoch, kind, hash, codec, uncompressedLen, payload, backpointers);
            Open(l, c, header, envelope) == Ok(Opened(kind, codec, uncompressedLen, backpointers, payload, epoch))
  {
    OpenOfSeal(l, c, epoch, kind, hash, codec, uncompressedLen, payload, backpointers);
    hide Open, Seal, Lawful;
    assert MaxInnerLen() >= MAX_RECORD_LEN + 1024 * 1024;
  }

  // ---------------------------------------------------------------------------------------------
  // The record a seal makes.
  // ---------------------------------------------------------------------------------------------

  /**
   A sealed record below 4 GiB is framed as a segment writer and a scan want it: its length is that of prefix, header
   and envelope, its checksum is its own, and nothing of the content shows in the header but the hash and the epoch.
   */
  lemma SealFrames(l: Library, c: Crypto, epoch: nat, kind: Kind, hash: nat, codec: nat, uncompressedLen: Word32,
                   payload: seq<Byte>, backpointers: seq<nat>)
    requires Lawful(l) && epoch in c.keys && 0 < epoch <= MAX_EPOCH
    ensures var (h, envelope) := Seal(l, c, epoch, kind, hash, codec, uncompressedLen, payload, backpointers);
            && h.checksum == l.checksum(h)
            && h.hash == hash && RecordEpoch(h) == epoch && h.kind == SealedKind && h.codec == 0 && h.backpointers == []
            && (4 + |l.encode(h)| + |envelope| < U32_LIMIT ==>
                  h.recordLen == 4 + |l.encode(h)| + |envelope| && h.uncompressedLen == h.compressedLen == |envelope|)
  {
    var inner := InnerBytes(l, c.padme, Inner(kind, codec, uncompressedLen, Short(|payload|), backpointers), payload);
    var n := |inner| + OVERHEAD;
    EpochOf(l, hash, epoch, n);
    HeaderFrames(l, hash, epoch, n);
    hide InnerBytes, RecordEpoch;
    assert |l.box(c.keys[epoch], Aad(l, c.uuid, SealedHeader(l, hash, epoch, n)), inner)| == n;
  }

  /** How long an envelope is: under padding, no more of the content's length shows than the padding leaves. */
  lemma EnvelopeLength(l: Library, c: Crypto, epoch: nat, kind: Kind, hash: nat, codec: nat, uncompressedLen: Word32,
                       payload: seq<Byte>, backpointers: seq<nat>)
    requires Lawful(l) && epoch in c.keys
    ensures var (h, envelope) := Seal(l, c, epoch, kind, hash, codec, uncompressedLen, payload, backpointers);
            var inner := Inner(kind, codec, uncompressedLen, Short(|payload|), backpointers);
            var n := |l.encodeInner(inner)| + |payload|;
            |envelope| == OVERHEAD + if c.padme then PaddedLen(n) else n
  {
    var h := Inner(kind, codec, uncompressedLen, Short(|payload|), backpointers);
    var pad := Padding(l, c.padme, h, payload);
    hide InnerBytes, PaddedLen, SealedHeader;
    var inner := InnerBytes(l, c.padme, h, payload);
    var header := SealedHeader(l, hash, epoch, |inner| + OVERHEAD);
    assert |l.box(c.keys[epoch], Aad(l, c.uuid, header), inner)| == |inner| + OVERHEAD;
  }

  /** A header without the flag is a plaintext one, whatever else its flags say. */
  lemma PlainEpoch(h: Outer)
    requires h.flags < SEALED_FLAG
    ensures RecordEpoch(h) == PLAINTEXT
  {
  }

  lemma HeaderFrames(l: Library, hash: nat, epoch: nat, n: nat)
    requires Lawful(l)
    ensures var h := SealedHeader(l, hash, epoch, n);
            && h.checksum == l.checksum(h)
            && h.hash == hash && h.kind == SealedKind && h.codec == 0 && h.backpointers == []
            && (4 + |l.encode(h)| + n < U32_LIMIT ==>
                  h.recordLen == 4 + |l.encode(h)| + n && h.uncompressedLen == h.compressedLen == n)
  {
    var h := Outer(0, hash, SealedKind, 0, SEALED_FLAG + epoch, Short(n), Short(n), [], 0);
    var sized := h.(recordLen := Short(4 + |l.encode(h)| + Short(n)));
    assert |l.encode(h.(recordLen := sized.recordLen, checksum := l.checksum(sized)))| == |l.encode(h)|;
    assert l.checksum(sized.(checksum := l.checksum(sized))) == l.checksum(sized);
  }

  // ---------------------------------------------------------------------------------------------
  // What does not open.
  // ---------------------------------------------------------------------------------------------

  /** A sealed record's outer header, laid out as one. */
  predicate LaidOut(h: Outer) {
    h.kind.SealedKind? && h.codec == 0 && h.backpointers == []
  }

  /** Why a record is refused before its envelope is looked at, each reason exactly. */
  lemma RefusedOutside(l: Library, c: Crypto, h: Outer, payload: seq<Byte>)
    ensures var r, epoch := Open(l, c, h, payload), RecordEpoch(h);
            && (r == Err(BelowMinimum) <==> epoch < c.minEpoch)
            && (r == Err(SealedKindInPlain) <==> c.minEpoch == epoch == PLAINTEXT && h.kind.SealedKind?)
            && (r == Err(NotLaidOutSealed) <==> epoch >= c.minEpoch && epoch > PLAINTEXT && !LaidOut(h))
            && (r == Err(UnknownEpoch) <==>
                  epoch >= c.minEpoch && epoch > PLAINTEXT && LaidOut(h) && epoch !in c.keys && c.keys != map[])
            && (r == Err(KeyRequired) <==>
                  epoch >= c.minEpoch && epoch > PLAINTEXT && LaidOut(h) && c.keys == map[])
            && (r == Err(Authentication) <==>
                  && epoch >= c.minEpoch && epoch > PLAINTEXT && LaidOut(h) && epoch in c.keys
                  && l.unbox(c.keys[epoch], Aad(l, c.uuid, h), payload).None?)
  {
    hide RecordEpoch, Aad;
    var epoch := RecordEpoch(h);
    if epoch >= c.minEpoch && epoch > PLAINTEXT && LaidOut(h) && epoch in c.keys {
      var inner := l.unbox(c.keys[epoch], Aad(l, c.uuid, h), payload);
      if inner.Some? {
        InsideOnly(l, inner.value, epoch);
      }
    }
  }

  /** Why one that authenticates is refused for what is inside it. */
  lemma InsideOnly(l: Library, inner: seq<Byte>, epoch: nat)
    ensures var r := OpenInner(l, inner, epoch);
            && (r.Err? ==> r.error in {TooLarge, Undecodable, NestedSealed, OutOfBounds})
            && (r == Err(TooLarge) <==> |inner| > MaxInnerLen())
            && (r == Err(NestedSealed) <==>
                  && |inner| <= MaxInnerLen() && l.decodeInner(inner).Some?
                  && l.decodeInner(inner).value.header.kind.SealedKind?)
            && (r.Ok? ==> !r.value.kind.SealedKind? && r.value.epoch == epoch)
  {
    hide MaxInnerLen;
  }

  /**
   An envelope put behind another header than the one it was sealed for, or taken to another pool, opens only if the
   encryption accepts it for associated data it was not made for: that is what binds the header.
   */
  lemma SwappedHeader(l: Library, c: Crypto, epoch: nat, kind: Kind, hash: nat, codec: nat, uncompressedLen: Word32,
                      payload: seq<Byte>, backpointers: seq<nat>, d: Crypto, g: Outer)
    requires Lawful(l) && epoch in c.keys && |c.uuid| == |d.uuid| == 16 && RecordEpoch(g) > PLAINTEXT
    requires var (h, envelope) := Seal(l, c, epoch, kind, hash, codec, uncompressedLen, payload, backpointers);
             (d.uuid != c.uuid || g.(checksum := 0) != h.(checksum := 0)) && Open(l, d, g, envelope).Ok?
    ensures RecordEpoch(g) in d.keys
    ensures var (h, envelope) := Seal(l, c, epoch, kind, hash, codec, uncompressedLen, payload, backpointers);
            exists a :: a != Aad(l, c.uuid, h) && l.unbox(d.keys[RecordEpoch(g)], a, envelope).Some?
  {
    var (h, envelope) := Seal(l, c, epoch, kind, hash, codec, uncompressedLen, payload, backpointers);
    RefusedOutside(l, d, g, envelope);
    if Aad(l, d.uuid, g) == Aad(l, c.uuid, h) {
      AadInjective(l, d.uuid, g, c.uuid, h);
    }
    hide Open, RecordEpoch, Seal, Lawful, Aad;
    assert l.unbox(d.keys[RecordEpoch(g)], Aad(l, d.uuid, g), envelope).Some?;
  }

  /** The associated data tells any two outer headers, and any two pools, apart, but for the checksum. */
  lemma AadInjective(l: Library, u: seq<Byte>, h: Outer, v: seq<Byte>, g: Outer)
    requires Lawful(l) && |u| == |v| == 16 && Aad(l, u, h) == Aad(l, v, g)
    ensures u == v && h.(checksum := 0) == g.(checksum := 0)
  {
    var a, b := Aad(l, u, h), Aad(l, v, g);
    var n := |AAD_PREFIX|;
    assert u == a[n..n + 16] && v == b[n..n + 16];
    assert l.encode(h.(checksum := 0)) == a[n + 16..] && l.encode(g.(checksum := 0)) == b[n + 16..];
  }
}
