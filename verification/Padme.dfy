/**
 Padmé padding (section 4 of "Reducing Metadata Leakage from Encrypted Files and Communication with PURBs",
 PETS 2019): a length rounded up to the few leading bits that are kept of it.
 */
module Padme {
  import opened Arithmetic

  function Pow2(n: nat): (p: nat)
    ensures p > 0
  {
    if n == 0 then 1 else 2 * Pow2(n - 1)
  }

  /** The place of the highest bit set. */
  function Log2(n: nat): (e: nat)
    requires n > 0
    ensures Pow2(e) <= n < 2 * Pow2(e)
  {
    if n < 2 then 0 else 1 + Log2(n / 2)
  }

  /** Low bits given up for lengths with highest bit `e`: all but the top `floor(log2 e) + 1` below it. */
  function LastBits(e: nat): (b: nat)
    requires e > 0
    ensures b < e
  {
    LogSmall(e);
    e - (Log2(e) + 1)
  }

  lemma {:induction false} LogSmall(e: nat)
    requires e > 0
    ensures Log2(e) < e
  {
    if e >= 2 {
      LogSmall(e / 2);
    }
  }

  /** How many units cover `len`. */
  function Units(len: nat, unit: nat): nat
    requires unit > 0
  {
    (len + (unit - 1)) / unit
  }

  /** `len + mask` with its low bits cleared, where `mask` is `unit - 1`. */
  function RoundUp(len: nat, unit: nat): (r: nat)
    requires unit > 0
    ensures len <= r < len + unit && r == len + (unit - 1) - (len + (unit - 1)) % unit
  {
    Split(len + (unit - 1), unit);
    Units(len, unit) * unit
  }

  function PaddedLen(len: nat): (p: nat)
    ensures p >= len
  {
    if len < 2 then len else RoundUp(len, Pow2(LastBits(Log2(len))))
  }

  // ---------------------------------------------------------------------------------------------
  // Powers of two.
  // ---------------------------------------------------------------------------------------------

  lemma {:induction false} PowSum(a: nat, b: nat)
    ensures Pow2(a + b) == Pow2(a) * Pow2(b)
  {
    if a > 0 {
      PowSum(a - 1, b);
      assert a + b - 1 == a - 1 + b;
      assert 2 * (Pow2(a - 1) * Pow2(b)) == (2 * Pow2(a - 1)) * Pow2(b);
    }
  }

  lemma {:induction false} PowMono(a: nat, b: nat)
    requires a <= b
    ensures Pow2(a) <= Pow2(b)
  {
    if a < b {
      PowMono(a, b - 1);
    }
  }

  lemma {:induction false} LogUnique(n: nat, e: nat)
    requires n > 0 && Pow2(e) <= n < 2 * Pow2(e)
    ensures Log2(n) == e
  {
    if Log2(n) < e {
      PowMono(Log2(n) + 1, e);
    } else if Log2(n) > e {
      PowMono(e + 1, Log2(n));
    }
  }

  lemma LogMono(a: nat, b: nat)
    requires 0 < a <= b
    ensures Log2(a) <= Log2(b)
  {
    if Log2(a) > Log2(b) {
      PowMono(Log2(b) + 1, Log2(a));
    }
  }

  function Unit(e: nat): (u: nat)
    requires e > 0
    ensures u > 0
  {
    Pow2(LastBits(e))
  }

  /** An octave begins at this many units, and ends at twice as many. */
  function Steps(e: nat): (k: nat)
    requires e > 0
    ensures k > 0
  {
    Pow2(Log2(e) + 1)
  }

  lemma PowSplit(a: nat, b: nat, e: nat)
    requires a + b == e
    ensures Pow2(e) == Pow2(a) * Pow2(b)
  {
    hide Pow2;
    PowSum(a, b);
  }

  lemma OctaveIs(e: nat)
    requires e > 0
    ensures Pow2(e) == Steps(e) * Unit(e)
  {
    hide Pow2, Log2;
    PowSplit(Log2(e) + 1, LastBits(e), e);
  }

  lemma OctaveInUnits(e: nat)
    requires e > 0
    ensures Pow2(e) == Steps(e) * Unit(e) && 2 * Pow2(e) == (2 * Steps(e)) * Unit(e)
  {
    hide Pow2, Steps, Unit;
    OctaveIs(e);
    Twice(Steps(e), Unit(e));
  }

  lemma Twice(k: nat, u: nat)
    ensures 2 * (k * u) == (2 * k) * u
  {
  }

  // ---------------------------------------------------------------------------------------------
  // Rounding up.
  // ---------------------------------------------------------------------------------------------

  /** The fewest units that cover. */
  lemma FewestUnits(len: nat, unit: nat, m: nat)
    requires unit > 0 && len <= m * unit
    ensures Units(len, unit) <= m
  {
    var q := Units(len, unit);
    Split(len + (unit - 1), unit);
    assert (m + 1) * unit == m * unit + unit;
    if q > m {
      MulMono(m + 1, q, unit);
    }
  }

  lemma Between(len: nat, u: nat, k: nat)
    requires u > 0 && k * u <= len <= (2 * k) * u
    ensures k <= Units(len, u) <= 2 * k
  {
    FewestUnits(len, u, 2 * k);
    var q, r := Units(len, u), RoundUp(len, u);
    if q < k {
      MulMono(q, k, u);
      assert q * u == k * u;
      NoMore(q, k, u);
    }
  }

  lemma NoMore(q: nat, k: nat, u: nat)
    requires u > 0 && q * u == k * u
    ensures q == k
  {
    SplitUnique(q, 0, u);
    SplitUnique(k, 0, u);
  }

  lemma RoundFixed(m: nat, unit: nat)
    requires unit > 0
    ensures RoundUp(m * unit, unit) == m * unit
  {
    FewestUnits(m * unit, unit, m);
    MulMono(Units(m * unit, unit), m, unit);
  }

  /** A padded length is a whole number of its octave's units, and within the octave or at its end. */
  lemma PaddedIs(len: nat)
    requires len >= 2
    ensures var e, q := Log2(len), Units(len, Unit(Log2(len)));
            PaddedLen(len) == q * Unit(e) && len <= q * Unit(e) < len + Unit(e) && Steps(e) <= q <= 2 * Steps(e)
  {
    var e := Log2(len);
    OctaveInUnits(e);
    Between(len, Unit(e), Steps(e));
  }

  // ---------------------------------------------------------------------------------------------
  // What padding promises.
  // ---------------------------------------------------------------------------------------------

  /** Longer never pads to less. */
  lemma Monotone(a: nat, b: nat)
    requires a <= b
    ensures PaddedLen(a) <= PaddedLen(b)
  {
    if a >= 2 {
      LogMono(a, b);
      PaddedIs(a);
      PaddedIs(b);
      var e, f := Log2(a), Log2(b);
      hide Pow2, Log2, PaddedLen, Units, LastBits;
      if e == f {
        FewestUnits(a, Unit(e), Units(b, Unit(e)));
        MulMono(Units(a, Unit(e)), Units(b, Unit(e)), Unit(e));
      } else {
        PowStep(e, f);
        OctaveInUnits(e);
        MulMono(Units(a, Unit(e)), 2 * Steps(e), Unit(e));
      }
    }
  }

  lemma PowStep(e: nat, f: nat)
    requires e < f
    ensures 2 * Pow2(e) <= Pow2(f)
  {
    PowMono(e + 1, f);
  }

  /** A padded length is its own padding. */
  lemma Idempotent(len: nat)
    ensures PaddedLen(PaddedLen(len)) == PaddedLen(len)
  {
    if len >= 2 {
      var e, p := Log2(len), PaddedLen(len);
      var u, q, k := Unit(e), Units(len, Unit(e)), Steps(e);
      PaddedIs(len);
      OctaveInUnits(e);
      MulMono(k, q, u);
      MulMono(q, 2 * k, u);
      if p < 2 * Pow2(e) {
        LogUnique(p, e);
        RoundFixed(q, u);
      } else {
        LogUnique(p, e + 1);
        OctaveInUnits(e + 1);
        RoundFixed(Steps(e + 1), Unit(e + 1));
      }
    }
  }

  /** At most 12% is added, whatever the length. */
  lemma AtMostTwelvePercent(len: nat)
    ensures 100 * (PaddedLen(len) - len) <= 12 * len
  {
    if len >= 2 {
      var e := Log2(len);
      PaddedIs(len);
      OctaveInUnits(e);
      if len == Pow2(e) {
        RoundFixed(Steps(e), Unit(e));
      } else if e >= 8 {
        EightUp(e);
        SixteenTimes(Steps(e), Unit(e));
      } else {
        SmallOctave(e);
      }
    }
  }

  lemma EightUp(e: nat)
    requires e >= 8
    ensures Steps(e) >= 16
  {
    LogMono(8, e);
    LogUnique(8, 3);
    PowMono(4, Log2(e) + 1);
  }

  lemma SixteenTimes(k: nat, u: nat)
    requires k >= 16
    ensures k * u >= 16 * u
  {
  }

  /** The octaves below 256: at most 2^e / 8 is given up, and nothing at 2^e itself. */
  lemma SmallOctave(e: nat)
    requires 0 < e < 8
    ensures 25 * (Pow2(LastBits(e)) - 1) <= 3 * (Pow2(e) + 1)
  {
    match e
    case 1 => LogUnique(1, 0);
    case 2 => LogUnique(2, 1);
    case 3 => LogUnique(3, 1);
    case 4 => LogUnique(4, 2);
    case 5 => LogUnique(5, 2);
    case 6 => LogUnique(6, 2);
    case 7 => LogUnique(7, 2);
  }

  /** Some length with highest bit `e` pads to `p`. */
  ghost predicate InOctave(e: nat, p: nat) {
    exists len :: Pow2(e) <= len < 2 * Pow2(e) && PaddedLen(len) == p
  }

  function Times(q: nat, u: nat): nat {
    q * u
  }

  ghost predicate Rung(p: nat, lo: nat, hi: nat, u: nat) {
    exists q: nat :: lo <= q <= hi && p == Times(q, u)
  }

  /** An octave's lengths pad to at most 2^S + 1 values, S being the bits kept. */
  lemma {:induction false} FewValues(e: nat, values: set<nat>)
    requires e > 0 && forall p :: p in values ==> InOctave(e, p)
    ensures |values| <= Pow2(Log2(e) + 1) + 1
  {
    hide Pow2, Log2, LastBits, InOctave, Rung;
    forall p | p in values
      ensures Rung(p, Steps(e), 2 * Steps(e), Unit(e))
    {
      PadsToRung(e, p);
    }
    Ladder(values, Steps(e), 2 * Steps(e), Unit(e));
  }

  lemma PadsToRung(e: nat, p: nat)
    requires e > 0 && InOctave(e, p)
    ensures Rung(p, Steps(e), 2 * Steps(e), Unit(e))
  {
    var len :| Pow2(e) <= len < 2 * Pow2(e) && PaddedLen(len) == p;
    PowMono(1, e);
    LogUnique(len, e);
    PaddedIs(len);
    assert p == Times(Units(len, Unit(e)), Unit(e));
  }

  /** Among the rungs from `lo` to `hi` there are at most `hi - lo + 1`. */
  lemma {:induction false} Ladder(values: set<nat>, lo: nat, hi: nat, u: nat)
    requires lo <= hi && forall p :: p in values ==> Rung(p, lo, hi, u)
    ensures |values| <= hi - lo + 1
    decreases hi - lo
  {
    var top := Times(hi, u);
    var rest := values - {top};
    hide Times;
    if lo == hi {
      assert rest == {};
    } else {
      Ladder(rest, lo, hi - 1, u);
    }
    assert values <= rest + {top};
    Subset(values, rest + {top});
  }

  lemma {:induction false} Subset(a: set<nat>, b: set<nat>)
    requires a <= b
    ensures |a| <= |b|
    decreases a
  {
    if a != {} {
      var x :| x in a;
      Subset(a - {x}, b - {x});
    }
  }

  // ---------------------------------------------------------------------------------------------
  // In 64 bits.
  // ---------------------------------------------------------------------------------------------

  const U64_LIMIT: nat := 0x1_0000_0000_0000_0000

  lemma PowSixtyFour()
    ensures Pow2(64) == U64_LIMIT
  {
    assert Pow2(8) == 256;
    PowSum(8, 8);
    PowSum(16, 16);
    PowSum(32, 32);
  }

  /** The addition before the masking overflows exactly when the padded length itself does not fit. */
  lemma FitsIffSumFits(len: nat)
    requires 2 <= len < U64_LIMIT
    ensures PaddedLen(len) < U64_LIMIT <==> len + (Pow2(LastBits(Log2(len))) - 1) < U64_LIMIT
  {
    var e := Log2(len);
    PowSixtyFour();
    if e >= 64 {
      PowMono(64, e);
    }
    PowSum(64 - LastBits(e), LastBits(e));
    SumFits(len, Unit(e), Pow2(64 - LastBits(e)), U64_LIMIT);
  }

  lemma SumFits(len: nat, u: nat, m: nat, limit: nat)
    requires u > 0 && limit == m * u
    ensures RoundUp(len, u) < limit <==> len + (u - 1) < limit
  {
    AtLeast(len + (u - 1), u, m);
    Split(len + (u - 1), u);
  }

  /** Clearing low bits does not take a sum below a multiple it has reached. */
  lemma AtLeast(x: nat, u: nat, m: nat)
    requires u > 0
    ensures x >= m * u ==> (x / u) * u >= m * u
  {
    Split(x, u);
    if x / u < m {
      MulMono(x / u + 1, m, u);
      assert (x / u + 1) * u == (x / u) * u + u;
    } else {
      MulMono(m, x / u, u);
    }
  }
}
