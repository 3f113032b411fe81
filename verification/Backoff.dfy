/** The retry delay: a 64-bit shift with two guards, against the formula it stands for. */
module Backoff {
  import opened Digits

  const WORD: int := 0x1_0000_0000_0000_0000
  const LIMIT: int := 0x8000_0000_0000_0000

  /** Two's-complement wrap-around of int64. */
  function Wrap(x: int): (r: int)
    ensures -LIMIT <= r < LIMIT
    ensures 0 <= x < LIMIT ==> r == x
  {
    var m := x % WORD;
    if m >= LIMIT then m - WORD else m
  }

  /** `base << n` on int64; a count of 64 or more shifts everything out. */
  function Shift(base: int, n: nat): int {
    if n >= 64 then 0 else Wrap(base * Pow(2, n))
  }

  /** The delay before jitter, as computed. */
  function Nominal(base: int, cap: int, attempt: nat): (d: int)
    requires attempt >= 1
    ensures cap > 0 ==> 0 < d <= cap
  {
    var d := Shift(base, attempt - 1);
    if d > cap || d <= 0 then cap else d
  }

  /** The delay before jitter, as documented: min(base * 2^(attempt-1), cap). */
  function Documented(base: nat, cap: nat, attempt: nat): nat
    requires attempt >= 1
  {
    var d := base * Pow(2, attempt - 1);
    if d < cap then d else cap
  }

  function OddPart(n: nat): (odd: nat)
    requires n > 0
    ensures odd > 0 && odd % 2 == 1
  {
    if n % 2 == 1 then n else OddPart(n / 2)
  }

  lemma {:induction false} SplitOff(n: nat) returns (t: nat)
    requires n > 0
    ensures n == OddPart(n) * Pow(2, t)
  {
    if n % 2 == 1 {
      t := 0;
    } else {
      t := SplitOff(n / 2);
      t := t + 1;
      Doubled(OddPart(n), Pow(2, t - 1));
    }
  }

  lemma Doubled(odd: int, p: int)
    ensures 2 * (odd * p) == odd * (2 * p)
  {
  }

  lemma {:induction false} PowSum(a: nat, b: nat)
    ensures Pow(2, a + b) == Pow(2, a) * Pow(2, b)
  {
    if a > 0 {
      PowSum(a - 1, b);
      Associate(2, Pow(2, a - 1), Pow(2, b));
    }
  }

  lemma Associate(a: int, b: int, c: int)
    ensures (a * b) * c == a * (b * c)
  {
  }

  lemma WordIsPower()
    ensures Pow(2, 63) == LIMIT && Pow(2, 64) == WORD
  {
    assert Pow(2, 8) == 256;
    PowSum(8, 8);
    PowSum(16, 16);
    PowSum(32, 32);
    assert Pow(2, 64) == 2 * Pow(2, 63);
  }

  lemma WrapSubtracts(x: int) returns (turns: int)
    ensures Wrap(x) == x - turns * WORD
  {
    turns := x / WORD;
    if x % WORD >= LIMIT {
      turns := turns + 1;
    }
  }

  lemma CommonFactor(a: int, b: int, c: int, q: int)
    ensures a * q - b * (c * q) == (a - b * c) * q
  {
    Associate(b, c, q);
  }

  /** A multiple of a power of two stays one when it wraps. */
  lemma WrapMultiple(odd: int, s: nat) returns (k: int)
    requires s <= 64
    ensures Wrap(odd * Pow(2, s)) == k * Pow(2, s)
  {
    WordIsPower();
    PowSum(64 - s, s);
    var turns := WrapSubtracts(odd * Pow(2, s));
    k := odd - turns * Pow(2, 64 - s);
    CommonFactor(odd, turns, Pow(2, 64 - s), Pow(2, s));
  }

  lemma MulPositive(k: int, q: int)
    requires q > 0 && k * q > 0
    ensures k * q >= q
  {
    if k <= 0 {
      MulLeq(q, k, 0);
      assert false;
    }
    MulLeq(q, 1, k);
  }

  lemma {:induction false} PowMonotone(a: nat, b: nat)
    requires a <= b
    ensures Pow(2, a) <= Pow(2, b)
  {
    PowSum(a, b - a);
    MulLeq(Pow(2, a), 1, Pow(2, b - a));
  }

  /** The shift at one attempt does no harm: it fits, it shifts everything out, or a guard catches what is left. */
  predicate Harmless(base: nat, cap: nat, n: nat) {
    base * Pow(2, n) < LIMIT || n >= 64 || Wrap(base * Pow(2, n)) <= 0 || Wrap(base * Pow(2, n)) >= cap
  }

  /** One attempt: the computed delay is the documented one exactly when its shift is harmless. */
  lemma ExactPerAttempt(base: nat, cap: nat, attempt: nat)
    requires 0 < base < LIMIT && 0 < cap < LIMIT && attempt >= 1
    ensures Nominal(base, cap, attempt) == Documented(base, cap, attempt) <==> Harmless(base, cap, attempt - 1)
  {
    if base * Pow(2, attempt - 1) < LIMIT {
      NarrowShift(base, attempt - 1);
    }
  }

  /**
   * Every attempt: the delays are the documented ones exactly when no overflowing shift below 64 lands strictly
   * between zero and the cap, which a configuration loader can test.
   */
  lemma ExactForAllAttempts(base: nat, cap: nat)
    requires 0 < base < LIMIT && 0 < cap < LIMIT
    ensures (forall attempt: nat | attempt >= 1 :: Nominal(base, cap, attempt) == Documented(base, cap, attempt)) <==>
            (forall n: nat | n < 64 :: Harmless(base, cap, n))
  {
    forall attempt: nat | attempt >= 1
      ensures Nominal(base, cap, attempt) == Documented(base, cap, attempt) <==> Harmless(base, cap, attempt - 1)
    {
      ExactPerAttempt(base, cap, attempt);
    }
    forall n: nat | n < 64
      ensures Harmless(base, cap, n) <==> Nominal(base, cap, n + 1) == Documented(base, cap, n + 1)
    {
      ExactPerAttempt(base, cap, n + 1);
    }
  }

  /** A sufficient condition: the guards catch every overflow while cap times the odd part of base is below 2^63. */
  lemma OddPartSuffices(base: nat, cap: nat, n: nat)
    requires 0 < base < LIMIT && 0 < cap < LIMIT && OddPart(base) * cap < LIMIT
    ensures Harmless(base, cap, n)
  {
    WordIsPower();
    if base * Pow(2, n) >= LIMIT {
      var t := SplitOff(base);
      PowSum(t, n);
      Associate(OddPart(base), Pow(2, t), Pow(2, n));
      OverflowPastCap(OddPart(base), cap, Pow(2, t + n));
      if n < 64 {
        WideShift(OddPart(base), t + n, n, base * Pow(2, n), cap);
      }
    }
  }

  lemma RefinesDocumented(base: nat, cap: nat, attempt: nat)
    requires 0 < base < LIMIT && 0 < cap < LIMIT && attempt >= 1
    requires OddPart(base) * cap < LIMIT
    ensures Nominal(base, cap, attempt) == Documented(base, cap, attempt)
  {
    OddPartSuffices(base, cap, attempt - 1);
    ExactPerAttempt(base, cap, attempt);
  }

  lemma NarrowShift(base: nat, n: nat)
    requires base > 0 && base * Pow(2, n) < LIMIT
    ensures n < 64
  {
    WordIsPower();
    MulLeq(Pow(2, n), 1, base);
    if n >= 64 {
      PowMonotone(64, n);
      assert false;
    }
  }

  /** When the product overflows, the power of two alone exceeds the cap. */
  lemma OverflowPastCap(odd: nat, cap: nat, power: nat)
    requires odd * cap < LIMIT <= odd * power
    ensures power > cap
  {
    if power <= cap {
      MulLeq(odd, power, cap);
      assert false;
    }
  }

  lemma WideShift(odd: nat, s: nat, n: nat, d: nat, cap: nat)
    requires n < 64 && n <= s && d == odd * Pow(2, s) && Pow(2, s) > cap
    ensures Wrap(d) > cap || Wrap(d) <= 0
  {
    if s <= 64 {
      var k := WrapMultiple(odd, s);
      if Wrap(d) > 0 {
        MulPositive(k, Pow(2, s));
      }
    } else {
      PowSum(s - 64, 64);
      Associate(odd, Pow(2, s - 64), Pow(2, 64));
      var k := WrapMultiple(odd * Pow(2, s - 64), 64);
      WordIsPower();
      if Wrap(d) > 0 {
        MulPositive(k, WORD);
        assert false;
      }
    }
  }

  lemma {:induction false} PowersDrop(odd: nat, k: nat)
    requires odd % 2 == 1
    ensures odd * Pow(2, k) > 0 && OddPart(odd * Pow(2, k)) == odd
  {
    hide Wrap;
    if k > 0 {
      PowersDrop(odd, k - 1);
      Doubled(odd, Pow(2, k - 1));
    }
  }

  /** The shipped defaults, one second and one minute in nanoseconds, meet the condition. */
  lemma DefaultsMeetCondition(attempt: nat)
    requires attempt >= 1
    ensures Nominal(1_000_000_000, 60_000_000_000, attempt) == Documented(1_000_000_000, 60_000_000_000, attempt)
  {
    assert Pow(2, 9) == 512;
    PowersDrop(1_953_125, 9);
    RefinesDocumented(1_000_000_000, 60_000_000_000, attempt);
  }

  /** Outside the condition the guards can miss: 5 << 62 wraps to 2^62, below a cap of 2^62 + 1. */
  lemma GuardsCanMiss()
    ensures var cap := 0x4000_0000_0000_0001;
      Nominal(5, cap, 63) == 0x4000_0000_0000_0000 && Documented(5, cap, 63) == cap
  {
    WordIsPower();
    assert Pow(2, 63) == 2 * Pow(2, 62);
  }

  /** The nominal delay times the jitter factor. */
  function Jittered(nominal: nat, jitter: real): (delay: real)
    requires jitter >= 0.0
    ensures delay >= 0.0
    ensures 0.8 <= jitter <= 1.2 ==> 4.0 * nominal as real <= 5.0 * delay <= 6.0 * nominal as real
  {
    FifthOff(nominal as real, jitter);
    nominal as real * jitter
  }

  lemma FifthOff(x: real, jitter: real)
    requires x >= 0.0 && jitter >= 0.0
    ensures x * jitter >= 0.0
    ensures 0.8 <= jitter <= 1.2 ==> 4.0 * x <= 5.0 * (x * jitter) <= 6.0 * x
  {
    if 0.8 <= jitter <= 1.2 {
      assert x * (jitter - 0.8) >= 0.0;
      assert x * (1.2 - jitter) >= 0.0;
    }
  }

  /** With a jitter factor in [0.8, 1.2) the truncated delay is within a fifth of the nominal one. */
  lemma JitterWithinAFifth(nominal: nat, jitter: real)
    requires 0.8 <= jitter < 1.2
    ensures 4 * nominal - 5 < 5 * Jittered(nominal, jitter).Floor <= 6 * nominal
  {
    hide Jittered;
    FloorWithin(nominal, Jittered(nominal, jitter));
  }

  lemma DocumentedIsCapped(base: nat, cap: nat, attempt: nat)
    requires base > 0 && cap > 0 && attempt >= 1
    ensures Documented(base, cap, attempt) <= cap
  {
  }

  /** The delay as computed: jittered, and truncated to nanoseconds. */
  function Delay(base: int, cap: int, attempt: nat, jitter: real): nat
    requires attempt >= 1 && cap > 0 && jitter >= 0.0
  {
    Jittered(Nominal(base, cap, attempt), jitter).Floor
  }

  /** Within a fifth of the documented delay, for settings that pass the test of ExactForAllAttempts. */
  lemma DelayWithinAFifth(base: nat, cap: nat, attempt: nat, jitter: real)
    requires 0 < base < LIMIT && 0 < cap < LIMIT && attempt >= 1 && 0.8 <= jitter < 1.2
    requires forall n: nat | n < 64 :: Harmless(base, cap, n)
    ensures var nominal := Documented(base, cap, attempt);
      4 * nominal - 5 < 5 * Delay(base, cap, attempt, jitter) <= 6 * nominal
  {
    ExactForAllAttempts(base, cap);
    hide Documented;
    hide Nominal;
    hide Harmless;
    hide Jittered;
    assert Nominal(base, cap, attempt) == Documented(base, cap, attempt);
    JitterWithinAFifth(Nominal(base, cap, attempt), jitter);
  }

  lemma FloorWithin(n: nat, y: real)
    requires 0.8 * n as real <= y <= 1.2 * n as real
    ensures 4 * n - 5 < 5 * y.Floor <= 6 * n
  {
    var d := y.Floor;
    assert d as real <= y < d as real + 1.0;
    var low := (4 * n - 5 * d - 5) as real;
    assert low == 4.0 * n as real - 5.0 * d as real - 5.0;
    assert low < 0.0;
    var high := (5 * d - 6 * n) as real;
    assert high == 5.0 * d as real - 6.0 * n as real;
    assert high <= 0.0;
  }
}
