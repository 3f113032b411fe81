/** UTC instants as the store persists them: RFC 3339 text with trailing zeros of the fraction trimmed. */
module Stamps {
  import opened Text
  import opened Digits

  datatype Civil = Civil(year: nat, month: nat, day: nat, hour: nat, minute: nat, second: nat, nanos: nat)

  predicate LeapYear(y: nat) {
    y % 4 == 0 && (y % 100 != 0 || y % 400 == 0)
  }

  function DaysIn(y: nat, m: nat): nat
    requires 1 <= m <= 12
  {
    if m == 2 then (if LeapYear(y) then 29 else 28)
    else if m == 4 || m == 6 || m == 9 || m == 11 then 30
    else 31
  }

  predicate ValidCivil(c: Civil) {
    && c.year < 10000 && 1 <= c.month <= 12 && 1 <= c.day <= DaysIn(c.year, c.month)
    && c.hour < 24 && c.minute < 60 && c.second < 60 && c.nanos < 1_000_000_000
  }

  type Stamp = c: Civil | ValidCivil(c) witness Civil(1970, 1, 1, 0, 0, 0, 0)

  // The Gregorian day count.

  function LeapsBefore(y: nat): int {
    (y + 3) / 4 - (y + 99) / 100 + (y + 399) / 400
  }

  function DaysBeforeMonth(y: nat, m: nat): nat
    requires 1 <= m <= 12
  {
    if m == 1 then 0 else DaysBeforeMonth(y, m - 1) + DaysIn(y, m - 1)
  }

  function Day(c: Stamp): int {
    365 * c.year + LeapsBefore(c.year) + DaysBeforeMonth(c.year, c.month) + c.day
  }

  function Second(c: Stamp): int {
    ((Day(c) * 24 + c.hour) * 60 + c.minute) * 60 + c.second
  }

  const NANOS_PER_SECOND := 1_000_000_000

  /** Nanoseconds on the proleptic UTC scale: the order and distance of instants. */
  function Instant(c: Stamp): int {
    Second(c) * NANOS_PER_SECOND + c.nanos
  }

  // The text form.

  function Fields(c: Stamp): seq<Field> {
    [Field(4, c.year, "-"), Field(2, c.month, "-"), Field(2, c.day, "T"),
     Field(2, c.hour, ":"), Field(2, c.minute, ":"), Field(2, c.second, "")]
  }

  function TrimZeros(s: string): (r: string)
    ensures r <= s
    ensures r != "" ==> r[|r| - 1] != '0'
    ensures forall i | |r| <= i < |s| :: s[i] == '0'
  {
    if s != "" && s[|s| - 1] == '0' then TrimZeros(s[..|s| - 1]) else s
  }

  function Fraction(nanos: nat): string {
    if nanos == 0 then "" else "." + TrimZeros(Pad(10, 9, nanos))
  }

  /** time.RFC3339Nano in UTC. */
  function Format(c: Stamp): string {
    Render(10, Fields(c)) + (Fraction(c.nanos) + "Z")
  }

  /** `not_before <= ?` on stored text. */
  predicate Passed(gate: Stamp, now: Stamp) {
    Leq(Format(gate), Format(now))
  }

  lemma LayoutOk(a: Stamp, b: Stamp)
    ensures SameLayout(10, Fields(a), Fields(b))
  {
    assert Pow(10, 2) == 100 && Pow(10, 4) == 10000 by {
      assert Pow(10, 1) == 10 && Pow(10, 3) == 10 * Pow(10, 2);
    }
    assert a.day <= 31 && b.day <= 31;
  }

  /** The day count steps over a year by exactly that year's length. */
  lemma YearLength(y: nat)
    ensures 365 * (y + 1) + LeapsBefore(y + 1) ==
            365 * y + LeapsBefore(y) + if LeapYear(y) then 366 else 365
  {
    QuotientStep(y, 4);
    QuotientStep(y, 100);
    QuotientStep(y, 400);
    CenturiesAreFours(y);
  }

  lemma CenturiesAreFours(y: nat)
    ensures y % 400 == 0 ==> y % 100 == 0
    ensures y % 100 == 0 ==> y % 4 == 0
  {
    if y % 400 == 0 {
      MultipleOf(y, 100, 4 * (y / 400));
    }
    if y % 100 == 0 {
      MultipleOf(y, 4, 25 * (y / 100));
    }
  }

  lemma MultipleOf(y: nat, k: nat, q: nat)
    requires k > 0 && y == q * k
    ensures y % k == 0
  {
    DivIs(y, k, q, 0);
  }

  lemma QuotientStep(y: nat, k: nat)
    requires k > 0
    ensures (y + k) / k == (y + k - 1) / k + if y % k == 0 then 1 else 0
  {
    var q, r := y / k, y % k;
    assert y == q * k + r;
    assert (y + k) / k == q + 1 by {
      DivIs(y + k, k, q + 1, r);
    }
    if r == 0 {
      DivIs(y + k - 1, k, q, k - 1);
    } else {
      assert (q + 1) * k == q * k + k;
      DivIs(y + k - 1, k, q + 1, r - 1);
    }
  }

  lemma DivIs(x: int, k: nat, q: int, r: nat)
    requires k > 0 && r < k && x == q * k + r
    ensures x / k == q
  {
    var p := x / k;
    assert x == k * p + x % k && x == k * q + r;
    if p < q {
      MulGap(k, p, q);
      assert false;
    }
    if q < p {
      MulGap(k, q, p);
      assert false;
    }
  }

  lemma {:induction false} YearsApart(y: nat, z: nat)
    requires y < z
    ensures 365 * y + LeapsBefore(y) + (if LeapYear(y) then 366 else 365) <= 365 * z + LeapsBefore(z)
    decreases z - y
  {
    YearLength(y);
    if y + 1 < z {
      YearsApart(y + 1, z);
    }
  }

  lemma MonthLength(y: nat)
    ensures DaysBeforeMonth(y, 12) + DaysIn(y, 12) == if LeapYear(y) then 366 else 365
  {
    assert DaysBeforeMonth(y, 2) == 31;
    assert DaysBeforeMonth(y, 4) == 31 + DaysIn(y, 2) + 31;
    assert DaysBeforeMonth(y, 6) == DaysBeforeMonth(y, 4) + 61;
    assert DaysBeforeMonth(y, 8) == DaysBeforeMonth(y, 6) + 61;
    assert DaysBeforeMonth(y, 10) == DaysBeforeMonth(y, 8) + 61;
    assert DaysBeforeMonth(y, 12) == DaysBeforeMonth(y, 10) + 61;
  }

  lemma {:induction false} MonthsApart(y: nat, m: nat, n: nat)
    requires 1 <= m < n <= 12
    ensures DaysBeforeMonth(y, m) + DaysIn(y, m) <= DaysBeforeMonth(y, n)
    decreases n - m
  {
    if m + 1 < n {
      MonthsApart(y, m + 1, n);
    }
  }

  lemma EarlierDay(a: Stamp, b: Stamp)
    requires a.year < b.year || (a.year == b.year && (a.month < b.month || (a.month == b.month && a.day < b.day)))
    ensures Day(a) < Day(b)
  {
    if a.year < b.year {
      YearsApart(a.year, b.year);
      MonthLength(a.year);
      if a.month < 12 {
        MonthsApart(a.year, a.month, 12);
      }
    } else if a.month < b.month {
      MonthsApart(a.year, a.month, b.month);
    }
  }

  /** Calendar order is the order of seconds. */
  lemma EarlierFields(a: Stamp, b: Stamp, k: nat)
    requires FirstDifference(Fields(a), Fields(b), k)
    ensures Second(a) < Second(b)
  {
    var f, g := Fields(a), Fields(b);
    assert f[0].value == a.year && f[1].value == a.month && f[2].value == a.day
      && f[3].value == a.hour && f[4].value == a.minute && f[5].value == a.second;
    assert g[0].value == b.year && g[1].value == b.month && g[2].value == b.day
      && g[3].value == b.hour && g[4].value == b.minute && g[5].value == b.second;
    if k < 3 {
      EarlierDay(a, b);
    }
  }

  /** Fields that agree pairwise are the same second; otherwise one difference comes first. */
  lemma Compare(a: Stamp, b: Stamp) returns (k: nat)
    ensures k == 6 ==> Fields(a) == Fields(b)
    ensures k != 6 ==> FirstDifference(Fields(a), Fields(b), k) || FirstDifference(Fields(b), Fields(a), k)
  {
    k := if a.year != b.year then 0 else if a.month != b.month then 1 else if a.day != b.day then 2
         else if a.hour != b.hour then 3 else if a.minute != b.minute then 4 else if a.second != b.second then 5 else 6;
  }

  /** Across seconds, text order is time order. */
  lemma EarlierSecondSortsFirst(a: Stamp, b: Stamp)
    requires Second(a) < Second(b)
    ensures Less(Format(a), Format(b))
  {
    var k := Compare(a, b);
    LayoutOk(a, b);
    if k == 6 {
      SameFields(a, b);
      assert false;
    } else if FirstDifference(Fields(a), Fields(b), k) {
      RenderLess(10, Fields(a), Fields(b), k, Fraction(a.nanos) + "Z", Fraction(b.nanos) + "Z");
    } else {
      EarlierFields(b, a, k);
      assert false;
    }
  }

  lemma SameFields(a: Stamp, b: Stamp)
    requires Fields(a) == Fields(b)
    ensures a.(nanos := b.nanos) == b
  {
    var f, g := Fields(a), Fields(b);
    assert f[0] == g[0] && f[1] == g[1] && f[2] == g[2] && f[3] == g[3] && f[4] == g[4] && f[5] == g[5];
  }

  /** A gate is never passed a full second early, and always passed once the clock's second is later. */
  lemma GateWithinASecond(gate: Stamp, now: Stamp)
    ensures Passed(gate, now) ==> Instant(gate) - Instant(now) < NANOS_PER_SECOND
    ensures Second(now) > Second(gate) ==> Passed(gate, now)
    ensures Instant(now) - Instant(gate) >= NANOS_PER_SECOND ==> Passed(gate, now)
  {
    if Second(gate) < Second(now) {
      EarlierSecondSortsFirst(gate, now);
    } else if Second(now) < Second(gate) {
      EarlierSecondSortsFirst(now, gate);
      if Passed(gate, now) {
        LeqAntisymmetric(Format(gate), Format(now));
      }
    }
  }

  // Exactly when text and time agree.

  /** Neither stamp's second and fraction, as written, is a proper prefix of the other's. */
  predicate Comparable(a: Stamp, b: Stamp) {
    Second(a) != Second(b) || !(Fraction(a.nanos) < Fraction(b.nanos) || Fraction(b.nanos) < Fraction(a.nanos))
  }

  lemma NinePower()
    ensures Pow(10, 9) == NANOS_PER_SECOND
  {
    assert Pow(10, 3) == 1000;
    assert Pow(10, 6) == 1000 * Pow(10, 3) by { assert Pow(10, 6) == 10 * (10 * (10 * Pow(10, 3))); }
    assert Pow(10, 9) == 10 * (10 * (10 * Pow(10, 6)));
  }

  /** A shorter fraction that the other extends is the smaller number, yet sorts last: 'Z' is above every digit. */
  lemma PrefixSortsLast(x: nat, y: nat)
    requires x < NANOS_PER_SECOND && y < NANOS_PER_SECOND && Fraction(x) < Fraction(y)
    ensures x < y && !Leq(Fraction(x) + "Z", Fraction(y) + "Z") && Leq(Fraction(y) + "Z", Fraction(x) + "Z")
  {
    PrefixThenZ(x, y);
    if x > 0 {
      PrefixIsSmaller(x, y);
    }
  }

  /** A longer fraction sorts before the closing Z of a shorter one. */
  lemma PrefixThenZ(x: nat, y: nat)
    requires x < NANOS_PER_SECOND && y < NANOS_PER_SECOND && Fraction(x) < Fraction(y)
    ensures !Leq(Fraction(x) + "Z", Fraction(y) + "Z") && Leq(Fraction(y) + "Z", Fraction(x) + "Z")
  {
    var k := |Fraction(x)|;
    var f, g := Fraction(x) + "Z", Fraction(y) + "Z";
    assert f[..k] == Fraction(x) == g[..k] && f[k] == 'Z' && g[k] == Fraction(y)[k];
    FractionChars(y, k);
    LeqAt(f, g, k);
    LeqAt(g, f, k);
  }

  lemma PrefixIsSmaller(x: nat, y: nat)
    requires 0 < x < NANOS_PER_SECOND && y < NANOS_PER_SECOND && Fraction(x) < Fraction(y)
    ensures x < y
  {
    var p, q := Pad(10, 9, x), Pad(10, 9, y);
    assert TrimZeros(p) == Fraction(x)[1..] && TrimZeros(q) == Fraction(y)[1..];
    PadChars(9, y);
    TrimmedPrefix(p, q);
    if y < x {
      NinePower();
      PadLess(10, 9, y, x);
      LeqAntisymmetric(p, q);
      assert false;
    }
  }

  lemma TrimmedPrefix(p: string, q: string)
    requires |p| == |q| && TrimZeros(p) < TrimZeros(q)
    requires forall i | 0 <= i < |q| :: '0' <= q[i]
    ensures Leq(p, q) && p != q
  {
    var t, u := TrimZeros(p), TrimZeros(q);
    var j := FirstNonzero(q, |t|, |u| - 1);
    forall i | 0 <= i < j ensures p[i] == q[i] {
      if i < |t| { assert p[i] == t[i] == u[i] == q[i]; }
    }
    assert p[..j] == q[..j];
    LeqAt(p, q, j);
  }

  lemma {:induction false} FirstNonzero(s: string, from: nat, end: nat) returns (j: nat)
    requires from <= end < |s| && s[end] != '0'
    ensures from <= j <= end && s[j] != '0' && (forall i | from <= i < j :: s[i] == '0')
    decreases end - from
  {
    if s[from] != '0' {
      j := from;
    } else {
      j := FirstNonzero(s, from + 1, end);
    }
  }

  lemma {:induction false} PadChars(width: nat, n: nat)
    ensures forall i | 0 <= i < width :: '0' <= Pad(10, width, n)[i] <= '9'
  {
    if width > 0 {
      PadChars(width - 1, n / 10);
    }
  }

  lemma FractionChars(nanos: nat, k: nat)
    requires k < |Fraction(nanos)|
    ensures Fraction(nanos)[k] < 'Z'
  {
    PadChars(9, nanos);
  }

  lemma UnrelatedFractions(x: nat, y: nat)
    requires x < NANOS_PER_SECOND && y < NANOS_PER_SECOND
    requires !(Fraction(x) < Fraction(y)) && !(Fraction(y) < Fraction(x))
    ensures Leq(Fraction(x) + "Z", Fraction(y) + "Z") <==> x <= y
  {
    LeqTotal(Fraction(x) + "Z", Fraction(x) + "Z");
    if x != y {
      assert x != 0 && y != 0 by { assert Fraction(0) == ""; }
      var p, q := Pad(10, 9, x), Pad(10, 9, y);
      var t, u := TrimZeros(p), TrimZeros(q);
      assert t == Fraction(x)[1..] && u == Fraction(y)[1..];
      NinePower();
      if p == q {
        PadInjective(10, 9, x, y);
        assert false;
      }
      UnrelatedDigits(p, q);
      LeqPrefix(".", t + "Z", u + "Z");
      assert Fraction(x) + "Z" == "." + (t + "Z") && Fraction(y) + "Z" == "." + (u + "Z");
      if x < y {
        PadLess(10, 9, x, y);
      } else {
        PadLess(10, 9, y, x);
        if Leq(p, q) {
          LeqAntisymmetric(p, q);
          assert false;
        }
      }
    }
  }

  /** Numerals whose trimmed forms differ inside both keep their order when trimmed. */
  lemma UnrelatedDigits(p: string, q: string)
    requires |p| == |q| && p != q
    requires !(TrimZeros(p) < TrimZeros(q)) && !(TrimZeros(q) < TrimZeros(p))
    ensures Leq(TrimZeros(p) + "Z", TrimZeros(q) + "Z") <==> Leq(p, q)
  {
    var t, u := TrimZeros(p), TrimZeros(q);
    if t == u {
      TrimmedEqual(p, q);
      assert false;
    }
    var k := Divergence(t, u);
    assert p[..k] == t[..k] == u[..k] == q[..k];
    LeqAt(p, q, k);
    var f, g := t + "Z", u + "Z";
    assert f[..k] == t[..k] && g[..k] == u[..k];
    LeqAt(f, g, k);
  }

  lemma TrimmedEqual(p: string, q: string)
    requires |p| == |q| && TrimZeros(p) == TrimZeros(q)
    ensures p == q
  {
    var t := TrimZeros(p);
    forall i | 0 <= i < |p| ensures p[i] == q[i] {
      if i < |t| { assert p[i] == t[i] == q[i]; }
    }
  }

  lemma {:induction false} Divergence(a: string, b: string) returns (k: nat)
    ensures k <= |a| && k <= |b| && a[..k] == b[..k]
    ensures k < |a| && k < |b| ==> a[k] != b[k]
  {
    if a == "" || b == "" || a[0] != b[0] {
      k := 0;
    } else {
      var j := Divergence(a[1..], b[1..]);
      k := j + 1;
      assert a[..k] == [a[0]] + a[1..][..j] && b[..k] == [b[0]] + b[1..][..j];
    }
  }

  lemma SameSecondSameHead(a: Stamp, b: Stamp)
    requires Second(a) == Second(b)
    ensures Fields(a) == Fields(b)
  {
    var k := Compare(a, b);
    if k != 6 {
      if FirstDifference(Fields(a), Fields(b), k) { EarlierFields(a, b, k); } else { EarlierFields(b, a, k); }
    }
  }

  /** The store's comparison of gate and clock is the comparison of instants exactly on comparable stamps. */
  lemma TextAgreesWithTimeExactly(gate: Stamp, now: Stamp)
    ensures (Passed(gate, now) <==> Instant(gate) <= Instant(now)) <==> Comparable(gate, now)
  {
    if Second(gate) < Second(now) {
      EarlierSecondSortsFirst(gate, now);
    } else if Second(now) < Second(gate) {
      EarlierSecondSortsFirst(now, gate);
      if Passed(gate, now) {
        LeqAntisymmetric(Format(gate), Format(now));
      }
    } else {
      SameSecondSameHead(gate, now);
      LeqPrefix(Render(10, Fields(gate)), Fraction(gate.nanos) + "Z", Fraction(now.nanos) + "Z");
      if Fraction(gate.nanos) < Fraction(now.nanos) {
        PrefixSortsLast(gate.nanos, now.nanos);
      } else if Fraction(now.nanos) < Fraction(gate.nanos) {
        PrefixSortsLast(now.nanos, gate.nanos);
      } else {
        UnrelatedFractions(gate.nanos, now.nanos);
      }
    }
  }

  /** A gate on a whole second is shut for the rest of that second although its instant has come. */
  lemma WholeSecondGateIsLate(gate: Stamp, now: Stamp)
    requires Second(gate) == Second(now) && gate.nanos == 0 < now.nanos
    ensures Instant(gate) < Instant(now) && !Passed(gate, now)
  {
    assert Fraction(0) == "" && Fraction(now.nanos)[0] == '.';
    TextAgreesWithTimeExactly(gate, now);
  }

  /** Distinct stamps have distinct text, so a stored gate parses back to the instant that was written. */
  lemma FormatInjective(a: Stamp, b: Stamp)
    requires Format(a) == Format(b)
    ensures a == b
  {
    LeqTotal(Format(a), Format(a));
    if Second(a) < Second(b) {
      EarlierSecondSortsFirst(a, b);
    } else if Second(b) < Second(a) {
      EarlierSecondSortsFirst(b, a);
    } else {
      SameSecondSameHead(a, b);
      LeqPrefix(Render(10, Fields(a)), Fraction(a.nanos) + "Z", Fraction(b.nanos) + "Z");
      LeqPrefix(Render(10, Fields(a)), Fraction(b.nanos) + "Z", Fraction(a.nanos) + "Z");
      if Fraction(a.nanos) < Fraction(b.nanos) {
        PrefixSortsLast(a.nanos, b.nanos);
      } else if Fraction(b.nanos) < Fraction(a.nanos) {
        PrefixSortsLast(b.nanos, a.nanos);
      } else {
        UnrelatedFractions(a.nanos, b.nanos);
        UnrelatedFractions(b.nanos, a.nanos);
      }
      SameFields(a, b);
    }
  }

  /** `MIN(not_before)`: the stamp whose text is least. */
  function Earliest(gates: set<Stamp>): (g: Stamp)
    requires gates != {}
    ensures g in gates && forall x | x in gates :: Passed(g, x)
  {
    EarliestExists(gates);
    assert forall a, b | a in gates && b in gates && Passed(a, b) && Passed(b, a) :: a == b by {
      forall a, b | a in gates && b in gates && Passed(a, b) && Passed(b, a) ensures a == b {
        LeqAntisymmetric(Format(a), Format(b));
        FormatInjective(a, b);
      }
    }
    var g :| g in gates && forall x | x in gates :: Passed(g, x);
    g
  }

  lemma EarliestExists(gates: set<Stamp>)
    requires gates != {}
    ensures exists g :: g in gates && forall x | x in gates :: Passed(g, x)
  {
    var texts := set x | x in gates :: Format(x);
    var y :| y in gates;
    assert Format(y) in texts;
    var t := Least(texts);
    var g :| g in gates && Format(g) == t;
    forall x | x in gates ensures Passed(g, x) {
      assert Format(x) in texts;
    }
  }

  /** The textual minimum is less than a second after the true one. */
  lemma EarliestWithinASecond(gates: set<Stamp>, gate: Stamp)
    requires gate in gates
    ensures Instant(Earliest(gates)) - Instant(gate) < NANOS_PER_SECOND
  {
    GateWithinASecond(Earliest(gates), gate);
  }

  // Clock arithmetic.

  /** The last second there is a stamp for. */
  predicate AtEnd(c: Stamp) {
    c.year == 9999 && c.month == 12 && c.day == 31 && c.hour == 23 && c.minute == 59 && c.second == 59
  }

  const END: Stamp := Civil(9999, 12, 31, 23, 59, 59, 0)

  /** One second on, by the calendar. */
  function Tick(c: Stamp): Stamp {
    if c.second < 59 then c.(second := c.second + 1)
    else if c.minute < 59 then c.(second := 0, minute := c.minute + 1)
    else if c.hour < 23 then c.(second := 0, minute := 0, hour := c.hour + 1)
    else if c.day < DaysIn(c.year, c.month) then c.(second := 0, minute := 0, hour := 0, day := c.day + 1)
    else if c.month < 12 then c.(second := 0, minute := 0, hour := 0, day := 1, month := c.month + 1)
    else if c.year < 9999 then c.(second := 0, minute := 0, hour := 0, day := 1, month := 1, year := c.year + 1)
    else c
  }

  /** Seconds count by one across minutes, midnights, month ends, leap days and years. */
  lemma TickIsOneSecond(c: Stamp)
    requires !AtEnd(c)
    ensures Second(Tick(c)) == Second(c) + 1 && Tick(c).nanos == c.nanos
  {
    if c.second == 59 && c.minute == 59 && c.hour == 23 && c.day == DaysIn(c.year, c.month) {
      if c.month == 12 {
        YearLength(c.year);
        MonthLength(c.year);
        assert DaysBeforeMonth(c.year + 1, 1) == 0;
      } else {
        assert DaysBeforeMonth(c.year, c.month + 1) == DaysBeforeMonth(c.year, c.month) + DaysIn(c.year, c.month);
      }
    }
  }

  /** The calendar is the Gregorian one. */
  lemma LeapYears()
    ensures DaysIn(1900, 2) == 28 && DaysIn(2000, 2) == 29 && DaysIn(2023, 2) == 28 && DaysIn(2024, 2) == 29
  {
  }

  function Ticks(c: Stamp, n: nat): Stamp {
    if n == 0 then c else Tick(Ticks(c, n - 1))
  }

  lemma {:induction false} TicksAreSeconds(c: Stamp, n: nat)
    requires Second(c) + n <= Second(END)
    ensures Second(Ticks(c, n)) == Second(c) + n && Ticks(c, n).nanos == c.nanos
  {
    hide Tick;
    hide Second;
    if n > 0 {
      TicksAreSeconds(c, n - 1);
      if AtEnd(Ticks(c, n - 1)) {
        EndIsLast(Ticks(c, n - 1));
      }
      TickIsOneSecond(Ticks(c, n - 1));
    }
  }

  lemma EndIsLast(c: Stamp)
    requires AtEnd(c)
    ensures Second(c) == Second(END)
  {
  }

  /** Add of a delay in nanoseconds. */
  function After(c: Stamp, delay: nat): Stamp {
    var total := c.nanos + delay;
    Ticks(c, total / NANOS_PER_SECOND).(nanos := total % NANOS_PER_SECOND)
  }

  /** The delay is what lies between, up to the end of the year 9999. */
  lemma AfterIsLater(c: Stamp, delay: nat)
    requires Instant(c) + delay < Instant(END) + NANOS_PER_SECOND
    ensures Instant(After(c, delay)) == Instant(c) + delay
  {
    hide Second;
    var total := c.nanos + delay;
    var n := total / NANOS_PER_SECOND;
    assert total == n * NANOS_PER_SECOND + total % NANOS_PER_SECOND;
    TicksAreSeconds(c, n);
    SameSecond(Ticks(c, n), After(c, delay));
  }

  lemma SameSecond(a: Stamp, b: Stamp)
    requires a == b.(nanos := a.nanos)
    ensures Second(a) == Second(b)
  {
  }

  /** The text as section 5.6 of RFC 3339 has it: separators and fixed-width decimals. */
  lemma FormatHasFields(c: Stamp)
    ensures var f := Format(c);
      && |f| >= 20 && f[..4] == Pad(10, 4, c.year) && f[4] == '-' && f[5..7] == Pad(10, 2, c.month) && f[7] == '-'
      && f[8..10] == Pad(10, 2, c.day) && f[10] == 'T' && f[11..13] == Pad(10, 2, c.hour) && f[13] == ':'
      && f[14..16] == Pad(10, 2, c.minute) && f[16] == ':' && f[17..19] == Pad(10, 2, c.second)
      && f[|f| - 1] == 'Z' && f[19..] == Fraction(c.nanos) + "Z"
  {
    hide Pad;
    hide Fraction;
    var e: seq<Field> := [];
    var f6 := [Field(2, c.second, "")];
    var f5 := [Field(2, c.minute, ":")] + f6;
    var f4 := [Field(2, c.hour, ":")] + f5;
    var f3 := [Field(2, c.day, "T")] + f4;
    var f2 := [Field(2, c.month, "-")] + f3;
    assert Fields(c) == [Field(4, c.year, "-")] + f2;
    assert f6[1..] == e && f5[1..] == f6 && f4[1..] == f5 && f3[1..] == f4 && f2[1..] == f3 && Fields(c)[1..] == f2;
    assert Render(10, f6) == Pad(10, 2, c.second) + "" + "";
    assert Render(10, f5) == Pad(10, 2, c.minute) + ":" + Render(10, f6);
    assert Render(10, f4) == Pad(10, 2, c.hour) + ":" + Render(10, f5);
    assert Render(10, f3) == Pad(10, 2, c.day) + "T" + Render(10, f4);
    assert Render(10, f2) == Pad(10, 2, c.month) + "-" + Render(10, f3);
    assert Render(10, Fields(c)) == Pad(10, 4, c.year) + "-" + Render(10, f2);
  }
}
