/** UUIDv7 generation: a clock-seeded counter that never goes back, rendered so that text order is issue order. */
module Ids {
  import opened Text
  import opened Digits
  import opened Bytes

  /** The generator's memory: the last millisecond used and the 12-bit counter within it. */
  datatype Counter = Counter(ms: nat, seq_: nat)

  predicate InRange(c: Counter) {
    c.seq_ <= 0x0fff
  }

  /** One call's inputs: the wall clock and eight random bytes. */
  datatype Call = Call(now: int, random: Data)

  predicate WellFormed(call: Call) {
    |call.random| == 8
  }

  /** Milliseconds and counter as one number. */
  function Ticks(c: Counter): nat {
    c.ms * 4096 + c.seq_
  }

  /** The first eleven random bits. */
  function Seed(random: Data): (n: nat)
    requires |random| == 8
    ensures n < 2048
  {
    (random[0] as nat * 256 + random[1] as nat) / 32
  }

  function Advance(c: Counter, call: Call): (r: Counter)
    requires InRange(c) && WellFormed(call)
    ensures InRange(r)
  {
    if call.now <= c.ms then
      if c.seq_ + 1 > 0x0fff then Counter(c.ms + 1, 0) else Counter(c.ms, c.seq_ + 1)
    else
      Counter(call.now, call.random[0] as nat * 8 + call.random[1] as nat / 32)
  }

  function BigEndian(width: nat, n: nat): (b: Data)
    ensures |b| == width
  {
    if width == 0 then [] else BigEndian(width - 1, n / 256) + [(n % 256) as byte]
  }

  /** Timestamp, version nibble and counter, then variant bits over the random tail. */
  function Layout(c: Counter, random: Data): (b: Data)
    requires InRange(c) && |random| == 8
    ensures |b| == 16
  {
    BigEndian(6, c.ms) + [(0x70 + c.seq_ / 256) as byte, (c.seq_ % 256) as byte]
    + [0x80 + random[0] % 64] + random[1..]
  }

  function Hex(b: Data): (s: string)
    ensures |s| == 2 * |b|
  {
    if b == [] then "" else Pad(16, 2, b[0] as nat) + Hex(b[1..])
  }

  function Format(b: Data): (s: string)
    requires |b| == 16
    ensures |s| == 36
  {
    Hex(b[0..4]) + "-" + Hex(b[4..6]) + "-" + Hex(b[6..8]) + "-" + Hex(b[8..10]) + "-" + Hex(b[10..16])
  }

  function Id(c: Counter, call: Call): string
    requires InRange(c) && WellFormed(call)
  {
    Format(Layout(Advance(c, call), call.random))
  }

  /** The package-level generator. */
  class IdState {
    var ms: nat
    var seq_: nat

    ghost predicate Valid()
      reads this
    {
      InRange(View())
    }

    ghost function View(): Counter
      reads this
    {
      Counter(ms, seq_)
    }

    constructor ()
      ensures Valid() && View() == Counter(0, 0)
    {
      ms, seq_ := 0, 0;
    }

    method NewId(call: Call) returns (id: string)
      requires Valid() && WellFormed(call)
      modifies this
      ensures Valid() && View() == Advance(old(View()), call)
      ensures id == Id(old(View()), call)
      ensures call.now > old(ms) ==> ms == call.now && seq_ == Seed(call.random)
      ensures call.now <= old(ms) ==> Ticks(View()) == Ticks(old(View())) + 1
    {
      if call.now <= ms {
        seq_ := seq_ + 1;
        if seq_ > 0x0fff {
          ms := ms + 1;
          seq_ := 0;
        }
      } else {
        ms := call.now;
        seq_ := call.random[0] as nat * 8 + call.random[1] as nat / 32;
      }
      var b := BigEndian(6, ms) + [(0x70 + seq_ / 256) as byte, (seq_ % 256) as byte]
               + [0x80 + call.random[0] % 64] + call.random[1..];
      id := Format(b);
    }

    /** A burst of calls issues exactly the ids of the specification, in order. */
    method Burst(calls: seq<Call>) returns (ids: seq<string>)
      requires Valid() && (forall k | 0 <= k < |calls| :: WellFormed(calls[k]))
      modifies this
      ensures Valid() && View() == After(old(View()), calls) && ids == Issued(old(View()), calls)
    {
      ids := [];
      for i := 0 to |calls|
        invariant Valid() && View() == After(old(View()), calls[..i]) && ids == Issued(old(View()), calls[..i])
      {
        IssuedNext(old(View()), calls, i);
        var id := NewId(calls[i]);
        ids := ids + [id];
      }
      assert calls[..|calls|] == calls;
    }
  }

  /** The ids a burst of calls issues. */
  function Issued(c: Counter, calls: seq<Call>): (ids: seq<string>)
    requires InRange(c) && (forall k | 0 <= k < |calls| :: WellFormed(calls[k]))
    ensures |ids| == |calls|
  {
    if calls == [] then []
    else
      var n := |calls| - 1;
      Issued(c, calls[..n]) + [Id(After(c, calls[..n]), calls[n])]
  }

  lemma {:induction false} IssuedAt(c: Counter, calls: seq<Call>, k: nat)
    requires InRange(c) && (forall k | 0 <= k < |calls| :: WellFormed(calls[k])) && k < |calls|
    ensures Issued(c, calls)[k] == Id(After(c, calls[..k]), calls[k])
  {
    hide Id;
    hide Advance;
    var n := |calls| - 1;
    if k < n {
      IssuedAt(c, calls[..n], k);
      assert calls[..n][..k] == calls[..k];
    }
  }

  lemma IssuedNext(c: Counter, calls: seq<Call>, i: nat)
    requires InRange(c) && (forall k | 0 <= k < |calls| :: WellFormed(calls[k])) && i < |calls|
    ensures After(c, calls[..i + 1]) == Advance(After(c, calls[..i]), calls[i])
    ensures Issued(c, calls[..i + 1]) == Issued(c, calls[..i]) + [Id(After(c, calls[..i]), calls[i])]
  {
    assert calls[..i + 1][..i] == calls[..i];
  }

  /** The generator's state after some calls. */
  function After(c: Counter, calls: seq<Call>): (r: Counter)
    requires InRange(c) && (forall k | 0 <= k < |calls| :: WellFormed(calls[k]))
    ensures InRange(r)
  {
    if calls == [] then c
    else Advance(After(c, calls[..|calls| - 1]), calls[|calls| - 1])
  }

  /** A later clock is taken over at once, with a fresh counter; otherwise the counter moves on by exactly one. */
  lemma AdvanceFollowsClock(c: Counter, call: Call)
    requires InRange(c) && WellFormed(call)
    ensures call.now > c.ms ==> Advance(c, call) == Counter(call.now, Seed(call.random))
    ensures call.now <= c.ms ==> Ticks(Advance(c, call)) == Ticks(c) + 1
  {
  }

  /** Every call moves the counter forward, by one or to a fresh millisecond's lower half. */
  lemma AdvanceTicks(c: Counter, call: Call)
    requires InRange(c) && WellFormed(call)
    ensures Ticks(Advance(c, call)) > Ticks(c)
    ensures Ticks(Advance(c, call)) == Ticks(c) + 1 || Ticks(Advance(c, call)) <= call.now * 4096 + 2047
  {
  }

  /** Drift: borrowing milliseconds never takes the counter more than one tick per call past the largest clock seen. */
  lemma {:induction false} DriftBound(calls: seq<Call>, largest: nat)
    requires Bounded(calls, largest)
    ensures Ticks(After(Counter(0, 0), calls)) <= largest * 4096 + 2047 + |calls|
  {
    if calls != [] {
      var n := |calls| - 1;
      DriftBound(calls[..n], largest);
      AdvanceTicks(After(Counter(0, 0), calls[..n]), calls[n]);
    }
  }

  lemma {:induction false} TicksGrow(c: Counter, calls: seq<Call>, i: nat, j: nat)
    requires InRange(c) && (forall k | 0 <= k < |calls| :: WellFormed(calls[k]))
    requires i < j <= |calls|
    ensures Ticks(After(c, calls[..i])) < Ticks(After(c, calls[..j]))
    decreases j - i
  {
    assert calls[..j][..j - 1] == calls[..j - 1];
    AdvanceTicks(After(c, calls[..j - 1]), calls[j - 1]);
    if i < j - 1 {
      TicksGrow(c, calls, i, j - 1);
    }
  }

  // Text order.

  lemma {:induction false} BigEndianLess(width: nat, a: nat, b: nat) returns (k: nat)
    requires a < b < Pow(256, width)
    ensures k < width && BigEndian(width, a)[..k] == BigEndian(width, b)[..k]
    ensures BigEndian(width, a)[k] < BigEndian(width, b)[k]
  {
    QuotientBound(256, width, b);
    QuotientOrder(256, a, b);
    var x, y := BigEndian(width - 1, a / 256), BigEndian(width - 1, b / 256);
    if a / 256 < b / 256 {
      k := BigEndianLess(width - 1, a / 256, b / 256);
      assert (x + [(a % 256) as byte])[..k] == x[..k] && (y + [(b % 256) as byte])[..k] == y[..k];
    } else {
      k := width - 1;
      assert (x + [(a % 256) as byte])[..k] == x && (y + [(b % 256) as byte])[..k] == y;
    }
  }

  /** Byte order of equal-length strings is the text order of their hex forms. */
  lemma {:induction false} HexLess(a: Data, b: Data, k: nat)
    requires |a| == |b| && k < |a| && a[..k] == b[..k] && a[k] < b[k]
    ensures Less(Hex(a), Hex(b))
  {
    var p, q := Pad(16, 2, a[0] as nat), Pad(16, 2, b[0] as nat);
    if k == 0 {
      assert Pow(16, 2) == 256;
      PadLess(16, 2, a[0] as nat, b[0] as nat);
      LessHead(p, q, Hex(a[1..]), Hex(b[1..]));
    } else {
      assert a[0] == a[..k][0] == b[..k][0] == b[0];
      assert a[1..][..k - 1] == a[..k][1..] && b[1..][..k - 1] == b[..k][1..];
      HexLess(a[1..], b[1..], k - 1);
      PrefixLess(p, Hex(a[1..]), Hex(b[1..]));
    }
  }

  /** Texts that agree up to k agree on any stretch before it, */
  lemma Agree(a: Data, b: Data, k: nat, i: nat, j: nat)
    requires |a| == |b| && k <= |a| && a[..k] == b[..k] && i <= j <= k
    ensures a[i..j] == b[i..j]
  {
    assert a[i..j] == a[..k][i..j] && b[i..j] == b[..k][i..j];
  }

  /** and on the part before it of a stretch across it. */
  lemma AgreeUpTo(a: Data, b: Data, k: nat, i: nat, j: nat)
    requires |a| == |b| && i <= k <= j <= |a| && a[..k] == b[..k]
    ensures a[i..j][..k - i] == b[i..j][..k - i]
  {
    Agree(a, b, k, i, k);
    assert a[i..j][..k - i] == a[i..k] && b[i..j][..k - i] == b[i..k];
  }

  lemma FormatLess(a: Data, b: Data, k: nat)
    requires |a| == 16 && |b| == 16 && k < 8 && a[..k] == b[..k] && a[k] < b[k]
    ensures Less(Format(a), Format(b))
  {
    var s := "-" + Hex(a[8..10]) + "-" + Hex(a[10..16]);
    var t := "-" + Hex(b[8..10]) + "-" + Hex(b[10..16]);
    Regroup(a);
    Regroup(b);
    if k < 4 {
      AgreeUpTo(a, b, k, 0, 4);
      HexLess(a[0..4], b[0..4], k);
      LessHead(Hex(a[0..4]), Hex(b[0..4]), "-" + (Hex(a[4..6]) + ("-" + (Hex(a[6..8]) + s))),
               "-" + (Hex(b[4..6]) + ("-" + (Hex(b[6..8]) + t))));
    } else {
      Agree(a, b, k, 0, 4);
      var p := Hex(a[0..4]) + "-";
      assert Format(a) == p + (Hex(a[4..6]) + ("-" + (Hex(a[6..8]) + s)));
      assert Format(b) == p + (Hex(b[4..6]) + ("-" + (Hex(b[6..8]) + t)));
      if k < 6 {
        AgreeUpTo(a, b, k, 4, 6);
        HexLess(a[4..6], b[4..6], k - 4);
        LessHead(Hex(a[4..6]), Hex(b[4..6]), "-" + (Hex(a[6..8]) + s), "-" + (Hex(b[6..8]) + t));
      } else {
        Agree(a, b, k, 4, 6);
        AgreeUpTo(a, b, k, 6, 8);
        HexLess(a[6..8], b[6..8], k - 6);
        LessHead(Hex(a[6..8]), Hex(b[6..8]), s, t);
        PrefixLess("-", Hex(a[6..8]) + s, Hex(b[6..8]) + t);
        PrefixLess(Hex(a[4..6]), "-" + (Hex(a[6..8]) + s), "-" + (Hex(b[6..8]) + t));
      }
      PrefixLess(p, Hex(a[4..6]) + ("-" + (Hex(a[6..8]) + s)), Hex(b[4..6]) + ("-" + (Hex(b[6..8]) + t)));
    }
  }

  lemma Regroup(a: Data)
    requires |a| == 16
    ensures Format(a) == Hex(a[0..4]) + ("-" + (Hex(a[4..6]) + ("-" + (Hex(a[6..8]) +
                         ("-" + Hex(a[8..10]) + "-" + Hex(a[10..16]))))))
  {
  }

  /** Milliseconds that fit the 48-bit timestamp field. */
  const TIMESTAMPS: nat := 0x1_0000_0000_0000

  lemma TimestampRange()
    ensures Pow(256, 6) == TIMESTAMPS
  {
    assert Pow(256, 3) == 0x100_0000;
    assert Pow(256, 6) == 256 * (256 * (256 * Pow(256, 3)));
  }

  lemma LayoutLess(a: Counter, b: Counter, r: Data, s: Data)
    requires InRange(a) && InRange(b) && b.ms < TIMESTAMPS && Ticks(a) < Ticks(b) && |r| == 8 && |s| == 8
    ensures Less(Format(Layout(a, r)), Format(Layout(b, s)))
  {
    var x, y := Layout(a, r), Layout(b, s);
    assert x[..6] == BigEndian(6, a.ms) && y[..6] == BigEndian(6, b.ms);
    TimestampRange();
    if a.ms < b.ms {
      var k := BigEndianLess(6, a.ms, b.ms);
      assert x[..k] == x[..6][..k] && y[..k] == y[..6][..k];
      assert x[k] == x[..6][k] && y[k] == y[..6][k];
      FormatLess(x, y, k);
    } else {
      assert a.ms == b.ms && a.seq_ < b.seq_;
      QuotientOrder(256, a.seq_, b.seq_);
      var k := if a.seq_ / 256 < b.seq_ / 256 then 6 else 7;
      assert x[..k] == y[..k];
      FormatLess(x, y, k);
    }
  }

  lemma LaterIdSortsAfter(a: Counter, b: Counter, first: Call, second: Call)
    requires InRange(a) && InRange(b) && WellFormed(first) && WellFormed(second)
    requires Ticks(Advance(a, first)) < Ticks(Advance(b, second)) < TIMESTAMPS * 4096
    ensures Less(Id(a, first), Id(b, second))
  {
    LayoutLess(Advance(a, first), Advance(b, second), first.random, second.random);
  }

  ghost predicate Bounded(calls: seq<Call>, largest: nat) {
    forall k | 0 <= k < |calls| :: WellFormed(calls[k]) && calls[k].now <= largest
  }

  /** Ids are strictly increasing as text, for any clock readings, while the timestamp fits its 48 bits. */
  lemma StrictlyIncreasing(calls: seq<Call>, largest: nat, i: nat, j: nat)
    requires Bounded(calls, largest) && largest * 4096 + 2047 + |calls| < TIMESTAMPS * 4096
    requires i < j < |calls|
    ensures Less(Issued(Counter(0, 0), calls)[i], Issued(Counter(0, 0), calls)[j])
  {
    IssuedAt(Counter(0, 0), calls, i);
    IssuedAt(Counter(0, 0), calls, j);
    LaterCallSortsAfter(calls, largest, i, j);
  }

  lemma LaterCallSortsAfter(calls: seq<Call>, largest: nat, i: nat, j: nat)
    requires Bounded(calls, largest) && largest * 4096 + 2047 + |calls| < TIMESTAMPS * 4096
    requires i < j < |calls|
    ensures Less(Id(After(Counter(0, 0), calls[..i]), calls[i]), Id(After(Counter(0, 0), calls[..j]), calls[j]))
  {
    var zero := Counter(0, 0);
    CallTicks(calls, largest, i, j);
    LaterIdSortsAfter(After(zero, calls[..i]), After(zero, calls[..j]), calls[i], calls[j]);
  }

  lemma CallTicks(calls: seq<Call>, largest: nat, i: nat, j: nat)
    requires Bounded(calls, largest) && largest * 4096 + 2047 + |calls| < TIMESTAMPS * 4096 && i < j < |calls|
    ensures var zero := Counter(0, 0);
      Ticks(Advance(After(zero, calls[..i]), calls[i])) <
        Ticks(Advance(After(zero, calls[..j]), calls[j])) < TIMESTAMPS * 4096
  {
    hide Advance;
    hide Issued;
    var zero := Counter(0, 0);
    IssuedNext(zero, calls, i);
    IssuedNext(zero, calls, j);
    TicksGrow(zero, calls, i + 1, j + 1);
    DriftBound(calls[..j + 1], largest);
  }

  /** Version 7, variant 10 and the dashes stand where section 5.7 of RFC 9562 puts them. */
  lemma VersionAndVariant(c: Counter, call: Call)
    requires InRange(c) && WellFormed(call)
    ensures var id := Id(c, call);
      && id[8] == '-' && id[13] == '-' && id[18] == '-' && id[23] == '-'
      && id[14] == '7' && id[19] in {'8', '9', 'a', 'b'}
  {
    var b := Layout(Advance(c, call), call.random);
    var third, fourth := b[6..8], b[8..10];
    assert Format(b)[14] == Hex(third)[0] && Format(b)[19] == Hex(fourth)[0];
    FirstHexDigit(third);
    FirstHexDigit(fourth);
    assert third[0] == b[6] && fourth[0] == b[8];
  }

  lemma FirstHexDigit(b: Data)
    requires b != []
    ensures Hex(b)[0] == Digit(b[0] as nat / 16)
  {
    var n := b[0] as nat;
    assert Pad(16, 2, n) == Pad(16, 1, n / 16) + [Digit(n % 16)];
    assert Pad(16, 1, n / 16) == Pad(16, 0, n / 16 / 16) + [Digit(n / 16 % 16)];
  }

  function Value(b: Data): nat {
    if b == [] then 0 else Value(b[..|b| - 1]) * 256 + b[|b| - 1] as nat
  }

  lemma {:induction false} BigEndianReads(width: nat, n: nat)
    requires n < Pow(256, width)
    ensures Value(BigEndian(width, n)) == n
  {
    if width > 0 {
      if n > 0 {
        QuotientBound(256, width, n);
      }
      BigEndianReads(width - 1, n / 256);
      var b := BigEndian(width, n);
      assert b[..|b| - 1] == BigEndian(width - 1, n / 256);
    }
  }

  /** Timestamp, counter and random bits can all be read back from an id's bytes. */
  lemma LayoutReads(c: Counter, random: Data)
    requires InRange(c) && |random| == 8 && c.ms < TIMESTAMPS
    ensures var b := Layout(c, random);
      && Value(b[..6]) == c.ms && (b[6] as nat - 0x70) * 256 + b[7] as nat == c.seq_
      && b[8] / 64 == 2 && b[8] % 64 == random[0] % 64 && b[9..] == random[1..]
  {
    TimestampRange();
    BigEndianReads(6, c.ms);
    assert Layout(c, random)[..6] == BigEndian(6, c.ms);
  }
}
