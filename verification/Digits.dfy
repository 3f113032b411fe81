/** Fixed-width numerals and records of them, whose text order is their numeric order. */
module Digits {
  import opened Text

  function Pow(base: nat, exponent: nat): (p: nat)
    ensures base > 0 ==> p > 0
  {
    if exponent == 0 then 1 else base * Pow(base, exponent - 1)
  }

  function Digit(d: nat): char
    requires d < 16
  {
    if d < 10 then '0' + d as char else 'a' + (d - 10) as char
  }

  /** n in the given base, zero-padded to width; high digits beyond the width are lost. */
  function Pad(base: nat, width: nat, n: nat): (s: string)
    requires 2 <= base <= 16
    ensures |s| == width
  {
    if width == 0 then "" else Pad(base, width - 1, n / base) + [Digit(n % base)]
  }

  lemma {:induction false} PadLess(base: nat, width: nat, a: nat, b: nat)
    requires 2 <= base <= 16 && a < b < Pow(base, width)
    ensures Less(Pad(base, width, a), Pad(base, width, b))
  {
    var q, r, c, d := LastDigits(base, width, a, b);
    if q < r {
      PadLess(base, width - 1, q, r);
    }
    hide *;
    DigitsLess(Pad(base, width - 1, q), Pad(base, width - 1, r), c, d);
  }

  lemma LastDigits(base: nat, width: nat, a: nat, b: nat) returns (q: nat, r: nat, c: nat, d: nat)
    requires 2 <= base <= 16 && a < b < Pow(base, width)
    ensures width > 0 && r < Pow(base, width - 1) && c < 16 && d < 16 && (q < r || (q == r && c < d))
    ensures Pad(base, width, a) == Pad(base, width - 1, q) + [Digit(c)]
    ensures Pad(base, width, b) == Pad(base, width - 1, r) + [Digit(d)]
  {
    q, r, c, d := a / base, b / base, a % base, b % base;
    QuotientBound(base, width, b);
    QuotientOrder(base, a, b);
    LastDigit(base, width, a);
    LastDigit(base, width, b);
    hide *;
  }

  lemma LastDigit(base: nat, width: nat, n: nat)
    requires 2 <= base <= 16 && width > 0
    ensures n % base < 16 && Pad(base, width, n) == Pad(base, width - 1, n / base) + [Digit(n % base)]
  {
  }

  lemma DigitsLess(x: string, y: string, c: nat, d: nat)
    requires |x| == |y| && c < 16 && d < 16 && (Less(x, y) || (x == y && c < d))
    ensures Less(x + [Digit(c)], y + [Digit(d)])
  {
    if Less(x, y) {
      LessHead(x, y, [Digit(c)], [Digit(d)]);
    } else {
      LastDigitLess(x, Digit(c), Digit(d));
    }
  }

  lemma LastDigitLess(x: string, c: char, d: char)
    requires c < d
    ensures Less(x + [c], x + [d])
  {
    LeqPrefix(x, [c], [d]);
    assert (x + [c])[|x|] != (x + [d])[|x|];
  }

  lemma QuotientOrder(base: nat, a: nat, b: nat)
    requires base > 0 && a < b
    ensures a / base < b / base || (a / base == b / base && a % base < b % base)
  {
    var q, r := a / base, b / base;
    assert a == base * q + a % base && b == base * r + b % base;
    if r < q {
      MulGap(base, r, q);
      assert false;
    }
  }

  lemma MulGap(k: nat, a: int, b: int)
    requires a < b
    ensures k * a + k <= k * b
  {
    MulLeq(k, a + 1, b);
    assert k * (a + 1) == k * a + k;
  }

  lemma MulLeq(k: nat, a: int, b: int)
    requires a <= b
    ensures k * a <= k * b
  {
  }

  lemma QuotientBound(base: nat, width: nat, n: nat)
    requires base >= 2 && 0 < n < Pow(base, width)
    ensures width > 0 && n / base < Pow(base, width - 1)
  {
    assert width > 0;
    var q, p := n / base, Pow(base, width - 1);
    assert n == base * q + n % base;
    if p <= q {
      MulLeq(base, p, q);
      assert false;
    }
  }

  lemma {:induction false} PadInjective(base: nat, width: nat, a: nat, b: nat)
    requires 2 <= base <= 16 && a < Pow(base, width) && b < Pow(base, width)
    requires Pad(base, width, a) == Pad(base, width, b)
    ensures a == b
  {
    if a < b {
      PadLess(base, width, a, b);
    } else if b < a {
      PadLess(base, width, b, a);
    }
  }

  /** One numeral of a record, followed by its separator. */
  datatype Field = Field(width: nat, value: nat, separator: string)

  function Render(base: nat, fields: seq<Field>): string
    requires 2 <= base <= 16
  {
    if fields == [] then ""
    else (Pad(base, fields[0].width, fields[0].value) + fields[0].separator) + Render(base, fields[1..])
  }

  /** Two records of the same layout, values in range. */
  ghost predicate SameLayout(base: nat, f: seq<Field>, g: seq<Field>) {
    && |f| == |g|
    && forall i | 0 <= i < |f| ::
         && f[i].width == g[i].width && f[i].separator == g[i].separator
         && f[i].value < Pow(base, f[i].width) && g[i].value < Pow(base, g[i].width)
  }

  ghost predicate FirstDifference(f: seq<Field>, g: seq<Field>, k: nat) {
    && k < |f| && k < |g|
    && (forall i | 0 <= i < k :: f[i].value == g[i].value)
    && f[k].value < g[k].value
  }

  lemma {:induction false} RenderLength(base: nat, f: seq<Field>, g: seq<Field>)
    requires 2 <= base <= 16 && SameLayout(base, f, g)
    ensures |Render(base, f)| == |Render(base, g)|
  {
    if f != [] {
      RenderLength(base, f[1..], g[1..]);
    }
  }

  /** The first field that differs decides the order, whatever follows the records. */
  lemma {:induction false} RenderLess(base: nat, f: seq<Field>, g: seq<Field>, k: nat, a: string, b: string)
    requires 2 <= base <= 16 && SameLayout(base, f, g) && FirstDifference(f, g, k)
    ensures Less(Render(base, f) + a, Render(base, g) + b)
  {
    if k == 0 {
      Differ(base, f, g);
      hide *;
      HeadDecides(base, f, g, a, b);
    } else {
      Deeper(base, f, g, k);
      RenderLess(base, f[1..], g[1..], k - 1, a, b);
      hide *;
      TailDecides(base, f, g, a, b);
    }
  }

  lemma HeadDecides(base: nat, f: seq<Field>, g: seq<Field>, a: string, b: string)
    requires 2 <= base <= 16 && f != [] && g != []
    requires var p, q := Pad(base, f[0].width, f[0].value), Pad(base, g[0].width, g[0].value); |p| == |q| && Less(p, q)
    ensures Less(Render(base, f) + a, Render(base, g) + b)
  {
    RenderHead(base, f, a);
    RenderHead(base, g, b);
    hide *;
    LessHead(Pad(base, f[0].width, f[0].value), Pad(base, g[0].width, g[0].value),
             f[0].separator + (Render(base, f[1..]) + a), g[0].separator + (Render(base, g[1..]) + b));
  }

  lemma TailDecides(base: nat, f: seq<Field>, g: seq<Field>, a: string, b: string)
    requires 2 <= base <= 16 && f != [] && g != []
    requires Pad(base, f[0].width, f[0].value) == Pad(base, g[0].width, g[0].value) && f[0].separator == g[0].separator
    requires Less(Render(base, f[1..]) + a, Render(base, g[1..]) + b)
    ensures Less(Render(base, f) + a, Render(base, g) + b)
  {
    RenderHead(base, f, a);
    RenderHead(base, g, b);
    hide *;
    PrefixLess(Pad(base, f[0].width, f[0].value) + f[0].separator, Render(base, f[1..]) + a, Render(base, g[1..]) + b);
  }

  lemma Differ(base: nat, f: seq<Field>, g: seq<Field>)
    requires 2 <= base <= 16 && SameLayout(base, f, g) && FirstDifference(f, g, 0)
    ensures var p, q := Pad(base, f[0].width, f[0].value), Pad(base, g[0].width, g[0].value); |p| == |q| && Less(p, q)
  {
    PadLess(base, f[0].width, f[0].value, g[0].value);
  }

  lemma RenderHead(base: nat, f: seq<Field>, a: string)
    requires 2 <= base <= 16 && f != []
    ensures var p, sep, r := Pad(base, f[0].width, f[0].value), f[0].separator, Render(base, f[1..]) + a;
      Render(base, f) + a == p + (sep + r) == (p + sep) + r
  {
    var p, sep, t := Pad(base, f[0].width, f[0].value), f[0].separator, Render(base, f[1..]);
    assert Render(base, f) == (p + sep) + t;
    hide *;
    Regroup(p, sep, t, a);
  }

  lemma Regroup(p: string, sep: string, t: string, a: string)
    ensures ((p + sep) + t) + a == p + (sep + (t + a)) == (p + sep) + (t + a)
  {
  }

  lemma Deeper(base: nat, f: seq<Field>, g: seq<Field>, k: nat)
    requires 2 <= base <= 16 && SameLayout(base, f, g) && FirstDifference(f, g, k) && k > 0
    ensures SameLayout(base, f[1..], g[1..]) && FirstDifference(f[1..], g[1..], k - 1)
    ensures Pad(base, f[0].width, f[0].value) == Pad(base, g[0].width, g[0].value) && f[0].separator == g[0].separator
  {
  }

  lemma PrefixLess(p: string, a: string, b: string)
    requires Less(a, b)
    ensures Less(p + a, p + b)
  {
    LeqPrefix(p, a, b);
    assert (p + a)[|p|..] == a && (p + b)[|p|..] == b;
  }
}
