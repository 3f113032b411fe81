/** Captured output: bounded buffers, the outcome of an execution, and the NDJSON splitter. */
module Streams {
  import opened Bytes
  import W = Workflow

  function Concat(chunks: seq<Data>): Data {
    if chunks == [] then [] else Concat(chunks[..|chunks| - 1]) + chunks[|chunks| - 1]
  }

  /** The last max elements. */
  function Tail(s: Data, max: nat): (t: Data)
    ensures |t| == if |s| <= max then |s| else max
    ensures t == s[|s| - |t|..]
  {
    if |s| <= max then s else s[|s| - max..]
  }

  lemma TailOfTail(s: Data, p: Data, max: nat)
    ensures Tail(Tail(s, max) + p, max) == Tail(s + p, max)
  {
    var t, d := Tail(s, max), |s| - |Tail(s, max)|;
    hide Tail;
    DropThenAppend(s, d, p);
    DropTwice(s + p, d, |t + p| - |Tail(t + p, max)|);
  }

  lemma DropThenAppend(s: Data, d: nat, p: Data)
    requires d <= |s|
    ensures s[d..] + p == (s + p)[d..]
  {
  }

  lemma DropTwice(s: Data, i: nat, j: nat)
    requires i + j <= |s|
    ensures s[i..][j..] == s[i + j..]
  {
  }

  /** Stores up to max bytes; a write that would exceed it is dropped and raises a flag. max <= 0 means unlimited. */
  class CappedBuffer {
    var buf: Data
    var done: bool
    const max: int
    ghost var written: Data

    /** Whatever the chunking, the flag says whether the stream was too long, and below the cap nothing is lost. */
    ghost predicate Valid()
      reads this
    {
      && (done <==> max > 0 && |written| > max)
      && (!done ==> buf == written)
      && |buf| <= |written|
      && (max > 0 ==> |buf| <= max)
    }

    constructor (max: int)
      ensures Valid() && this.max == max && written == []
    {
      this.max := max;
      buf, done, written := [], false, [];
    }

    method Write(p: Data) returns (n: nat)
      requires Valid()
      modifies this
      ensures Valid() && written == old(written) + p && n == |p|
    {
      written := written + p;
      if max > 0 && |buf| + |p| > max {
        done := true;
      } else {
        buf := buf + p;
      }
      n := |p|;
    }

    method WriteAll(chunks: seq<Data>)
      requires Valid()
      modifies this
      ensures Valid() && written == old(written) + Concat(chunks)
    {
      for i := 0 to |chunks|
        invariant Valid() && written == old(written) + Concat(chunks[..i])
      {
        var _ := Write(chunks[i]);
        assert chunks[..i + 1][..i] == chunks[..i];
      }
      assert chunks[..|chunks|] == chunks;
    }
  }

  /** Keeps the last max bytes written. */
  class TailBuffer {
    var buf: Data
    const max: nat
    ghost var written: Data

    ghost predicate Valid()
      reads this
    {
      buf == Tail(written, max)
    }

    constructor (max: nat)
      ensures Valid() && this.max == max && written == []
    {
      this.max := max;
      buf, written := [], [];
    }

    method Write(p: Data)
      requires Valid()
      modifies this
      ensures Valid() && written == old(written) + p
    {
      TailOfTail(written, p, max);
      written := written + p;
      buf := buf + p;
      if |buf| > max {
        buf := buf[|buf| - max..];
      }
    }

    method WriteAll(chunks: seq<Data>)
      requires Valid()
      modifies this
      ensures Valid() && written == old(written) + Concat(chunks)
    {
      for i := 0 to |chunks|
        invariant Valid() && written == old(written) + Concat(chunks[..i])
      {
        Write(chunks[i]);
        assert chunks[..i + 1][..i] == chunks[..i];
      }
      assert chunks[..|chunks|] == chunks;
    }
  }

  const STDERR_TAIL_SIZE := 8192

  /** Which arm of Execute's select won, and what waiting for the child then reported. */
  datatype Ended =
    | Exited(waitFailed: bool)
    | ContextDone(deadline: bool, waitFailed: bool)
    | CapExceeded

  datatype Verdict = Succeeded | TimedOut | Cancelled | ExitFailed | Overflowed

  datatype Captured = Captured(stdout: Data, stderrTail: Data, verdict: Verdict)

  /** Waiting for the child reports an error; killing it over the cap counts as one. */
  predicate WaitFailed(ended: Ended) {
    match ended
    case Exited(failed) => failed
    case ContextDone(_, failed) => failed
    case CapExceeded => true
  }

  /**
   * Runs the bookkeeping of one execution. Success means the whole stdout stream was captured and was within
   * the cap, however the child split its writes; overflow past the cap never succeeds.
   */
  method Execute(cap: int, stdout: seq<Data>, stderr: seq<Data>, ended: Ended, cancelled: bool) returns (r: Captured)
    requires ended.ContextDone? ==> cancelled
    ensures r.verdict.Succeeded? ==> r.stdout == Concat(stdout) && (cap > 0 ==> |r.stdout| <= cap)
    ensures cap > 0 && |Concat(stdout)| > cap ==> !r.verdict.Succeeded?
    ensures r.stderrTail == Tail(Concat(stderr), STDERR_TAIL_SIZE)
    ensures r.verdict.Succeeded? <==>
      (ended == Exited(false) || ended == ContextDone(false, false)) && !(cap > 0 && |Concat(stdout)| > cap)
    ensures r.verdict.TimedOut? <==> ended.ContextDone? && ended.deadline
    ensures r.verdict.Cancelled? <==> cancelled && !r.verdict.TimedOut? && WaitFailed(ended)
    ensures r.verdict.ExitFailed? <==> !cancelled && WaitFailed(ended)
    ensures r.verdict.Overflowed? <==> !r.verdict.TimedOut? && !WaitFailed(ended) && cap > 0 && |Concat(stdout)| > cap
    ensures cap <= 0 || |Concat(stdout)| <= cap ==> r.stdout == Concat(stdout)
  {
    var out := new CappedBuffer(cap);
    var err := new TailBuffer(STDERR_TAIL_SIZE);
    out.WriteAll(stdout);
    err.WriteAll(stderr);
    assert [] + Concat(stdout) == Concat(stdout) && [] + Concat(stderr) == Concat(stderr);
    var timedOut, waitFailed := false, false;
    match ended {
      case Exited(failed) =>
        waitFailed := failed;
      case ContextDone(deadline, failed) =>
        timedOut := deadline;
        waitFailed := failed;
      case CapExceeded =>
        waitFailed := true;
    }
    var verdict :=
      if timedOut then TimedOut
      else if waitFailed && cancelled then Cancelled
      else if waitFailed then ExitFailed
      else if out.done then Overflowed
      else Succeeded;
    r := Captured(out.buf, err.buf, verdict);
  }

  // NDJSON.

  const NEWLINE: byte := 10

  /** bytes.Split on newlines: always at least one piece. */
  function Split(s: Data): (pieces: seq<Data>)
    ensures pieces != []
  {
    if s == [] then [[]]
    else
      var rest := Split(s[1..]);
      if s[0] == NEWLINE then [[]] + rest
      else [[s[0]] + rest[0]] + rest[1..]
  }

  function Join(pieces: seq<Data>): Data
    requires pieces != []
  {
    if |pieces| == 1 then pieces[0] else pieces[0] + [NEWLINE] + Join(pieces[1..])
  }

  /** Splitting loses nothing and cuts at every newline. */
  lemma {:induction false} SplitJoin(s: Data)
    ensures Join(Split(s)) == s
    ensures forall i | 0 <= i < |Split(s)| :: NEWLINE !in Split(s)[i]
  {
    if s != [] {
      SplitJoin(s[1..]);
      var rest := Split(s[1..]);
      if s[0] == NEWLINE {
        assert ([[]] + rest)[1..] == rest;
        assert Join(Split(s)) == [] + [NEWLINE] + Join(rest);
      } else {
        var pieces := Split(s);
        assert pieces[1..] == rest[1..];
        assert Join(pieces) == [s[0]] + Join(rest);
      }
    }
  }

  // The UTF-8 forms of unicode.IsSpace.

  predicate Space1(a: byte) {
    9 <= a <= 13 || a == 32
  }

  predicate Space2(a: byte, b: byte) {
    a == 0xC2 && (b == 0x85 || b == 0xA0)
  }

  predicate Space3(a: byte, b: byte, c: byte) {
    || (a == 0xE1 && b == 0x9A && c == 0x80)
    || (a == 0xE2 && b == 0x80 && (0x80 <= c <= 0x8A || c == 0xA8 || c == 0xA9 || c == 0xAF))
    || (a == 0xE2 && b == 0x81 && c == 0x9F)
    || (a == 0xE3 && b == 0x80 && c == 0x80)
  }

  /** How many bytes of white space s starts with: one rune or none. */
  function LeadingSpace(s: Data): (n: nat)
    ensures n <= |s|
  {
    if |s| >= 1 && Space1(s[0]) then 1
    else if |s| >= 2 && Space2(s[0], s[1]) then 2
    else if |s| >= 3 && Space3(s[0], s[1], s[2]) then 3
    else 0
  }

  function TrailingSpace(s: Data): (n: nat)
    ensures n <= |s|
  {
    var k := |s|;
    if k >= 1 && Space1(s[k - 1]) then 1
    else if k >= 2 && Space2(s[k - 2], s[k - 1]) then 2
    else if k >= 3 && Space3(s[k - 3], s[k - 2], s[k - 1]) then 3
    else 0
  }

  function TrimLeft(s: Data): (t: Data)
    ensures |t| <= |s| && t == s[|s| - |t|..] && LeadingSpace(t) == 0
  {
    if LeadingSpace(s) == 0 then s else TrimLeft(s[LeadingSpace(s)..])
  }

  function TrimRight(s: Data): (t: Data)
    ensures t <= s && TrailingSpace(t) == 0
  {
    if TrailingSpace(s) == 0 then s else TrimRight(s[..|s| - TrailingSpace(s)])
  }

  function Trim(s: Data): (t: Data)
    ensures |t| <= |s|
  {
    TrimRight(TrimLeft(s))
  }

  /** The payloads of some lines: trimmed, blanks left out, in order. */
  function Payloads(lines: seq<Data>): seq<Data> {
    if lines == [] then []
    else
      var last := Trim(lines[|lines| - 1]);
      Payloads(lines[..|lines| - 1]) + if last == [] then [] else [last]
  }

  datatype Parsed = Lines(payloads: seq<Data>) | BadLine(number: nat)

  /** All payloads in order, or nothing at all. */
  function Parse(valid: Data -> bool, stdout: Data): Option<seq<Data>> {
    var payloads := Payloads(Split(stdout));
    if forall p | p in payloads :: valid(p) then Some(payloads) else None
  }

  /** Succeeds with precisely the payloads, or names the first line that is neither blank nor JSON. */
  method ParseNDJSON(valid: Data -> bool, stdout: Data) returns (r: Parsed)
    ensures r.Lines? ==> Parse(valid, stdout) == Some(r.payloads)
    ensures r.BadLine? ==> Parse(valid, stdout) == None
    ensures r.BadLine? ==> 1 <= r.number <= |Split(stdout)|
    ensures r.BadLine? ==> Trim(Split(stdout)[r.number - 1]) != [] && !valid(Trim(Split(stdout)[r.number - 1]))
    ensures r.BadLine? ==> forall p | p in Payloads(Split(stdout)[..r.number - 1]) :: valid(p)
  {
    var out: seq<Data> := [];
    var lines := Split(stdout);
    for i := 0 to |lines|
      invariant out == Payloads(lines[..i])
      invariant forall p | p in out :: valid(p)
    {
      var line := Trim(lines[i]);
      PayloadsStep(lines, i);
      if line == [] {
        continue;
      }
      if !valid(line) {
        PayloadsPrefix(lines, i + 1);
        assert line in Payloads(lines[..i + 1]);
        return BadLine(i + 1);
      }
      out := out + [line];
    }
    assert lines[..|lines|] == lines;
    return Lines(out);
  }

  lemma ParseIs(valid: Data -> bool, stdout: Data)
    ensures Parse(valid, stdout).Some? ==> Parse(valid, stdout).value == Payloads(Split(stdout))
  {
  }

  /** Every piece of the output that is not blank is JSON. */
  predicate AllJson(valid: Data -> bool, stdout: Data) {
    forall i | 0 <= i < |Split(stdout)| :: Trim(Split(stdout)[i]) == [] || valid(Trim(Split(stdout)[i]))
  }

  /** Some piece comes to this once it is trimmed. */
  predicate Holds(lines: seq<Data>, p: Data) {
    exists i | 0 <= i < |lines| :: Trim(lines[i]) == p
  }

  lemma HoldsNext(lines: seq<Data>, p: Data)
    requires lines != []
    ensures Holds(lines, p) <==> Holds(lines[..|lines| - 1], p) || Trim(lines[|lines| - 1]) == p
  {
    hide Trim;
    var n := |lines| - 1;
    if Holds(lines, p) && Trim(lines[n]) != p {
      var i :| 0 <= i < |lines| && Trim(lines[i]) == p;
      assert lines[..n][i] == lines[i];
    }
    if Holds(lines[..n], p) {
      var i :| 0 <= i < n && Trim(lines[..n][i]) == p;
      assert Trim(lines[i]) == p;
    }
  }

  /** Payloads are the trimmed pieces that are not blank. */
  lemma {:induction false} PayloadsAre(lines: seq<Data>, p: Data)
    ensures p in Payloads(lines) <==> p != [] && Holds(lines, p)
  {
    hide Trim;
    if lines != [] {
      HoldsNext(lines, p);
      hide Holds;
      PayloadsAre(lines[..|lines| - 1], p);
    }
  }

  /** The output parses exactly when each piece of it that is not blank is JSON. */
  lemma ParsesIfAllJson(valid: Data -> bool, stdout: Data)
    ensures Parse(valid, stdout).Some? <==> AllJson(valid, stdout)
  {
    hide Trim;
    hide Split;
    var lines := Split(stdout);
    hide Payloads;
    if AllJson(valid, stdout) {
      forall p | p in Payloads(lines) ensures valid(p) {
        PayloadsAre(lines, p);
        var i :| 0 <= i < |lines| && Trim(lines[i]) == p;
      }
    } else {
      var i :| 0 <= i < |lines| && Trim(lines[i]) != [] && !valid(Trim(lines[i]));
      PayloadsAre(lines, Trim(lines[i]));
    }
  }

  /** Line by line and in order: with one line's payload, this determines them all. */
  lemma {:induction false} PayloadsAppend(a: seq<Data>, b: seq<Data>)
    ensures Payloads(a + b) == Payloads(a) + Payloads(b)
    decreases |b|
  {
    hide Trim;
    if b == [] {
      assert a + b == a;
    } else {
      var n := |b| - 1;
      PayloadsAppend(a, b[..n]);
      assert (a + b)[..|a + b| - 1] == a + b[..n];
    }
  }

  lemma PayloadOfLine(line: Data)
    ensures Payloads([line]) == if Trim(line) == [] then [] else [Trim(line)]
  {
    assert [line][..0] == [];
  }

  lemma PayloadsStep(lines: seq<Data>, i: nat)
    requires i < |lines|
    ensures Payloads(lines[..i + 1]) == Payloads(lines[..i]) + if Trim(lines[i]) == [] then [] else [Trim(lines[i])]
  {
    assert lines[..i + 1][..i] == lines[..i];
  }

  lemma {:induction false} PayloadsPrefix(lines: seq<Data>, i: nat)
    requires i <= |lines|
    ensures Payloads(lines[..i]) <= Payloads(lines)
    decreases |lines| - i
  {
    if i == |lines| {
      assert lines[..i] == lines;
    } else {
      assert lines[..i + 1][..i] == lines[..i];
      PayloadsPrefix(lines, i + 1);
    }
  }

  function Length(lines: seq<Data>): nat {
    if lines == [] then 0 else Length(lines[..|lines| - 1]) + |lines[|lines| - 1]|
  }

  lemma {:induction false} LengthCons(piece: Data, lines: seq<Data>)
    ensures Length([piece] + lines) == |piece| + Length(lines)
  {
    if lines == [] {
      assert [piece] + lines == [piece];
      assert Length([piece][..0]) == 0;
    } else {
      var n := |lines|;
      assert ([piece] + lines)[..n] == [piece] + lines[..n - 1];
      LengthCons(piece, lines[..n - 1]);
    }
  }

  lemma {:induction false} SplitLength(s: Data)
    ensures Length(Split(s)) + |Split(s)| == |s| + 1
  {
    if s == [] {
      assert Split(s) == [[]] + [];
      LengthCons([], []);
    } else {
      SplitLength(s[1..]);
      var rest := Split(s[1..]);
      if s[0] == NEWLINE {
        LengthCons([], rest);
      } else {
        LengthCons([s[0]] + rest[0], rest[1..]);
        LengthCons(rest[0], rest[1..]);
        assert rest == [rest[0]] + rest[1..];
      }
    }
  }

  lemma {:induction false} PayloadsShort(lines: seq<Data>)
    ensures 2 * |Payloads(lines)| <= Length(lines) + |lines|
  {
    if lines != [] {
      PayloadsShort(lines[..|lines| - 1]);
    }
  }

  /** A stream of n bytes carries at most (n + 1) / 2 payloads. */
  lemma PayloadBound(stdout: Data)
    ensures 2 * |Payloads(Split(stdout))| <= |stdout| + 1
  {
    SplitLength(stdout);
    PayloadsShort(Split(stdout));
  }

  /** A payload neither starts nor ends with white space. */
  lemma TrimIsTight(s: Data)
    ensures LeadingSpace(Trim(s)) == 0 && TrailingSpace(Trim(s)) == 0
  {
    TrimIsRight(s);
    hide *;
    FrontStays(TrimLeft(s), Trim(s));
  }

  lemma FrontStays(t: Data, u: Data)
    requires u <= t && LeadingSpace(t) == 0
    ensures LeadingSpace(u) == 0
  {
  }

  /** White space and nothing else, read from the front, */
  predicate Spaces(s: Data) {
    s == [] || (LeadingSpace(s) > 0 && Spaces(s[LeadingSpace(s)..]))
  }

  /** or from the back. */
  predicate SpacesBack(s: Data) {
    s == [] || (TrailingSpace(s) > 0 && SpacesBack(s[..|s| - TrailingSpace(s)]))
  }

  /** What trimming takes off the front is white space, */
  lemma {:induction false} TrimmedLeft(s: Data, k: nat)
    requires k == |s| - |TrimLeft(s)|
    ensures Spaces(s[..k])
  {
    var n := LeadingSpace(s);
    if n == 0 {
      NoSpaces(s);
    } else {
      TrimmedLeft(s[n..], k - n);
      hide TrimLeft;
      hide LeadingSpace;
      hide Spaces;
      SpaceThenSpaces(s, n, k);
    }
  }

  lemma NoSpaces(s: Data)
    ensures Spaces(s[..0]) && SpacesBack(s[|s|..])
  {
  }

  lemma SpaceThenSpaces(s: Data, n: nat, k: nat)
    requires 0 < n == LeadingSpace(s) && n <= k <= |s| && Spaces(s[n..][..k - n])
    ensures Spaces(s[..k])
  {
    assert s[..k][n..] == s[n..][..k - n];
  }

  /** and off the back. */
  lemma {:induction false} TrimmedRight(s: Data)
    ensures SpacesBack(s[|TrimRight(s)|..])
  {
    var n, t := TrailingSpace(s), TrimRight(s);
    if n == 0 {
      NoSpaces(s);
    } else {
      assert t == TrimRight(s[..|s| - n]);
      hide TrimRight;
      hide TrailingSpace;
      hide SpacesBack;
      TrimmedRight(s[..|s| - n]);
      SpacesThenSpace(s, n, |t|);
    }
  }

  lemma SpacesThenSpace(s: Data, n: nat, k: nat)
    requires 0 < n == TrailingSpace(s) && k <= |s| - n && SpacesBack(s[..|s| - n][k..])
    ensures SpacesBack(s[k..])
  {
    var t := s[k..];
    assert t[..|t| - n] == s[..|s| - n][k..];
  }

  /** Trimming takes white space off both ends and nothing else; that none is left there is TrimIsTight. */
  lemma TrimTakesSpace(s: Data)
    ensures var t, u := TrimLeft(s), Trim(s);
      |t| <= |s| && t == s[|s| - |t|..] && u <= t && Spaces(s[..|s| - |t|]) && SpacesBack(t[|u|..])
  {
    hide *;
    TrimmedLeft(s, |s| - |TrimLeft(s)|);
    TrimmedRight(TrimLeft(s));
    TrimIsRight(s);
  }

  lemma TrimIsRight(s: Data)
    ensures Trim(s) == TrimRight(TrimLeft(s))
  {
  }

  // White space is what Unicode calls so.

  /** The code points of the White_Space property. */
  predicate White(point: nat) {
    || 9 <= point <= 13 || point == 32 || point == 0x85 || point == 0xA0 || point == 0x1680
    || 0x2000 <= point <= 0x200A || point == 0x2028 || point == 0x2029 || point == 0x202F || point == 0x205F
    || point == 0x3000
  }

  /** The encoding of section 3 of RFC 3629. */
  function Utf8(point: nat): Data
    requires point < 0x110000
  {
    if point < 0x80 then [point as byte]
    else if point < 0x800 then [(0xC0 + point / 64) as byte, (0x80 + point % 64) as byte]
    else if point < 0x10000 then
      [(0xE0 + point / 4096) as byte, (0x80 + point / 64 % 64) as byte, (0x80 + point % 64) as byte]
    else
      [(0xF0 + point / 262144) as byte, (0x80 + point / 4096 % 64) as byte, (0x80 + point / 64 % 64) as byte,
       (0x80 + point % 64) as byte]
  }

  /** A text starts with white space exactly when its first code point is some, and then with all of its bytes. */
  lemma LeadingSpaceIsWhite(point: nat, rest: Data)
    requires point < 0x110000
    ensures LeadingSpace(Utf8(point) + rest) == if White(point) then |Utf8(point)| else 0
  {
    var u := Utf8(point);
    var s := u + rest;
    assert s[0] == u[0];
    if point >= 0x80 {
      assert s[1] == u[1];
    }
    if point >= 0x800 {
      assert s[2] == u[2];
    }
  }

  /** And it ends with white space exactly when its last code point is some. */
  lemma TrailingSpaceIsWhite(front: Data, point: nat)
    requires point < 0x110000
    ensures TrailingSpace(front + Utf8(point)) == if White(point) then |Utf8(point)| else 0
  {
    var u := Utf8(point);
    var s := front + u;
    assert s[|s| - 1] == u[|u| - 1];
    if point >= 0x80 {
      assert s[|s| - 2] == u[|u| - 2];
    }
    if point >= 0x800 {
      assert s[|s| - 3] == u[|u| - 3];
    }
  }

  /** Validation agrees on what is blank. */
  lemma BlankIsWhite(c: char)
    ensures W.Space(c) <==> White(c as int)
  {
  }
}
