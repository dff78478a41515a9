/** The API proxy's rewriting of a request head (the message format of section 2.1 of RFC 9112), so that the server
    closes the connection after its response (the `close` option of section 9.6 of RFC 9112). */
module ProxyHead {

  newtype byte = b: int | 0 <= b < 256
  type Bytes = seq<byte>

  const CRLF: Bytes := [13, 10]
  /** `connection:` */
  const NAME: Bytes := [99, 111, 110, 110, 101, 99, 116, 105, 111, 110, 58]
  /** `Connection: close` */
  const CLOSE: Bytes := [67, 111, 110, 110, 101, 99, 116, 105, 111, 110, 58, 32, 99, 108, 111, 115, 101]

  // ----- Bytes ---------------------------------------------------------------------------------------------

  predicate CrlfAt(s: Bytes, i: int) { 0 <= i && i + 1 < |s| && s[i] == 13 && s[i + 1] == 10 }

  /** A CRLF right after a CRLF. */
  predicate EndAt(s: Bytes, i: int) { CrlfAt(s, i) && CrlfAt(s, i + 2) }

  ghost predicate NoCrlf(s: Bytes) { forall i :: !CrlfAt(s, i) }

  /** Where the first CRLF is, from `i` on, or -1. */
  function FindCrlf(s: Bytes, i: nat): (k: int)
    ensures k == -1 || (i <= k && CrlfAt(s, k))
    ensures forall j :: i <= j && (k == -1 || j < k) ==> !CrlfAt(s, j)
    decreases |s| - i
  {
    if i + 1 >= |s| then -1 else if CrlfAt(s, i) then i else FindCrlf(s, i + 1)
  }

  /** Where the first empty line is, from `i` on, or -1. */
  function FindEnd(s: Bytes, i: nat): (k: int)
    ensures k == -1 || (i <= k && EndAt(s, k))
    ensures forall j :: i <= j && (k == -1 || j < k) ==> !EndAt(s, j)
    decreases |s| - i
  {
    if i + 3 >= |s| then -1 else if EndAt(s, i) then i else FindEnd(s, i + 1)
  }

  function Lower(b: byte): byte { if 65 <= b <= 90 then b + 32 else b }

  predicate IsConnection(line: Bytes) {
    |line| >= |NAME| && forall i :: 0 <= i < |NAME| ==> Lower(line[i]) == NAME[i]
  }

  /** A text as bytes; what is not ASCII becomes a question mark. */
  function Ascii(s: string): Bytes {
    seq(|s|, i requires 0 <= i < |s| => if s[i] as int < 128 then s[i] as int as byte else 63)
  }

  /** What is matched, and what is added. */
  lemma Spelled()
    ensures CRLF == Ascii("\r\n") && CLOSE == Ascii("Connection: close") && NAME == Ascii("connection:")
  {
  }

  /** A line is dropped exactly if it begins with `connection:`, in whatever case. */
  lemma DroppedInAnyCase(line: Bytes)
    ensures IsConnection(line) <==>
      |line| >= 11
      && forall i :: 0 <= i < 11 ==> line[i] == Ascii("connection:")[i] || line[i] == Ascii("CONNECTION:")[i]
  {
    Spelled();
    assert Ascii("CONNECTION:") == [67, 79, 78, 78, 69, 67, 84, 73, 79, 78, 58];
    var low, high := Ascii("connection:"), Ascii("CONNECTION:");
    forall i | 0 <= i < 11 && i < |line| ensures Lower(line[i]) == NAME[i] <==> line[i] == low[i] || line[i] == high[i] {
      assert low[i] == NAME[i];
    }
  }

  /** `split(b"\r\n")`. */
  function Split(s: Bytes): (lines: seq<Bytes>)
    ensures |lines| > 0
    decreases |s|
  {
    var k := FindCrlf(s, 0);
    if k == -1 then [s] else [s[..k]] + Split(s[k + 2..])
  }

  /** `b"\r\n".join(lines)`. */
  function Join(lines: seq<Bytes>): Bytes {
    if lines == [] then [] else if |lines| == 1 then lines[0] else lines[0] + CRLF + Join(lines[1..])
  }

  function Kept(lines: seq<Bytes>): seq<Bytes> {
    if lines == [] then []
    else (if IsConnection(lines[0]) then [] else [lines[0]]) + Kept(lines[1..])
  }

  /** All other lines are kept, as often as they are there. */
  lemma {:induction false} OthersAreKept(lines: seq<Bytes>, line: Bytes)
    ensures multiset(Kept(lines))[line] == if IsConnection(line) then 0 else multiset(lines)[line]
  {
    if lines != [] {
      OthersAreKept(lines[1..], line);
      assert lines == [lines[0]] + lines[1..];
    }
  }

  // ----- The rewriting -------------------------------------------------------------------------------------

  function Head(header: Bytes): Bytes { Join(Kept(Split(header))) + CRLF + CLOSE + CRLF + CRLF }

  /** `request` has been read; what is sent upstream for it. */
  function Rewrite(request: Bytes): Bytes {
    var k := FindEnd(request, 0);
    if k == -1 then Head(request) else Head(request[..k]) + request[k + 4..]
  }

  /** What comes behind the end of the head is sent on as it is. */
  lemma BodyIsKept(header: Bytes, body: Bytes)
    requires FindEnd(header + Ascii("\r\n\r\n") + body, 0) == |header|
    ensures Rewrite(header + Ascii("\r\n\r\n") + body) == Head(header) + body
  {
    var s := header + Ascii("\r\n\r\n") + body;
    assert s[..|header|] == header && s[|header| + 4..] == body;
  }

  // ----- Splitting and joining -----------------------------------------------------------------------------

  ghost predicate Lines(lines: seq<Bytes>) {
    |lines| > 0 && forall k :: 0 <= k < |lines| ==> NoCrlf(lines[k])
  }

  lemma {:induction false} JoinOfSplit(s: Bytes)
    ensures Join(Split(s)) == s
    decreases |s|
  {
    var k := FindCrlf(s, 0);
    if k != -1 {
      JoinOfSplit(s[k + 2..]);
      JoinMore(s[..k], Split(s[k + 2..]));
      CutAtCrlf(s, k);
    }
  }

  lemma JoinMore(a: Bytes, lines: seq<Bytes>)
    requires lines != []
    ensures Join([a] + lines) == a + CRLF + Join(lines)
  {
    assert ([a] + lines)[1..] == lines;
  }

  lemma CutAtCrlf(s: Bytes, k: nat)
    requires CrlfAt(s, k)
    ensures s == s[..k] + CRLF + s[k + 2..]
  {
  }

  lemma {:induction false} SplitIsLines(s: Bytes)
    ensures Lines(Split(s))
    decreases |s|
  {
    var k := FindCrlf(s, 0);
    if k == -1 {
      assert forall i :: CrlfAt(s, i) ==> i >= 0;
    } else {
      SplitIsLines(s[k + 2..]);
      forall i ensures !CrlfAt(s[..k], i) {
        assert CrlfAt(s[..k], i) ==> CrlfAt(s, i);
      }
    }
  }

  lemma FirstCrlf(a: Bytes, t: Bytes)
    requires NoCrlf(a)
    ensures FindCrlf(a + CRLF + t, 0) == |a|
  {
    var s := a + CRLF + t;
    assert CrlfAt(s, |a|);
    forall j | 0 <= j < |a| ensures !CrlfAt(s, j) {
      if j + 1 < |a| {
        assert !CrlfAt(a, j);
      }
    }
  }

  lemma {:induction false} SplitOfJoin(lines: seq<Bytes>)
    requires Lines(lines)
    ensures Split(Join(lines)) == lines
  {
    var s := Join(lines);
    if |lines| > 1 {
      FirstCrlf(lines[0], Join(lines[1..]));
      SplitOfJoin(lines[1..]);
      assert s[..|lines[0]|] == lines[0] && s[|lines[0]| + 2..] == Join(lines[1..]);
    } else {
      assert FindCrlf(s, 0) == -1 by {
        assert !CrlfAt(s, FindCrlf(s, 0));
      }
    }
  }

  lemma {:induction false} JoinEnds(lines: seq<Bytes>, last: Bytes)
    requires |lines| > 0
    ensures Join(lines + [last]) == Join(lines) + CRLF + last
  {
    if |lines| > 1 {
      JoinEnds(lines[1..], last);
      assert (lines + [last])[1..] == lines[1..] + [last];
    } else {
      assert (lines + [last])[1..] == [last];
    }
  }

  // ----- Where the head ends -------------------------------------------------------------------------------

  ghost predicate NoGaps(lines: seq<Bytes>) { forall k :: 1 <= k < |lines| ==> lines[k] != [] }

  /** The joined lines, ended by an empty one: it is the first such place exactly if no line but the first is empty. */
  lemma {:induction false} LinesEndOnce(lines: seq<Bytes>)
    requires Lines(lines)
    ensures EndAt(Join(lines) + CRLF + CRLF, |Join(lines)|)
    ensures (forall i :: i < |Join(lines)| ==> !EndAt(Join(lines) + CRLF + CRLF, i)) <==> NoGaps(lines)
  {
    var a, s := lines[0], Join(lines) + CRLF + CRLF;
    if |lines| == 1 {
      forall i | i < |a| ensures !EndAt(s, i) {
        assert !CrlfAt(a, i);
      }
    } else {
      var rest := lines[1..];
      var t := Join(rest) + CRLF + CRLF;
      LinesEndOnce(rest);
      assert s == a + CRLF + t;
      assert forall i :: i >= |a| + 2 ==> (EndAt(s, i) <==> EndAt(t, i - |a| - 2));
      assert forall i :: i < |a| && CrlfAt(s, i) ==> CrlfAt(a, i);
      assert !CrlfAt(s, |a| + 1);
      assert EndAt(s, |a|) <==> CrlfAt(t, 0);
      StartsWithCrlf(rest);
      assert NoGaps(lines) <==> rest[0] != [] && NoGaps(rest);
      if rest[0] != [] {
        assert forall i :: i < |t| - 4 ==> (EndAt(t, i) ==> EndAt(s, i + |a| + 2));
      }
    }
  }

  lemma StartsWithCrlf(lines: seq<Bytes>)
    requires Lines(lines)
    ensures CrlfAt(Join(lines) + CRLF + CRLF, 0) <==> lines[0] == []
  {
    var t := Join(lines) + CRLF + CRLF;
    if lines[0] != [] {
      assert !CrlfAt(lines[0], 0);
    }
  }

  // ----- The rewritten head --------------------------------------------------------------------------------

  /** The lines of a rewritten head before the `Connection` line. */
  function Lead(header: Bytes): (lines: seq<Bytes>)
    ensures |lines| > 0
  {
    var kept := Kept(Split(header));
    if kept == [] then [[]] else kept
  }

  lemma {:induction false} KeptIsLines(lines: seq<Bytes>)
    requires forall k :: 0 <= k < |lines| ==> NoCrlf(lines[k])
    ensures forall k :: 0 <= k < |Kept(lines)| ==> NoCrlf(Kept(lines)[k]) && !IsConnection(Kept(lines)[k])
    ensures NoGaps(lines) ==> NoGaps(Kept(lines)) && (|lines| > 0 && IsConnection(lines[0]) ==> [] !in Kept(lines))
    ensures [] !in lines ==> [] !in Kept(lines)
  {
    if lines != [] {
      KeptIsLines(lines[1..]);
      assert NoGaps(lines) ==> [] !in lines[1..];
    }
  }

  lemma {:induction false} KeptIsKept(lines: seq<Bytes>)
    requires forall k :: 0 <= k < |lines| ==> !IsConnection(lines[k])
    ensures Kept(lines) == lines
  {
    if lines != [] {
      KeptIsKept(lines[1..]);
    }
  }

  lemma {:induction false} KeptJoins(xs: seq<Bytes>, ys: seq<Bytes>)
    ensures Kept(xs + ys) == Kept(xs) + Kept(ys)
  {
    if xs == [] {
      assert xs + ys == ys;
    } else {
      var first := if IsConnection(xs[0]) then [] else [xs[0]];
      KeptJoins(xs[1..], ys);
      assert (xs + ys)[0] == xs[0] && (xs + ys)[1..] == xs[1..] + ys;
      assert Kept(xs + ys) == first + (Kept(xs[1..]) + Kept(ys));
      assert Kept(xs) == first + Kept(xs[1..]);
    }
  }

  lemma CloseIsALine()
    ensures NoCrlf(CLOSE) && IsConnection(CLOSE) && CLOSE != []
  {
    assert forall i :: 0 <= i < |CLOSE| ==> CLOSE[i] != 13;
  }

  /** A rewritten head is the lines that do not start with `connection:`, in order, then one that says close, then the
      empty line. */
  lemma HeadIsLines(header: Bytes)
    ensures Lines(Lead(header) + [CLOSE])
    ensures Head(header) == Join(Lead(header) + [CLOSE]) + CRLF + CRLF
    ensures Kept(Lead(header)) == Lead(header)
    ensures NoGaps(Lead(header) + [CLOSE]) <==> NoGaps(Kept(Split(header)))
  {
    SplitIsLines(header);
    KeptIsLines(Split(header));
    KeptIsKept(Lead(header));
    CloseIsALine();
    JoinEnds(Lead(header), CLOSE);
    CloseIsNoGap(Lead(header));
  }

  lemma CloseIsNoGap(lines: seq<Bytes>)
    ensures NoGaps(lines + [CLOSE]) <==> NoGaps(lines)
    ensures NoCrlf(CLOSE) && (forall k :: 0 <= k < |lines| ==> NoCrlf(lines[k])) ==> Lines(lines + [CLOSE])
  {
    assert forall k :: 0 <= k < |lines| ==> (lines + [CLOSE])[k] == lines[k];
  }

  lemma ReadingItBack(header: Bytes)
    ensures var h := Head(header); var n := |h| - 4;
            n >= 0 && EndAt(h, n) && Split(h[..n]) == Lead(header) + [CLOSE]
            && CLOSE == Ascii("Connection: close") && IsConnection(CLOSE)
            && forall k :: 0 <= k < |Lead(header)| ==> !IsConnection(Lead(header)[k])
  {
    Spelled();
    HeadIsLines(header);
    SplitOfJoin(Lead(header) + [CLOSE]);
    LinesEndOnce(Lead(header) + [CLOSE]);
    CloseIsALine();
    SplitIsLines(header);
    KeptIsLines(Split(header));
    var h := Head(header);
    assert h[..|h| - 4] == Join(Lead(header) + [CLOSE]);
  }

  /** Its first empty line is its last four bytes exactly if no kept line but the first is empty. */
  lemma HeadEndsOnce(header: Bytes)
    ensures FindEnd(Head(header), 0) == |Head(header)| - 4 <==> NoGaps(Kept(Split(header)))
  {
    HeadIsLines(header);
    LinesEndOnce(Lead(header) + [CLOSE]);
    var h := Head(header);
    var n := |h| - 4;
    assert n == |Join(Lead(header) + [CLOSE])|;
    if NoGaps(Kept(Split(header))) {
      assert EndAt(h, n) && forall i :: 0 <= i < n ==> !EndAt(h, i);
    } else {
      var i :| i < n && EndAt(h, i);
    }
  }

  /** A header found by its empty line has no such gap. */
  lemma SeparatedHasNoGaps(request: Bytes)
    requires FindEnd(request, 0) != -1
    ensures var header := request[..FindEnd(request, 0)]; NoGaps(Split(header)) && NoGaps(Kept(Split(header)))
  {
    var k := FindEnd(request, 0);
    var header := request[..k];
    var s := header + CRLF + CRLF;
    assert s == request[..k + 4];
    SplitIsLines(header);
    JoinOfSplit(header);
    LinesEndOnce(Split(header));
    forall i | i < k ensures !EndAt(s, i) {
      assert i >= 0 ==> (EndAt(s, i) ==> EndAt(request, i));
    }
    KeptIsLines(Split(header));
  }

  function Header(request: Bytes): Bytes {
    var k := FindEnd(request, 0);
    if k == -1 then request else request[..k]
  }

  /** Rewriting what has been rewritten changes nothing, except when the limit was reached right after a line end:
      then the empty line that follows ends the head too early, and the rest is not seen. */
  lemma RewritingTwice(request: Bytes)
    ensures Rewrite(Rewrite(request)) == Rewrite(request) <==> NoGaps(Kept(Split(Header(request))))
    ensures FindEnd(request, 0) != -1 ==> NoGaps(Kept(Split(Header(request))))
  {
    var k := FindEnd(request, 0);
    if k != -1 {
      SeparatedHasNoGaps(request);
      RewritingHeadTwice(request[..k], request[k + 4..]);
    } else if NoGaps(Kept(Split(request))) {
      RewritingHeadTwice(request, []);
      assert Head(request) + [] == Head(request);
    } else {
      GapsGrow(request);
    }
  }

  lemma GapIsLast(header: Bytes)
    requires FindEnd(header, 0) == -1 && !NoGaps(Kept(Split(header)))
    ensures var lines := Split(header); var n := |lines| - 1;
            n > 0 && lines[n] == [] && NoGaps(lines[..n]) && Kept(lines) == Kept(lines[..n]) + [[]]
  {
    var lines := Split(header);
    var n := |lines| - 1;
    SplitIsLines(header);
    KeptIsLines(lines);
    assert n > 0;
    BeforeLastNoGaps(header);
    KeptJoins(lines[..n], [lines[n]]);
    assert lines[..n] + [lines[n]] == lines && [lines[n]][1..] == [];
  }

  lemma BeforeLastNoGaps(header: Bytes)
    requires FindEnd(header, 0) == -1 && |Split(header)| > 1
    ensures NoGaps(Split(header)[..|Split(header)| - 1])
  {
    var lines := Split(header);
    var n := |lines| - 1;
    var before := Join(lines[..n]);
    SplitIsLines(header);
    JoinOfSplit(header);
    JoinEnds(lines[..n], lines[n]);
    assert lines[..n] + [lines[n]] == lines;
    LinesEndOnce(lines[..n]);
    forall i | i < |before| ensures !EndAt(before + CRLF + CRLF, i) {
      EndsInside(before, lines[n], i);
    }
  }

  lemma EndsInside(s: Bytes, t: Bytes, i: int)
    requires i < |s|
    ensures EndAt(s + CRLF + CRLF, i) ==> EndAt(s + CRLF + t, i)
  {
  }

  lemma GapsGrow(header: Bytes)
    requires FindEnd(header, 0) == -1 && !NoGaps(Kept(Split(header)))
    ensures |Rewrite(Head(header))| > |Head(header)|
  {
    var lines := Split(header);
    var kept := Kept(lines[..|lines| - 1]);
    GapIsLast(header);
    SplitIsLines(header);
    KeptIsLines(lines[..|lines| - 1]);
    assert kept == [] ==> Kept(lines) == [[]];
    GrowsAtGap(kept);
  }

  lemma GrowsAtGap(kept: seq<Bytes>)
    requires Lines(kept) && NoGaps(kept) && forall k :: 0 <= k < |kept| ==> !IsConnection(kept[k])
    ensures var head := Join(kept + [[]]) + CRLF + CLOSE + CRLF + CRLF; |Rewrite(head)| > |head|
  {
    var more := CLOSE + CRLF + CRLF;
    JoinEnds(kept, []);
    assert Join(kept + [[]]) + CRLF + CLOSE + CRLF + CRLF == Join(kept) + CRLF + CRLF + more;
    EndOfKept(kept, more);
    HeadOfKept(kept);
    EndCutsOff(Join(kept), more);
  }

  lemma EndOfKept(kept: seq<Bytes>, more: Bytes)
    requires Lines(kept) && NoGaps(kept)
    ensures FindEnd(Join(kept) + CRLF + CRLF + more, 0) == |Join(kept)|
  {
    LinesEndOnce(kept);
    FirstEndStays(Join(kept) + CRLF + CRLF, more);
  }

  lemma EndCutsOff(h: Bytes, more: Bytes)
    requires FindEnd(h + CRLF + CRLF + more, 0) == |h|
    ensures |Rewrite(h + CRLF + CRLF + more)| == |Head(h)| + |more|
  {
    var s := h + CRLF + CRLF + more;
    assert s[..|h|] == h && |s[|h| + 4..]| == |more|;
  }

  lemma HeadOfKept(kept: seq<Bytes>)
    requires Lines(kept) && forall k :: 0 <= k < |kept| ==> !IsConnection(kept[k])
    ensures Head(Join(kept)) == Join(kept) + CRLF + CLOSE + CRLF + CRLF
  {
    SplitOfJoin(kept);
    KeptIsKept(kept);
  }

  lemma RewritingHeadTwice(header: Bytes, rest: Bytes)
    requires NoGaps(Kept(Split(header)))
    ensures Rewrite(Head(header) + rest) == Head(header) + rest
  {
    var h := Head(header);
    var n := |h| - 4;
    HeadEndsOnce(header);
    FirstEndStays(h, rest);
    ReadingItBack(header);
    HeadIsLines(header);
    CloseIsALine();
    KeptJoins(Lead(header), [CLOSE]);
    assert Kept([CLOSE]) == [] by { assert [CLOSE][1..] == []; }
    assert (h + rest)[..n] == h[..n] && (h + rest)[n + 4..] == rest;
    assert Kept(Split(h[..n])) == Lead(header);
    JoinEnds(Lead(header), CLOSE);
  }

  lemma FirstEndStays(s: Bytes, t: Bytes)
    requires FindEnd(s, 0) != -1
    ensures FindEnd(s + t, 0) == FindEnd(s, 0)
  {
    var k := FindEnd(s, 0);
    assert EndAt(s + t, k);
    forall i | 0 <= i < k ensures !EndAt(s + t, i) {
      assert EndAt(s + t, i) <==> EndAt(s, i);
    }
  }
}
