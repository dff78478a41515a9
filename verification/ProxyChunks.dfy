/** The API proxy's read loop: what upstream receives, and when it does not depend on how the client's bytes were cut
    into chunks. */
module ProxyChunks {
  import opened Wrappers
  import opened ProxyHead

  /** The most one `recv` returns, and the length of a request at which reading stops. */
  const RECV := 65536
  const LIMIT := 131072

  function Concat(chunks: seq<Bytes>): Bytes {
    if chunks == [] then [] else chunks[0] + Concat(chunks[1..])
  }

  /** Enough has been read to go on. */
  predicate Enough(request: Bytes) { FindEnd(request, 0) != -1 || |request| >= LIMIT }

  /** The head ends within the first `LIMIT` bytes. */
  predicate EndsInTime(s: Bytes) { FindEnd(s, 0) != -1 && FindEnd(s, 0) + 4 <= LIMIT }

  /** What upstream receives, if anything, when `request` has been read and `chunks` are still to come. */
  function Reading(request: Bytes, chunks: seq<Bytes>): Option<Bytes>
    decreases |chunks|
  {
    if Enough(request) then Some(Rewrite(request) + Concat(chunks))
    else if chunks == [] then None
    else Reading(request + chunks[0], chunks[1..])
  }

  function Upstream(chunks: seq<Bytes>): Option<Bytes> { Reading([], chunks) }

  /** `handle`, of a client that sends `chunks` and then no more. */
  method Handle(chunks: seq<Bytes>) returns (sent: Option<Bytes>)
    ensures sent == Upstream(chunks)
    ensures sent.None? <==> FindEnd(Concat(chunks), 0) == -1 && |Concat(chunks)| < 131072
    ensures EndsInTime(Concat(chunks)) ==> sent == Some(Rewrite(Concat(chunks)))
    ensures sent.Some? ==> exists n :: 0 <= n <= |chunks| && StopsFirst(chunks, n)
                                    && sent.value == Rewrite(Concat(chunks[..n])) + Concat(chunks[n..])
  {
    UpstreamIs(chunks);
    var request, i := [], 0;
    while !(FindEnd(request, 0) != -1 || |request| >= LIMIT)
      invariant 0 <= i <= |chunks| && Reading(request, chunks[i..]) == Upstream(chunks)
      decreases |chunks| - i
    {
      if i == |chunks| {
        return None;
      }
      ReadOn(request, chunks, i);
      request := request + chunks[i];
      i := i + 1;
    }
    sent := Relay(Rewrite(request), chunks, i);
    ghost var n := ReadingStops(chunks);
  }

  /** The head is sent, and then every chunk as it comes. */
  method Relay(head: Bytes, chunks: seq<Bytes>, from: nat) returns (sent: Option<Bytes>)
    requires from <= |chunks|
    ensures sent == Some(head + Concat(chunks[from..]))
  {
    var upstream, i := head, from;
    while i < |chunks|
      invariant from <= i <= |chunks| && upstream + Concat(chunks[i..]) == head + Concat(chunks[from..])
    {
      RelayOn(upstream, chunks, i);
      upstream := upstream + chunks[i];
      i := i + 1;
    }
    assert chunks[i..] == [] && upstream + [] == upstream;
    sent := Some(upstream);
  }

  /** The first `n` chunks have an end of a head or the length at which reading stops, and no fewer have. */
  ghost predicate StopsFirst(chunks: seq<Bytes>, n: nat)
    requires n <= |chunks|
  {
    && (FindEnd(Concat(chunks[..n]), 0) != -1 || |Concat(chunks[..n])| >= 131072)
    && forall m :: 0 <= m < n ==> FindEnd(Concat(chunks[..m]), 0) == -1 && |Concat(chunks[..m])| < 131072
  }

  /** The same for the chunks still to come. */
  ghost predicate StopsAfter(request: Bytes, chunks: seq<Bytes>, n: nat)
    requires n <= |chunks|
  {
    Enough(request + Concat(chunks[..n])) && forall m :: 0 <= m < n ==> !Enough(request + Concat(chunks[..m]))
  }

  lemma {:induction false} ReadsUpTo(request: Bytes, chunks: seq<Bytes>) returns (n: nat)
    requires Reading(request, chunks).Some?
    ensures n <= |chunks| && StopsAfter(request, chunks, n)
    ensures Reading(request, chunks) == Some(Rewrite(request + Concat(chunks[..n])) + Concat(chunks[n..]))
    decreases |chunks|
  {
    if Enough(request) {
      n := 0;
      assert request + Concat(chunks[..0]) == request;
    } else {
      var k := ReadsUpTo(request + chunks[0], chunks[1..]);
      n := k + 1;
      forall m | 0 < m <= |chunks| ensures request + Concat(chunks[..m]) == request + chunks[0] + Concat(chunks[1..][..m - 1]) {
        FirstOf(request, chunks, m);
      }
      assert request + Concat(chunks[..0]) == request && chunks[1..][k..] == chunks[n..];
    }
  }

  lemma FirstOf(request: Bytes, chunks: seq<Bytes>, m: nat)
    requires 0 < m <= |chunks|
    ensures request + Concat(chunks[..m]) == request + chunks[0] + Concat(chunks[1..][..m - 1])
  {
    assert chunks[..m][1..] == chunks[1..][..m - 1];
    Regroup(request, chunks[0], Concat(chunks[1..][..m - 1]));
  }

  lemma ReadingStops(chunks: seq<Bytes>) returns (n: nat)
    requires Upstream(chunks).Some?
    ensures n <= |chunks| && StopsFirst(chunks, n)
    ensures Upstream(chunks).value == Rewrite(Concat(chunks[..n])) + Concat(chunks[n..])
  {
    n := ReadsUpTo([], chunks);
    assert [] + Concat(chunks[..n]) == Concat(chunks[..n]);
    forall m | 0 <= m < n ensures !Enough(Concat(chunks[..m])) {
      assert [] + Concat(chunks[..m]) == Concat(chunks[..m]);
    }
  }

  lemma UpstreamIs(chunks: seq<Bytes>)
    ensures Upstream(chunks).None? <==> !Enough(Concat(chunks))
    ensures EndsInTime(Concat(chunks)) ==> Upstream(chunks) == Some(Rewrite(Concat(chunks)))
  {
    NoneMeansShort([], chunks);
    assert [] + Concat(chunks) == Concat(chunks);
    if EndsInTime(Concat(chunks)) {
      InTimeIsWhole([], chunks);
    }
  }

  lemma ReadOn(request: Bytes, chunks: seq<Bytes>, i: nat)
    requires !Enough(request) && i < |chunks|
    ensures Reading(request, chunks[i..]) == Reading(request + chunks[i], chunks[i + 1..])
  {
    assert chunks[i..][0] == chunks[i] && chunks[i..][1..] == chunks[i + 1..];
  }

  lemma RelayOn(upstream: Bytes, chunks: seq<Bytes>, i: nat)
    requires i < |chunks|
    ensures upstream + Concat(chunks[i..]) == upstream + chunks[i] + Concat(chunks[i + 1..])
  {
    assert chunks[i..][0] == chunks[i] && chunks[i..][1..] == chunks[i + 1..];
    assert upstream + (chunks[i] + Concat(chunks[i + 1..])) == upstream + chunks[i] + Concat(chunks[i + 1..]);
  }

  // ----- Streams for which the cutting does not matter -------------------------------------------------------

  lemma EnoughGrows(request: Bytes, more: Bytes)
    requires Enough(request)
    ensures Enough(request + more)
  {
    if FindEnd(request, 0) != -1 {
      FirstEndStays(request, more);
    }
  }

  lemma EnoughStays(request: Bytes, more: Bytes)
    requires Enough(request) && EndsInTime(request + more)
    ensures Rewrite(request + more) == Rewrite(request) + more
  {
    EndIsRead(request, more);
    FirstEndStays(request, more);
    var k := FindEnd(request, 0);
    SplitsAt(request, more, k);
    SplitsAt(request, more, k + 4);
    Regroup(Head(request[..k]), request[k + 4..], more);
  }

  lemma SplitsAt(a: Bytes, b: Bytes, k: nat)
    requires k <= |a|
    ensures (a + b)[..k] == a[..k] && (a + b)[k..] == a[k..] + b
  {
  }

  lemma Regroup(a: Bytes, b: Bytes, c: Bytes)
    ensures a + (b + c) == (a + b) + c
  {
  }

  lemma EndIsRead(request: Bytes, more: Bytes)
    requires Enough(request) && EndsInTime(request + more)
    ensures FindEnd(request, 0) != -1
  {
    var k := FindEnd(request + more, 0);
    assert EndAt(request + more, k);
    if |request| >= LIMIT {
      assert EndAt(request, k);
    }
  }

  lemma {:induction false} InTimeIsWhole(request: Bytes, chunks: seq<Bytes>)
    requires EndsInTime(request + Concat(chunks))
    ensures Reading(request, chunks) == Some(Rewrite(request + Concat(chunks)))
    decreases |chunks|
  {
    assert chunks == [] ==> request + Concat(chunks) == request;
    if Enough(request) {
      EnoughStays(request, Concat(chunks));
    } else if chunks != [] {
      assert request + Concat(chunks) == request + chunks[0] + Concat(chunks[1..]);
      InTimeIsWhole(request + chunks[0], chunks[1..]);
    }
  }

  lemma {:induction false} NoneMeansShort(request: Bytes, chunks: seq<Bytes>)
    ensures Reading(request, chunks).None? <==> !Enough(request + Concat(chunks))
    decreases |chunks|
  {
    if Enough(request) {
      EnoughGrows(request, Concat(chunks));
    } else if chunks == [] {
      assert request + [] == request;
    } else {
      assert request + Concat(chunks) == request + chunks[0] + Concat(chunks[1..]);
      NoneMeansShort(request + chunks[0], chunks[1..]);
    }
  }

  /** The chunks that `recv` can return for the stream `s`. */
  ghost predicate Cut(chunks: seq<Bytes>, s: Bytes) {
    Concat(chunks) == s && forall k :: 0 <= k < |chunks| ==> 0 < |chunks[k]| <= RECV
  }

  lemma {:induction false} AtTheLimit(request: Bytes, chunks: seq<Bytes>)
    requires |request + Concat(chunks)| == LIMIT && FindEnd(request + Concat(chunks), 0) == -1
    requires forall k :: 0 <= k < |chunks| ==> |chunks[k]| > 0
    ensures Reading(request, chunks) == Some(Rewrite(request + Concat(chunks)))
    decreases |chunks|
  {
    assert chunks == [] ==> request + Concat(chunks) == request;
    if Enough(request) {
      if FindEnd(request, 0) != -1 {
        FirstEndStays(request, Concat(chunks));
      }
      assert Concat(chunks) == [] && request + [] == request;
      assert Rewrite(request) + [] == Rewrite(request);
    } else if chunks != [] {
      assert request + Concat(chunks) == request + chunks[0] + Concat(chunks[1..]);
      AtTheLimit(request + chunks[0], chunks[1..]);
    }
  }

  // ----- Streams for which it does ---------------------------------------------------------------------------

  function Singles(s: Bytes): (chunks: seq<Bytes>)
    ensures Concat(chunks) == s && forall k :: 0 <= k < |chunks| ==> |chunks[k]| == 1
  {
    if s == [] then [] else
    assert [s[0]] + s[1..] == s;
    [[s[0]]] + Singles(s[1..])
  }

  /** Reading on while it is not enough. */
  lemma ReadOne(request: Bytes, chunk: Bytes, chunks: seq<Bytes>)
    requires !Enough(request)
    ensures Reading(request, [chunk] + chunks) == Reading(request + chunk, chunks)
  {
    assert ([chunk] + chunks)[1..] == chunks;
  }

  /** The same stream with the read loop stopping after `n` bytes, for an `n` that two or three chunks can add up to. */
  function StopAt(s: Bytes, n: nat): seq<Bytes>
    requires 2 < n <= |s|
  {
    [s[..n / 2 - 1]] + ([s[n / 2 - 1..n - 2]] + ([s[n - 2..n]] + Singles(s[n..])))
  }

  lemma ReadThree(a: Bytes, b: Bytes, c: Bytes, chunks: seq<Bytes>)
    requires !Enough([]) && !Enough(a) && !Enough(a + b) && Enough(a + b + c)
    ensures Upstream([a] + ([b] + ([c] + chunks))) == Some(Rewrite(a + b + c) + Concat(chunks))
    ensures Concat([a] + ([b] + ([c] + chunks))) == a + (b + (c + Concat(chunks)))
  {
    assert [] + a == a;
    ReadOne([], a, [b] + ([c] + chunks));
    ReadOne(a, b, [c] + chunks);
    ReadOne(a + b, c, chunks);
    ConcatOne(c, chunks);
    ConcatOne(b, [c] + chunks);
    ConcatOne(a, [b] + ([c] + chunks));
  }

  lemma StopsThere(s: Bytes, n: nat)
    requires LIMIT <= n <= LIMIT + 1 && n <= |s| && !EndsInTime(s)
    ensures Cut(StopAt(s, n), s) && Upstream(StopAt(s, n)) == Some(Rewrite(s[..n]) + s[n..])
  {
    var i, j := n / 2 - 1, n - 2;
    var a, b, c, rest := s[..i], s[i..j], s[j..n], Singles(s[n..]);
    TooEarly(s, 0);
    TooEarly(s, i);
    TooEarly(s, j);
    Pieces(s, i, j, n);
    ReadThree(a, b, c, rest);
    SmallEnough(a, b, c, rest);
  }

  lemma Pieces(s: Bytes, i: nat, j: nat, n: nat)
    requires i <= j <= n <= |s|
    ensures s[..i] + s[i..j] == s[..j] && s[..i] + s[i..j] + s[j..n] == s[..n] && s[..0] == []
    ensures s[..i] + (s[i..j] + (s[j..n] + s[n..])) == s
  {
  }

  lemma SmallEnough(a: Bytes, b: Bytes, c: Bytes, chunks: seq<Bytes>)
    requires 0 < |a| <= RECV && 0 < |b| <= RECV && 0 < |c| <= RECV
    requires forall k :: 0 <= k < |chunks| ==> 0 < |chunks[k]| <= RECV
    ensures var all := [a] + ([b] + ([c] + chunks)); forall k :: 0 <= k < |all| ==> 0 < |all[k]| <= RECV
  {
    var all := [a] + ([b] + ([c] + chunks));
    forall k | 0 <= k < |all| ensures 0 < |all[k]| <= RECV {
      if k >= 3 {
        assert all[k] == chunks[k - 3];
      }
    }
  }

  lemma ConcatOne(chunk: Bytes, chunks: seq<Bytes>)
    ensures Concat([chunk] + chunks) == chunk + Concat(chunks)
  {
    assert ([chunk] + chunks)[1..] == chunks;
  }

  lemma NoEndYet(s: Bytes, n: nat)
    requires n <= LIMIT && n <= |s| && !EndsInTime(s)
    ensures FindEnd(s[..n], 0) == -1
  {
    assert s[..n] + s[n..] == s;
    if FindEnd(s[..n], 0) != -1 {
      FirstEndStays(s[..n], s[n..]);
    }
  }

  lemma TooEarly(s: Bytes, n: nat)
    requires n < LIMIT && n <= |s| && !EndsInTime(s)
    ensures !Enough(s[..n])
  {
    NoEndYet(s, n);
  }

  // One byte more makes a difference, whatever the bytes are.

  const TAIL: Bytes := CRLF + CLOSE + CRLF + CRLF

  lemma HeadIs(h: Bytes)
    ensures Head(h) == Join(Kept(Split(h))) + TAIL && |TAIL| == 23 && TAIL[0] == 13 && TAIL[1] == 10
  {
    assert Head(h) == Join(Kept(Split(h))) + TAIL;
  }

  /** `J` is the kept lines joined: one more byte, in them or behind the end. */
  lemma TailShows(j: Bytes, x: byte)
    ensures (j + TAIL) + [x] != (j + [x]) + TAIL
  {
    var a, b := (j + TAIL) + [x], (j + [x]) + TAIL;
    assert a[|j|] == 13 && b[|j|] == x && a[|j| + 1] == 10 && b[|j| + 1] == 13;
  }

  function JoinLast(lines: seq<Bytes>, last: Bytes): Bytes { if lines == [] then last else Join(lines) + CRLF + last }

  lemma JoinLastIs(lines: seq<Bytes>, last: Bytes)
    ensures Join(lines + [last]) == JoinLast(lines, last)
  {
    if lines == [] {
      assert [] + [last] == [last];
    } else {
      JoinEnds(lines, last);
    }
  }

  /** The last line of `p`, and those before it. */
  lemma LastLine(p: Bytes) returns (lines: seq<Bytes>, last: Bytes)
    ensures Split(p) == lines + [last] && Lines(lines + [last]) && p == JoinLast(lines, last)
    ensures Kept(Split(p)) == Kept(lines) + (if IsConnection(last) then [] else [last])
  {
    lines, last := Split(p)[..|Split(p)| - 1], Split(p)[|Split(p)| - 1];
    assert lines + [last] == Split(p);
    SplitIsLines(p);
    JoinOfSplit(p);
    JoinLastIs(lines, last);
    KeptLast(lines, last);
  }

  lemma KeptLast(lines: seq<Bytes>, last: Bytes)
    ensures Kept(lines + [last]) == Kept(lines) + (if IsConnection(last) then [] else [last])
  {
    KeptJoins(lines, [last]);
    assert [last][1..] == [];
  }

  /** Lines that join to a stream are its lines. */
  lemma LinesAre(s: Bytes, lines: seq<Bytes>, last: Bytes)
    requires Lines(lines + [last]) && s == JoinLast(lines, last)
    ensures Split(s) == lines + [last]
    ensures Kept(Split(s)) == Kept(lines) + (if IsConnection(last) then [] else [last])
  {
    JoinLastIs(lines, last);
    SplitOfJoin(lines + [last]);
    KeptLast(lines, last);
  }

  lemma NoCrlfIn(lines: seq<Bytes>, last: Bytes, other: Bytes)
    requires Lines(lines + [last]) && NoCrlf(other)
    ensures Lines(lines + [other])
  {
    assert forall k :: 0 <= k < |lines| ==> (lines + [other])[k] == (lines + [last])[k];
  }

  /** The byte belongs to the last line. */
  lemma LineGrown(p: Bytes, x: byte)
    requires |p| > 0 && !(x == 10 && p[|p| - 1] == 13)
    ensures Head(p) + [x] != Head(p + [x])
  {
    var lines, last := LastLine(p);
    var kept, grown := Kept(lines), last + [x];
    assert NoCrlf(last) by { assert (lines + [last])[|lines|] == last; }
    assert NoCrlf(grown) by {
      forall i ensures !CrlfAt(grown, i) {
        assert CrlfAt(grown, i) && i + 1 < |last| ==> CrlfAt(last, i);
      }
    }
    NoCrlfIn(lines, last, grown);
    assert p + [x] == JoinLast(lines, grown);
    LinesAre(p + [x], lines, grown);
    HeadIs(p);
    HeadIs(p + [x]);
    if IsConnection(last) {
      assert IsConnection(grown);
      assert |Head(p) + [x]| == |Head(p + [x])| + 1;
    } else {
      JoinLastIs(kept, last);
      if IsConnection(grown) {
        assert kept + [] == kept;
        assert |Join(kept)| <= |JoinLast(kept, last)|;
      } else {
        JoinLastIs(kept, grown);
        assert JoinLast(kept, grown) == JoinLast(kept, last) + [x];
        TailShows(JoinLast(kept, last), x);
      }
    }
  }

  /** A line feed ends the last line. */
  lemma LineEnds(p: Bytes) returns (lines: seq<Bytes>, line: Bytes)
    requires |p| > 0 && p[|p| - 1] == 13
    ensures Lines(lines + [line + [13]]) && p == JoinLast(lines, line + [13])
    ensures Kept(Split(p)) == Kept(lines) + (if IsConnection(line) then [] else [line + [13]])
  {
    var last;
    lines, last := LastLine(p);
    LastByte(lines, last);
    line := last[..|last| - 1];
    DropLast(last);
    SameName(line);
  }

  lemma DropLast(last: Bytes)
    requires |last| > 0 && last[|last| - 1] == 13
    ensures last == last[..|last| - 1] + [13]
  {
  }

  lemma LastByte(lines: seq<Bytes>, last: Bytes)
    requires var p := JoinLast(lines, last); |p| > 0 && p[|p| - 1] == 13
    ensures |last| > 0 && last[|last| - 1] == 13
  {
  }

  lemma EndedLines(lines: seq<Bytes>, line: Bytes)
    requires Lines(lines + [line + [13]])
    ensures Lines(lines + [line] + [[]])
  {
    assert NoCrlf(line + [13]) by { assert (lines + [line + [13]])[|lines|] == line + [13]; }
    assert NoCrlf(line) by { assert forall i :: CrlfAt(line, i) ==> CrlfAt(line + [13], i); }
    NoCrlfIn(lines, line + [13], line);
    assert forall i :: !CrlfAt([], i);
    var all := lines + [line] + [[]];
    assert forall k :: 0 <= k < |lines + [line]| ==> all[k] == (lines + [line])[k];
  }

  lemma LineCompletes(lines: seq<Bytes>, line: Bytes, p: Bytes)
    requires Lines(lines + [line + [13]]) && p == JoinLast(lines, line + [13])
    ensures Kept(Split(p + [10])) == Kept(lines) + (if IsConnection(line) then [] else [line]) + [[]]
  {
    EndedLines(lines, line);
    JoinLastIs(lines, line);
    assert p + [10] == JoinLast(lines + [line], []);
    LinesAre(p + [10], lines + [line], []);
    KeptLast(lines, line);
  }

  lemma LineCompleted(p: Bytes)
    requires |p| > 0 && p[|p| - 1] == 13
    ensures Head(p) + [10] != Head(p + [10])
  {
    var lines, line := LineEnds(p);
    LineCompletes(lines, line, p);
    HeadIs(p);
    HeadIs(p + [10]);
    if IsConnection(line) {
      DroppedLine(Kept(lines));
    } else {
      KeptLine(Kept(lines), line);
    }
  }

  lemma DroppedLine(kept: seq<Bytes>)
    ensures |Join(kept + [[]])| != |Join(kept)| + 1 && kept + [] == kept
  {
    JoinLastIs(kept, []);
  }

  lemma KeptLine(kept: seq<Bytes>, line: Bytes)
    ensures Join(kept + [line + [13]]) + TAIL + [10] != Join(kept + [line] + [[]]) + TAIL
  {
    JoinLastIs(kept, line);
    JoinLastIs(kept, line + [13]);
    JoinLastIs(kept + [line], []);
    var j := JoinLast(kept, line + [13]);
    assert JoinLast(kept + [line], []) == j + [10];
    TailShows(j, 10);
  }

  lemma SameName(line: Bytes)
    ensures IsConnection(line + [13]) <==> IsConnection(line)
  {
    assert Lower((line + [13])[|line|]) == 13 && NAME[|NAME| - 1] == 58;
    assert forall i :: 0 <= i < |line| ==> (line + [13])[i] == line[i];
  }

  /** The byte completes the end of the head. */
  lemma EndCompleted(p: Bytes, x: byte)
    requires FindEnd(p, 0) == -1 && FindEnd(p + [x], 0) != -1
    ensures Head(p) + [x] != Rewrite(p + [x])
  {
    var k := FindEnd(p + [x], 0);
    assert EndAt(p + [x], k) && (k + 4 <= |p| ==> EndAt(p, k));
    var h := p[..k];
    EndPieces(p, x, k);
    HalfEnded(h);
    JoinLastIs(Kept(Split(h)), [13]);
    HeadIs(p);
    HeadIs(h);
    assert Head(h) + [] == Head(h);
  }

  lemma EndPieces(p: Bytes, x: byte, k: nat)
    requires k + 4 == |p| + 1 && EndAt(p + [x], k)
    ensures p == p[..k] + CRLF + [13] && (p + [x])[..k] == p[..k] && (p + [x])[k + 4..] == []
  {
    assert forall i :: 0 <= i < |p| ==> (p + [x])[i] == p[i];
  }

  lemma HalfEnded(h: Bytes)
    ensures Kept(Split(h + CRLF + [13])) == Kept(Split(h)) + [[13]]
  {
    assert forall i :: !CrlfAt([13], i);
    SplitIsLines(h);
    JoinOfSplit(h);
    assert Lines(Split(h) + [[13]]);
    LinesAre(h + CRLF + [13], Split(h), [13]);
  }

  /** Cutting before and after a byte that reading would stop at gives two results. */
  lemma OneMoreByteShows(p: Bytes, x: byte)
    requires FindEnd(p, 0) == -1 && |p| > 0
    ensures Head(p) + [x] != Rewrite(p + [x])
  {
    if FindEnd(p + [x], 0) != -1 {
      EndCompleted(p, x);
    } else if x == 10 && p[|p| - 1] == 13 {
      LineCompleted(p);
    } else {
      LineGrown(p, x);
    }
  }

  // ----- A request that the rewriting breaks -----------------------------------------------------------------

  function Filled(n: nat): Bytes { seq(n, _ => 97) }

  /** A request line that fills the limit, line end included: its head is rewritten to one that ends too early. */
  lemma FullRequestHasAGap() returns (chunks: seq<Bytes>, s: Bytes)
    ensures Cut(chunks, s) && Upstream(chunks) == Some(Rewrite(s)) && FindEnd(s, 0) == -1
    ensures !NoGaps(Kept(Split(Header(s)))) && FindEnd(Head(s), 0) != |Head(s)| - 4
    ensures Rewrite(Rewrite(s)) != Rewrite(s)
  {
    var line := Filled(LIMIT - 2);
    s := line + CRLF;
    assert FindEnd(s, 0) == -1 by {
      assert forall i :: !EndAt(s, i);
    }
    assert s == JoinLast([line], []);
    assert Lines([line] + [[]]) by { assert forall i :: !CrlfAt(line, i) && !CrlfAt([], i); }
    LinesAre(s, [line], []);
    NotAConnection(line);
    assert Kept(Split(s))[1] == [];
    HeadEndsOnce(s);
    RewritingTwice(s);
    chunks := [s[..RECV]] + [s[RECV..]];
    TwoChunks(s);
    assert [] + s == s;
    AtTheLimit([], chunks);
  }

  lemma NotAConnection(line: Bytes)
    requires |line| > 0 && line[0] == 97
    ensures !IsConnection(line) && Kept([line]) == [line] && Kept([line]) + [[]] == [line, []] && !IsConnection([])
  {
    assert Lower(line[0]) != NAME[0];
    assert [line][1..] == [];
  }

  lemma TwoChunks(s: Bytes)
    requires |s| == 2 * RECV
    ensures Cut([s[..RECV]] + [s[RECV..]], s)
  {
    ConcatOne(s[..RECV], [s[RECV..]]);
    ConcatOne(s[RECV..], []);
    assert [s[RECV..]] + [] == [s[RECV..]] && s[RECV..] + [] == s[RECV..] && s[..RECV] + s[RECV..] == s;
  }

  // ----- Exactly when ----------------------------------------------------------------------------------------

  /** However `recv` cuts the stream, upstream receives the same. */
  ghost predicate CutsAgree(s: Bytes) { forall c, d :: Cut(c, s) && Cut(d, s) ==> Upstream(c) == Upstream(d) }

  /** That is so exactly for the streams whose head ends within the limit and those that are not longer. */
  lemma CutsDoNotMatter(s: Bytes)
    ensures CutsAgree(s) <==> (FindEnd(s, 0) != -1 && FindEnd(s, 0) + 4 <= 131072) || |s| <= 131072
  {
    if EndsInTime(s) || |s| <= LIMIT {
      forall c | Cut(c, s) ensures Upstream(c) == if Enough(s) then Some(Rewrite(s)) else None {
        assert [] + Concat(c) == s;
        NoneMeansShort([], c);
        if EndsInTime(s) {
          InTimeIsWhole([], c);
        } else if |s| == LIMIT {
          assert FindEnd(s, 0) == -1;
          AtTheLimit([], c);
        }
      }
    } else {
      LongStreamsDisagree(s);
    }
  }

  lemma LongStreamsDisagree(s: Bytes)
    requires !EndsInTime(s) && |s| > LIMIT
    ensures Cut(StopAt(s, LIMIT), s) && Cut(StopAt(s, LIMIT + 1), s)
    ensures Upstream(StopAt(s, LIMIT)) != Upstream(StopAt(s, LIMIT + 1))
  {
    StopsThere(s, LIMIT);
    StopsThere(s, LIMIT + 1);
    NoEndYet(s, LIMIT);
    OneByteFurther(s, LIMIT);
    OneMoreByteShowsOn(s[..LIMIT], s[LIMIT], s[LIMIT + 1..]);
  }

  lemma OneByteFurther(s: Bytes, n: nat)
    requires n < |s|
    ensures s[n..] == [s[n]] + s[n + 1..] && s[..n + 1] == s[..n] + [s[n]]
  {
  }

  lemma OneMoreByteShowsOn(p: Bytes, x: byte, rest: Bytes)
    requires FindEnd(p, 0) == -1 && |p| > 0
    ensures Rewrite(p) + ([x] + rest) != Rewrite(p + [x]) + rest
  {
    OneMoreByteShows(p, x);
    Regroup(Rewrite(p), [x], rest);
    if (Rewrite(p) + [x]) + rest == Rewrite(p + [x]) + rest {
      SameEnding(Rewrite(p) + [x], Rewrite(p + [x]), rest);
    }
  }

  lemma SameEnding(a: Bytes, b: Bytes, rest: Bytes)
    requires a + rest == b + rest
    ensures a == b
  {
    assert |a| == |b| && (a + rest)[..|a|] == a && (b + rest)[..|b|] == b;
  }
}
