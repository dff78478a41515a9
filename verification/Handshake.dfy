/** The API server's wait for the READY messages of restored EngineCores. */
module Handshake {
  import opened Wrappers

  datatype Response = Response(maxModelLen: int, numGpuBlocks: int, blockSize: int, kvTokens: Option<int>,
                               statsAddress: Option<nat>)

  /** Empty: an engine that has nothing to say.  Garbled: decoding it raises. */
  datatype Payload = Empty | Ready(response: Response) | Garbled

  /** A received message, or one that is not an identity and a payload. */
  datatype Message = Message(identity: nat, payload: Payload) | Malformed

  datatype Settings = Settings(maxModelLen: int, numGpuBlocks: Option<int>, blockSize: int, kvTokens: Option<int>,
                               statsAddress: Option<nat>)

  /** TimedOut: no further message came in time. */
  datatype Ending = Finished(engines: nat) | TimedOut | Raised

  // ----- One response --------------------------------------------------------------------------------------

  function Or<T>(a: Option<T>, b: Option<T>): Option<T> { if a.Some? then a else b }

  function Applied(s: Settings, r: Response): Settings {
    Settings(if r.maxModelLen < s.maxModelLen then r.maxModelLen else s.maxModelLen,
             Some((if s.numGpuBlocks.Some? then s.numGpuBlocks.value else 0) + r.numGpuBlocks),
             r.blockSize, Or(s.kvTokens, r.kvTokens), Or(s.statsAddress, r.statsAddress))
  }

  /** Its addresses for statistics agree, or the assertion fails once the rest is applied. */
  predicate Agrees(s: Settings, r: Response) {
    s.statsAddress.Some? && r.statsAddress.Some? ==> s.statsAddress == r.statsAddress
  }

  /** Applying it raises. */
  predicate Unusable(s: Settings, m: Message) {
    m.Message? && (m.payload.Garbled? || (m.payload.Ready? && !Agrees(s, m.payload.response)))
  }

  function AppliedAll(s: Settings, rs: seq<Response>): Settings {
    if rs == [] then s else Applied(AppliedAll(s, rs[..|rs| - 1]), rs[|rs| - 1])
  }

  function Responses(ms: seq<Message>): seq<Response> {
    if ms == [] then []
    else
      var m := ms[|ms| - 1];
      Responses(ms[..|ms| - 1]) + if m.Message? && m.payload.Ready? then [m.payload.response] else []
  }

  lemma OneMore(s: Settings, ms: seq<Message>, m: Message)
    requires m.Message?
    ensures var before := AppliedAll(s, Responses(ms));
            AppliedAll(s, Responses(ms + [m])) == if m.payload.Ready? then Applied(before, m.payload.response) else before
  {
    assert (ms + [m])[..|ms|] == ms;
    if m.payload.Ready? {
      assert (Responses(ms) + [m.payload.response])[..|Responses(ms)|] == Responses(ms);
    } else {
      assert Responses(ms) + [] == Responses(ms);
    }
  }

  // ----- Which messages are handled ------------------------------------------------------------------------

  /** Whether a message counts, while `expected` are awaited: one of them, or anyone if one is left. */
  predicate Counts(expected: set<nat>, m: Message) { m.Message? && (m.identity in expected || |expected| == 1) }

  function Left(expected: set<nat>, m: Message): set<nat>
    requires Counts(expected, m)
  {
    if m.identity in expected then expected - {m.identity} else {}
  }

  function Handled(expected: set<nat>, ms: seq<Message>): seq<Message> {
    if expected == {} || ms == [] then []
    else if Counts(expected, ms[0]) then [ms[0]] + Handled(Left(expected, ms[0]), ms[1..])
    else Handled(expected, ms[1..])
  }

  function Awaited(expected: set<nat>, ms: seq<Message>): set<nat> {
    if expected == {} || ms == [] then expected
    else if Counts(expected, ms[0]) then Awaited(Left(expected, ms[0]), ms[1..])
    else Awaited(expected, ms[1..])
  }

  function Identities(s: seq<nat>): set<nat> { set i | 0 <= i < |s| :: s[i] }

  function Senders(ms: seq<Message>): set<nat> { set i | 0 <= i < |ms| && ms[i].Message? :: ms[i].identity }

  lemma OneMoreSender(ms: seq<Message>, m: Message)
    requires m.Message?
    ensures Senders(ms + [m]) == Senders(ms) + {m.identity}
  {
    var all := ms + [m];
    assert all[|ms|] == m;
    forall e | e in Senders(ms) ensures e in Senders(all) {
      var i :| 0 <= i < |ms| && ms[i].Message? && ms[i].identity == e;
      assert all[i] == ms[i];
    }
  }

  /** An address for statistics in `m` is the one in use. */
  predicate Heeded(m: Message, s: Settings) {
    m.Message? && m.payload.Ready? && m.payload.response.statsAddress.Some? ==> m.payload.response.statsAddress == s.statsAddress
  }

  ghost predicate AllHeeded(ms: seq<Message>, s: Settings) { forall m :: m in ms ==> Heeded(m, s) }

  lemma OneMoreHeeded(ms: seq<Message>, m: Message, s: Settings)
    requires AllHeeded(ms, s) && m.Message?
    ensures !m.payload.Ready? ==> AllHeeded(ms + [m], s)
    ensures m.payload.Ready? && Agrees(s, m.payload.response) ==> AllHeeded(ms + [m], Applied(s, m.payload.response))
  {
  }

  class Client {
    var coreEngines: seq<nat>
    var coreEngine: nat
    var settings: Settings
    ghost var handled: seq<Message>

    /** `apply_ready_response_async`. */
    method Apply(payload: Payload) returns (ok: bool)
      modifies this`settings
      ensures ok <==>
        || payload.Empty?
        || (payload.Ready? && (old(settings).statsAddress.None? || payload.response.statsAddress.None?
                               || payload.response.statsAddress == old(settings).statsAddress))
      ensures settings == if payload.Ready? then Applied(old(settings), payload.response) else old(settings)
    {
      if payload.Empty? {
        return true;
      }
      if payload.Garbled? {
        return false;
      }
      var r := payload.response;
      ok := Agrees(settings, r);
      settings := settings.(maxModelLen := if r.maxModelLen < settings.maxModelLen then r.maxModelLen else settings.maxModelLen);
      var blocks := if settings.numGpuBlocks.Some? then settings.numGpuBlocks.value else 0;
      settings := settings.(numGpuBlocks := Some(blocks + r.numGpuBlocks), blockSize := r.blockSize);
      if settings.kvTokens.None? {
        settings := settings.(kvTokens := r.kvTokens);
      }
      if settings.statsAddress.None? {
        settings := settings.(statsAddress := r.statsAddress);
      }
    }

    /** A message that counts is handled; `start` are the settings before the first one. */
    method Take(m: Message, ghost start: Settings) returns (ok: bool)
      requires m.Message? && settings == AppliedAll(start, Responses(handled)) && AllHeeded(handled, settings)
      modifies this`settings, this`handled
      ensures handled == old(handled) + [m] && Senders(handled) == Senders(old(handled)) + {m.identity}
      ensures settings == AppliedAll(start, Responses(handled)) && (ok ==> AllHeeded(handled, settings))
      ensures !ok ==> Unusable(AppliedAll(start, Responses(handled[..|handled| - 1])), m)
    {
      OneMore(start, handled, m);
      OneMoreSender(handled, m);
      OneMoreHeeded(handled, m, settings);
      handled := handled + [m];
      assert handled[..|handled| - 1] == old(handled);
      ok := Apply(m.payload);
    }

    /** `wait_for_enginecore_ready`, while `messages` arrive and then none. */
    method WaitForReady(messages: seq<Message>) returns (ending: Ending)
      modifies this
      ensures ending.Finished? ==>
        && handled == Handled(Identities(old(coreEngines)), messages)
        && Awaited(Identities(old(coreEngines)), messages) == {}
        && ending.engines == |coreEngines|
        && forall e :: e in coreEngines ==> e in Senders(handled)
      ensures ending.TimedOut? ==> Awaited(Identities(old(coreEngines)), messages) != {}
      ensures ending.Raised? ==>
        || (exists i :: 0 <= i < |messages| && messages[i].Malformed?)
        || (handled != [] && Unusable(AppliedAll(old(settings), Responses(handled[..|handled| - 1])), handled[|handled| - 1]))
      ensures !ending.Raised? ==> settings == AppliedAll(old(settings), Responses(handled))
      ensures (coreEngines == old(coreEngines) && coreEngine == old(coreEngine)) ||
              (handled != [] && handled[|handled| - 1].Message?
               && coreEngines == [handled[|handled| - 1].identity] && coreEngine == handled[|handled| - 1].identity)
      ensures !ending.Raised? ==> AllHeeded(handled, settings)
    {
      var expected := set i | 0 <= i < |coreEngines| :: coreEngines[i];
      ghost var all := expected;
      handled := [];
      var i := 0;
      while expected != {}
        invariant 0 <= i <= |messages|
        invariant handled + Handled(expected, messages[i..]) == Handled(all, messages)
        invariant Awaited(expected, messages[i..]) == Awaited(all, messages)
        invariant forall e :: e in coreEngines ==> e in expected || e in Senders(handled)
        invariant settings == AppliedAll(old(settings), Responses(handled))
        invariant (coreEngines == old(coreEngines) && coreEngine == old(coreEngine)) ||
                  (expected == {} && handled != [] && handled[|handled| - 1].Message? &&
                   coreEngines == [handled[|handled| - 1].identity] && coreEngine == handled[|handled| - 1].identity)
        invariant AllHeeded(handled, settings)
        decreases |messages| - i
      {
        if i == |messages| {
          assert messages[i..] == [];
          return TimedOut;
        }
        var m := messages[i];
        assert messages[i..][0] == m && messages[i..][1..] == messages[i + 1..];
        i := i + 1;
        if m.Malformed? {
          return Raised;
        }
        if m.identity !in expected {
          if |expected| != 1 {
            continue;
          }
          coreEngines, coreEngine, expected := [m.identity], m.identity, {m.identity};
        }
        var ok := Take(m, old(settings));
        if !ok {
          return Raised;
        }
        expected := expected - {m.identity};
      }
      ending := Finished(|coreEngines|);
    }
  }

  // ----- What the wait achieves ----------------------------------------------------------------------------

  /** As many messages are handled as there were engines. */
  lemma {:induction false} OneMessageEach(expected: set<nat>, ms: seq<Message>)
    requires Awaited(expected, ms) == {}
    ensures |Handled(expected, ms)| == |expected|
  {
    if expected != {} && ms != [] {
      if Counts(expected, ms[0]) {
        OneMessageEach(Left(expected, ms[0]), ms[1..]);
      } else {
        OneMessageEach(expected, ms[1..]);
      }
    }
  }

  /** Every message that counts comes from an engine awaited at the time: nobody stands in for the last one. */
  predicate NoStandIn(expected: set<nat>, ms: seq<Message>) {
    if expected == {} || ms == [] then true
    else if Counts(expected, ms[0]) then ms[0].identity in expected && NoStandIn(Left(expected, ms[0]), ms[1..])
    else NoStandIn(expected, ms[1..])
  }

  /** The senders of the messages handled are the engines there were exactly if nobody stood in. */
  lemma {:induction false} EveryEngineAnswered(expected: set<nat>, ms: seq<Message>)
    requires Awaited(expected, ms) == {}
    ensures Senders(Handled(expected, ms)) == expected <==> NoStandIn(expected, ms)
  {
    var hs := Handled(expected, ms);
    if expected != {} && ms != [] {
      if Counts(expected, ms[0]) {
        var left := Left(expected, ms[0]);
        var rest := Handled(left, ms[1..]);
        EveryEngineAnswered(left, ms[1..]);
        OneMessageEach(left, ms[1..]);
        SendersSplit(ms[0], rest);
        if ms[0].identity in expected {
          assert expected == left + {ms[0].identity};
          SendersAreFew(rest);
        } else {
          assert ms[0].identity in Senders(hs);
        }
      } else {
        EveryEngineAnswered(expected, ms[1..]);
      }
    }
  }

  lemma SendersSplit(m: Message, ms: seq<Message>)
    requires m.Message?
    ensures Senders([m] + ms) == {m.identity} + Senders(ms)
  {
    var all := [m] + ms;
    forall e | e in {m.identity} + Senders(ms) ensures e in Senders(all) {
      if e == m.identity {
        assert all[0].identity == e;
      } else {
        var i :| 0 <= i < |ms| && ms[i].Message? && ms[i].identity == e;
        assert all[i + 1].identity == e;
      }
    }
  }

  lemma {:induction false} SendersAreFew(ms: seq<Message>)
    ensures |Senders(ms)| <= |ms|
  {
    if ms != [] {
      var n := |ms| - 1;
      SendersAreFew(ms[..n]);
      if ms[n].Message? {
        assert Senders(ms) == Senders(ms[..n]) + {ms[n].identity};
      } else {
        assert Senders(ms) == Senders(ms[..n]);
      }
    } else {
      assert Senders(ms) == {};
    }
  }

  /** With two engines, a second READY of the first stands in for the other, which is not waited for. */
  lemma DuplicateStandsIn(first: nat, other: nat, p: Payload)
    requires first != other
    ensures var ms := [Message(first, p), Message(first, p)];
            Awaited({first, other}, ms) == {} && other !in Senders(Handled({first, other}, ms))
  {
    var m := Message(first, p);
    assert [m, m][1..] == [m] && [m][1..] == [];
    assert Left({first, other}, m) == {other} && Counts({other}, m) && Left({other}, m) == {};
    assert Handled({other}, [m]) == [m] && Awaited({other}, [m]) == Awaited({}, []);
    assert Handled({first, other}, [m, m]) == [m, m];
  }

  // ----- What is applied -----------------------------------------------------------------------------------

  ghost predicate IsMinimum(least: int, start: int, rs: seq<Response>) {
    && least <= start && (forall i :: 0 <= i < |rs| ==> least <= rs[i].maxModelLen)
    && (least == start || exists i :: 0 <= i < |rs| && least == rs[i].maxModelLen)
  }

  function Blocks(rs: seq<Response>): int {
    if rs == [] then 0 else rs[0].numGpuBlocks + Blocks(rs[1..])
  }

  lemma {:induction false} BlocksAppend(rs: seq<Response>, r: Response)
    ensures Blocks(rs + [r]) == Blocks(rs) + r.numGpuBlocks
  {
    if rs == [] {
      assert (rs + [r])[1..] == [];
    } else {
      BlocksAppend(rs[1..], r);
      assert (rs + [r])[1..] == rs[1..] + [r];
    }
  }

  /** The value there was, or else the first one offered. */
  ghost predicate IsFirst<T(!new)>(a: Option<T>, start: Option<T>, offers: seq<Option<T>>) {
    if start.Some? then a == start
    else if a.None? then forall i :: 0 <= i < |offers| ==> offers[i].None?
    else exists i :: 0 <= i < |offers| && offers[i] == a && forall j :: 0 <= j < i ==> offers[j].None?
  }

  lemma FirstOfMore<T(!new)>(a: Option<T>, start: Option<T>, offers: seq<Option<T>>, b: Option<T>)
    requires IsFirst(a, start, offers)
    ensures IsFirst(Or(a, b), start, offers + [b])
  {
    var more := offers + [b];
    assert forall i :: 0 <= i < |offers| ==> more[i] == offers[i];
    if start.None? && a.Some? {
      var i :| 0 <= i < |offers| && offers[i] == a && forall j :: 0 <= j < i ==> offers[j].None?;
      assert more[i] == a;
    } else if start.None? && b.Some? {
      assert more[|offers|] == b;
    }
  }

  /** The shortest context any engine offers, all their cache blocks together, the block size of the last, and the first
      value anyone has for the other two. */
  lemma {:induction false} SettingsAfter(s: Settings, rs: seq<Response>)
    ensures IsMinimum(AppliedAll(s, rs).maxModelLen, s.maxModelLen, rs)
    ensures rs != [] ==>
      AppliedAll(s, rs).numGpuBlocks == Some((if s.numGpuBlocks.Some? then s.numGpuBlocks.value else 0) + Blocks(rs))
    ensures rs != [] ==> AppliedAll(s, rs).blockSize == rs[|rs| - 1].blockSize
    ensures rs == [] ==> AppliedAll(s, rs) == s
    ensures IsFirst(AppliedAll(s, rs).kvTokens, s.kvTokens, seq(|rs|, i requires 0 <= i < |rs| => rs[i].kvTokens))
    ensures IsFirst(AppliedAll(s, rs).statsAddress, s.statsAddress, seq(|rs|, i requires 0 <= i < |rs| => rs[i].statsAddress))
  {
    if rs != [] {
      var n := |rs| - 1;
      SettingsAfter(s, rs[..n]);
      BlocksAppend(rs[..n], rs[n]);
      assert rs[..n] + [rs[n]] == rs;
      var tokens := seq(n, i requires 0 <= i < n => rs[..n][i].kvTokens);
      var addresses := seq(n, i requires 0 <= i < n => rs[..n][i].statsAddress);
      FirstOfMore(AppliedAll(s, rs[..n]).kvTokens, s.kvTokens, tokens, rs[n].kvTokens);
      FirstOfMore(AppliedAll(s, rs[..n]).statsAddress, s.statsAddress, addresses, rs[n].statsAddress);
      assert tokens + [rs[n].kvTokens] == seq(|rs|, i requires 0 <= i < |rs| => rs[i].kvTokens);
      assert addresses + [rs[n].statsAddress] == seq(|rs|, i requires 0 <= i < |rs| => rs[i].statsAddress);
      var before := AppliedAll(s, rs[..n]).maxModelLen;
      if before != s.maxModelLen {
        var i :| 0 <= i < n && before == rs[..n][i].maxModelLen;
        assert rs[i].maxModelLen == before;
      }
      forall i | 0 <= i < |rs| ensures AppliedAll(s, rs).maxModelLen <= rs[i].maxModelLen {
        assert i < n ==> rs[..n][i] == rs[i];
      }
    }
  }
}
