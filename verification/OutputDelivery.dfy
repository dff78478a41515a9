/** What the client sockets carry in all, whichever loop sent it. */
module OutputDelivery {
  import opened OutputItems
  import opened OutputQueue

  /** What goes out on client socket `i` for the items `os`. */
  function Addressed(os: seq<Output>, i: nat, sockets: nat, engine: nat): seq<Payload> {
    if os == [] then []
    else Addressed(os[..|os| - 1], i, sockets, engine) + ForSocket(os[|os| - 1], i, sockets, engine)
  }

  function ForSocket(o: Output, i: nat, sockets: nat, engine: nat): seq<Payload> {
    if o.For? && (o.client == i || (o.client != -1 && o.client == i - sockets)) then [Payload(o.outputs, engine)] else []
  }

  // ----- Counting ------------------------------------------------------------------------------------------

  /** How many of `os` give socket `i` the payload `p`. */
  function Count(os: seq<Output>, p: Payload, i: nat, sockets: nat, engine: nat): nat {
    if os == [] then 0
    else Count(os[..|os| - 1], p, i, sockets, engine) + Gives(os[|os| - 1], p, i, sockets, engine)
  }

  function Gives(o: Output, p: Payload, i: nat, sockets: nat, engine: nat): nat {
    if ForSocket(o, i, sockets, engine) == [p] then 1 else 0
  }

  lemma {:induction false} AddressedCounts(os: seq<Output>, p: Payload, i: nat, sockets: nat, engine: nat)
    ensures multiset(Addressed(os, i, sockets, engine))[p] == Count(os, p, i, sockets, engine)
  {
    if os != [] {
      AddressedCounts(os[..|os| - 1], p, i, sockets, engine);
    }
  }

  lemma CountJoins(os: seq<Output>, o: Output, p: Payload, i: nat, sockets: nat, engine: nat)
    ensures Count(os + [o], p, i, sockets, engine) == Count(os, p, i, sockets, engine) + Gives(o, p, i, sockets, engine)
  {
    assert (os + [o])[..|os|] == os;
  }

  // ----- All loops -----------------------------------------------------------------------------------------

  /** How often some loop sent a `p` on socket `i`. */
  function Times(loops: seq<Loop>, p: Payload, i: nat, sockets: nat, engine: nat): nat {
    if loops == [] then 0
    else Times(loops[..|loops| - 1], p, i, sockets, engine)
         + Count(loops[|loops| - 1].put, p, i, sockets, engine)
  }

  lemma {:induction false} OneLoopChanges(loops: seq<Loop>, l: nat, now: Loop, p: Payload, i: nat, sockets: nat, engine: nat)
    requires l < |loops|
    ensures Times(loops[l := now], p, i, sockets, engine) + Count(loops[l].put, p, i, sockets, engine)
         == Times(loops, p, i, sockets, engine) + Count(now.put, p, i, sockets, engine)
  {
    var n := |loops| - 1;
    if l < n {
      OneLoopChanges(loops[..n], l, now, p, i, sockets, engine);
      assert loops[l := now][..n] == loops[..n][l := now];
    } else {
      assert loops[l := now][..n] == loops[..n];
    }
  }

  lemma {:induction false} NothingPut(loops: seq<Loop>, p: Payload, i: nat, sockets: nat, engine: nat)
    requires forall l :: 0 <= l < |loops| ==> loops[l].put == []
    ensures Times(loops, p, i, sockets, engine) == 0
  {
    if loops != [] {
      NothingPut(loops[..|loops| - 1], p, i, sockets, engine);
    }
  }

  predicate SentByLoops(s: State, p: Payload, i: nat, sockets: nat, engine: nat) {
    Count(s.past.sent, p, i, sockets, engine) == Times(s.loops, p, i, sockets, engine)
  }

  lemma StepSends(s: State, e: Event, p: Payload, i: nat, sockets: nat, engine: nat)
    requires SentByLoops(s, p, i, sockets, engine)
    ensures SentByLoops(Apply(s, e), p, i, sockets, engine)
  {
    var s' := Apply(s, e);
    if e.StartLoop? {
      assert s'.loops[..|s.loops|] == s.loops;
    } else if s' != s && e.Deliver? {
      DeliverySends(s, e.l, p, i, sockets, engine);
    } else if s'.loops != s.loops {
      OneLoopChanges(s.loops, e.l, s'.loops[e.l], p, i, sockets, engine);
    }
  }

  lemma DeliverySends(s: State, l: nat, p: Payload, i: nat, sockets: nat, engine: nat)
    requires l < |s.loops| && s.loops[l].hand.Holds? && SentByLoops(s, p, i, sockets, engine)
    ensures SentByLoops(ApplyDeliver(s, l), p, i, sockets, engine)
  {
    var o := s.loops[l].hand.item;
    OneLoopChanges(s.loops, l, ApplyDeliver(s, l).loops[l], p, i, sockets, engine);
    CountJoins(s.loops[l].put, o, p, i, sockets, engine);
    CountJoins(s.past.sent, o, p, i, sockets, engine);
  }

  lemma {:induction false} SentIsPut(s0: State, es: seq<Event>, p: Payload, i: nat, sockets: nat, engine: nat)
    requires Init(s0)
    ensures SentByLoops(Run(s0, es), p, i, sockets, engine)
  {
    if es == [] {
      NothingPut(s0.loops, p, i, sockets, engine);
    } else {
      SentIsPut(s0, es[..|es| - 1], p, i, sockets, engine);
      StepSends(Run(s0, es[..|es| - 1]), es[|es| - 1], p, i, sockets, engine);
    }
  }

  /** The sockets `i` of all loops together. */
  function Together(wires: seq<seq<Payload>>): seq<Payload> {
    if wires == [] then [] else Together(wires[..|wires| - 1]) + wires[|wires| - 1]
  }

  /** Each loop has put on socket `i` what it has sent to it. */
  ghost predicate Carry(wires: seq<seq<Payload>>, loops: seq<Loop>, i: nat, sockets: nat, engine: nat) {
    |wires| == |loops| && forall l :: 0 <= l < |loops| ==> wires[l] == Addressed(loops[l].put, i, sockets, engine)
  }

  lemma {:induction false} WireCounts(loops: seq<Loop>, wires: seq<seq<Payload>>, p: Payload, i: nat, sockets: nat, engine: nat)
    requires Carry(wires, loops, i, sockets, engine)
    ensures multiset(Together(wires))[p] == Times(loops, p, i, sockets, engine)
  {
    if loops != [] {
      var n := |loops| - 1;
      WireCounts(loops[..n], wires[..n], p, i, sockets, engine);
      AddressedCounts(loops[n].put, p, i, sockets, engine);
    }
  }

  /** Whatever the interleaving: the loops' sockets carry, in all, exactly what was sent, each item once. */
  lemma CarriedIsSent(s0: State, es: seq<Event>, wires: seq<seq<Payload>>, i: nat, sockets: nat, engine: nat)
    requires Init(s0) && Carry(wires, Run(s0, es).loops, i, sockets, engine)
    ensures multiset(Together(wires)) == multiset(Addressed(Run(s0, es).past.sent, i, sockets, engine))
  {
    forall p: Payload ensures multiset(Together(wires))[p] == multiset(Addressed(Run(s0, es).past.sent, i, sockets, engine))[p] {
      SentIsPut(s0, es, p, i, sockets, engine);
      WireCounts(Run(s0, es).loops, wires, p, i, sockets, engine);
      AddressedCounts(Run(s0, es).past.sent, p, i, sockets, engine);
    }
  }

  // ----- When nothing is on its way ------------------------------------------------------------------------

  predicate AtRest(s: State) {
    && s.queue == [] && s.past.lost == []
    && (forall l :: 0 <= l < |s.loops| ==> !Carries(s.loops[l].hand))
    && forall d :: 0 <= d < |s.drains| ==> s.drains[d].retained == []
  }

  lemma {:induction false} NoOutputInHand(loops: seq<Loop>, o: Output)
    requires o.For? && forall l :: 0 <= l < |loops| ==> !Carries(loops[l].hand)
    ensures InHands(loops, o) == 0
  {
    if loops != [] {
      NoOutputInHand(loops[..|loops| - 1], o);
    }
  }

  lemma DropBeforeLast(os: seq<Output>, k: nat)
    requires k < |os| - 1
    ensures var n := |os| - 1; os[..k] + os[k + 1..] == (os[..n][..k] + os[..n][k + 1..]) + [os[n]]
  {
  }

  lemma {:induction false} CountDrops(os: seq<Output>, k: nat, p: Payload, i: nat, sockets: nat, engine: nat)
    requires k < |os|
    ensures Count(os, p, i, sockets, engine)
         == Count(os[..k] + os[k + 1..], p, i, sockets, engine) + Gives(os[k], p, i, sockets, engine)
  {
    var n := |os| - 1;
    if k < n {
      CountDrops(os[..n], k, p, i, sockets, engine);
      DropBeforeLast(os, k);
      CountJoins(os[..n][..k] + os[..n][k + 1..], os[n], p, i, sockets, engine);
    } else {
      assert os[..k] + os[k + 1..] == os[..n];
    }
  }

  ghost predicate SameOutputs(xs: seq<Output>, ys: seq<Output>) {
    forall o: Output :: o.For? ==> multiset(xs)[o] == multiset(ys)[o]
  }

  /** The same outputs in any order, sentinels aside, give a socket the same payloads. */
  lemma {:induction false} SameOutputsSamePayloads(xs: seq<Output>, ys: seq<Output>, p: Payload, i: nat, sockets: nat,
                                                   engine: nat)
    requires SameOutputs(xs, ys)
    ensures Count(xs, p, i, sockets, engine) == Count(ys, p, i, sockets, engine)
    decreases |xs| + |ys|
  {
    if xs != [] {
      var n := |xs| - 1;
      var x := xs[n];
      assert xs == xs[..n] + [x];
      if x.Dead? {
        SameOutputsSamePayloads(xs[..n], ys, p, i, sockets, engine);
      } else {
        var k := Found(ys, x);
        SameOutputsSamePayloads(xs[..n], ys[..k] + ys[k + 1..], p, i, sockets, engine);
        CountDrops(ys, k, p, i, sockets, engine);
      }
    } else if ys != [] {
      var n := |ys| - 1;
      assert ys == ys[..n] + [ys[n]];
      assert multiset(ys)[ys[n]] > 0;
      SameOutputsSamePayloads(xs, ys[..n], p, i, sockets, engine);
    }
  }

  lemma Found(ys: seq<Output>, x: Output) returns (k: nat)
    requires multiset(ys)[x] > 0
    ensures k < |ys| && ys[k] == x && multiset(ys) == multiset(ys[..k] + ys[k + 1..]) + multiset{x}
  {
    assert x in ys;
    k :| 0 <= k < |ys| && ys[k] == x;
    assert ys == ys[..k] + [x] + ys[k + 1..];
  }

  /** Once nothing is on its way and no socket broke, what was sent is what was produced. */
  lemma SentIsProduced(s0: State, es: seq<Event>, i: nat, sockets: nat, engine: nat)
    requires Init(s0) && AtRest(Run(s0, es))
    ensures multiset(Addressed(Run(s0, es).past.sent, i, sockets, engine))
         == multiset(Addressed(Run(s0, es).past.produced, i, sockets, engine))
  {
    var s := Run(s0, es);
    ExactlyOnce(s0, es);
    forall o: Output | o.For? ensures multiset(s.past.sent)[o] == multiset(s.past.produced)[o] {
      assert Accounted(s, o);
      NoOutputInHand(s.loops, o);
      NothingRetained(s.drains, o);
    }
    forall p: Payload
      ensures multiset(Addressed(s.past.sent, i, sockets, engine))[p]
           == multiset(Addressed(s.past.produced, i, sockets, engine))[p]
    {
      AddressedCounts(s.past.sent, p, i, sockets, engine);
      AddressedCounts(s.past.produced, p, i, sockets, engine);
      SameOutputsSamePayloads(s.past.sent, s.past.produced, p, i, sockets, engine);
    }
  }
}
