/** Output loops at work on the queue: each is a thread that takes its items off it, among everyone else who touches it. */
module OutputThreads {
  import opened OutputItems
  import opened OutputQueue
  import opened OutputDelivery
  import L = OutputLoop

  /** What a loop that has gone through `taken` put on each client socket is what the queue's loop has sent to it. */
  ghost predicate Served(put: seq<Output>, taken: seq<Taken>, sockets: nat, engine: nat) {
    forall i :: 0 <= i < sockets ==> ItemsFor(taken, i, sockets, engine) == Addressed(put, i, sockets, engine)
  }

  lemma OneMoreTaken(taken: seq<Taken>, t: Taken, i: nat, sockets: nat, engine: nat)
    ensures ItemsFor(taken + [t], i, sockets, engine)
         == ItemsFor(taken, i, sockets, engine) + ForSocket(t.output, i, sockets, engine)
  {
    assert (taken + [t])[..|taken|] == taken;
  }

  lemma ServedMore(put: seq<Output>, taken: seq<Taken>, t: Taken, sockets: nat, engine: nat)
    requires Served(put, taken, sockets, engine) && t.output.For?
    ensures Served(put + [t.output], taken + [t], sockets, engine)
  {
    forall i | 0 <= i < sockets
      ensures ItemsFor(taken + [t], i, sockets, engine) == Addressed(put + [t.output], i, sockets, engine)
    {
      OneMoreTaken(taken, t, i, sockets, engine);
      assert (put + [t.output])[..|put|] == put;
    }
  }

  /** A sentinel, or an item that names no socket, puts nothing on any. */
  lemma ServedNothing(put: seq<Output>, taken: seq<Taken>, t: Taken, sockets: nat, coordinator: bool, engine: nat)
    requires Served(put, taken, sockets, engine) && (t.output.For? ==> Next(t, sockets, coordinator).Crashed?)
    ensures Served(put, taken + [t], sockets, engine)
  {
    forall i | 0 <= i < sockets ensures ItemsFor(taken + [t], i, sockets, engine) == Addressed(put, i, sockets, engine) {
      OneMoreTaken(taken, t, i, sockets, engine);
      assert ForSocket(t.output, i, sockets, engine) == [];
      assert ItemsFor(taken, i, sockets, engine) + [] == ItemsFor(taken, i, sockets, engine);
    }
  }

  /** What thread `me` does not do itself. */
  predicate Foreign(e: Event, me: nat) { (e.Get? || e.Deliver? || e.Decide? || e.Break?) ==> e.l != me }

  lemma OthersLeave(s: State, e: Event, me: nat)
    requires me < |s.loops| && Foreign(e, me)
    ensures me < |Apply(s, e).loops| && Apply(s, e).loops[me] == s.loops[me]
  {
  }

  lemma Moves(s: State, me: nat)
    requires me < |s.loops| && s.loops[me].hand.Holds?
    ensures var l := s.loops[me];
            && (Carries(l.hand) ==> Apply(s, Deliver(me)).loops == s.loops[me := Loop(Free, l.got, l.put + [l.hand.item])])
            && Apply(s, Break(me)).loops == s.loops[me := l.(hand := Gone)]
  {
  }

  lemma Decides(s: State, me: nat)
    requires me < |s.loops| && s.loops[me].hand == Holds(Dead)
    ensures Apply(s, Decide(me)).loops == s.loops[me := s.loops[me].(hand := if s.pending || s.request then Free else Gone)]
  {
  }

  class OutputThread {
    const loop: L.OutputLoop
    const me: nat

    /** The queue with everyone at it; the thread itself sees the head of the queue and the markers. */
    var queue: State

    // the run so far
    ghost var start: State
    ghost var es: seq<Event>

    /** The `me`th loop of the queue, between two items. */
    constructor (me: nat, start: State, es: seq<Event>, sockets: nat, coordinator: bool, engine: nat)
      requires Init(start) && me < |Run(start, es).loops| && Run(start, es).loops[me] == Loop(Free, [], [])
      ensures Valid() && queue == Run(start, es) && this.me == me && fresh(loop) && Resting()
      ensures loop.sockets == sockets && loop.engine == engine
    {
      loop := new L.OutputLoop(sockets, coordinator, engine);
      this.me, queue, this.start, this.es := me, Run(start, es), start, es;
    }

    ghost predicate Recorded()
      reads this
    {
      Init(start) && queue == Run(start, es) && me < |queue.loops|
    }

    ghost predicate Valid()
      reads this, loop, loop.trackers, loop.buffers
    {
      && Recorded() && loop.Valid() && loop.hand == null && loop.Followed()
      && Served(queue.loops[me].put, loop.taken, loop.sockets, loop.engine)
    }

    /** It is between two items. */
    ghost predicate Resting()
      reads this
    {
      me < |queue.loops| && queue.loops[me].hand.Free?
    }

    method Did(e: Event)
      requires Recorded()
      modifies this`queue, this`es
      ensures queue == Apply(old(queue), e) && (me < |queue.loops| ==> Recorded())
    {
      assert (es + [e])[..|es|] == es;
      queue, es := Apply(queue, e), es + [e];
    }

    /** The producer, other loops, drain passes, and whoever sets and removes the markers. */
    method Others()
      requires Recorded()
      modifies this`queue, this`es
      ensures Recorded() && queue.loops[me] == old(queue.loops[me])
    {
      var n: nat :| true;
      while n > 0
        invariant Recorded() && queue.loops[me] == old(queue.loops[me])
      {
        var e: Event := *;
        if Foreign(e, me) {
          OthersLeave(queue, e, me);
          Did(e);
        }
        n := n - 1;
      }
    }

    /** Once round the loop: the generation changed, the queue stayed empty, or an item was taken off it. */
    method GoRound() returns (ending: Ending)
      requires Valid() && Resting()
      modifies this`queue, this`es, loop, loop.trackers, loop.buffers
      ensures Valid() && (ending.Waiting? <==> Resting())
      ensures fresh(loop.trackers - old(loop.trackers)) && fresh(loop.buffers - old(loop.buffers))
    {
      Others();
      ending := Waiting;
      if * {
        loop.Rebuild();
      } else if queue.queue != [] {
        ending := TakeItem();
      }
    }

    method TakeItem() returns (ending: Ending)
      requires Valid() && Resting() && queue.queue != []
      modifies this`queue, this`es, loop, loop.trackers, loop.buffers
      ensures Valid() && (ending.Waiting? <==> Resting())
      ensures fresh(loop.trackers - old(loop.trackers)) && fresh(loop.buffers - old(loop.buffers))
    {
      var output := queue.queue[0];
      Did(Get(me));
      Others();
      ending := Treat(output);
    }

    /** The item in hand: a sentinel is decided about by the markers there are; an item for a client is sent, unless it
        names no socket or its socket is broken. */
    method Treat(output: Output) returns (ending: Ending)
      requires Valid() && queue.loops[me].hand == Holds(output)
      modifies this`queue, this`es, loop, loop.trackers, loop.buffers
      ensures Valid() && (ending.Waiting? <==> Resting())
      ensures fresh(loop.trackers - old(loop.trackers)) && fresh(loop.buffers - old(loop.buffers))
    {
      var broken: bool := *;
      if output.Dead? {
        ending := Decide();
      } else if broken {
        Did(Break(me));
        ending := Crashed;
      } else {
        ending := Send(output);
      }
    }

    method Decide() returns (ending: Ending)
      requires Valid() && queue.loops[me].hand == Holds(Dead)
      modifies this`queue, this`es, loop, loop.trackers, loop.buffers
      ensures Valid() && (ending.Waiting? <==> Resting())
      ensures fresh(loop.trackers - old(loop.trackers)) && fresh(loop.buffers - old(loop.buffers))
    {
      var restoring := queue.pending || queue.request;
      ServedNothing(queue.loops[me].put, loop.taken, Taken(Dead, restoring), loop.sockets, loop.coordinator, loop.engine);
      Decides(queue, me);
      ending := loop.Handle(Dead, restoring);
      Did(Event.Decide(me));
    }

    method Send(output: Output) returns (ending: Ending)
      requires Valid() && queue.loops[me].hand == Holds(output) && output.For?
      modifies this`queue, this`es, loop, loop.trackers, loop.buffers
      ensures Valid() && (ending.Waiting? <==> Resting())
      ensures fresh(loop.trackers - old(loop.trackers)) && fresh(loop.buffers - old(loop.buffers))
    {
      ending := Next(Taken(output, false), loop.sockets, loop.coordinator);
      if ending.Crashed? {
        Drop(output);
      } else {
        Put(output);
      }
    }

    /** It names no socket. */
    method Drop(output: Output)
      requires Valid() && queue.loops[me].hand == Holds(output)
      requires output.For? && Next(Taken(output, false), loop.sockets, loop.coordinator).Crashed?
      modifies this`queue, this`es, loop, loop.trackers, loop.buffers
      ensures Valid() && queue.loops[me].hand.Gone?
      ensures fresh(loop.trackers - old(loop.trackers)) && fresh(loop.buffers - old(loop.buffers))
    {
      ServedNothing(queue.loops[me].put, loop.taken, Taken(output, false), loop.sockets, loop.coordinator, loop.engine);
      var ending := loop.Handle(output, false);
      Moves(queue, me);
      Did(Break(me));
    }

    method Put(output: Output)
      requires Valid() && queue.loops[me].hand == Holds(output)
      requires output.For? && Next(Taken(output, false), loop.sockets, loop.coordinator).Waiting?
      modifies this`queue, this`es, loop, loop.trackers, loop.buffers
      ensures Valid() && Resting()
      ensures fresh(loop.trackers - old(loop.trackers)) && fresh(loop.buffers - old(loop.buffers))
    {
      ServedMore(queue.loops[me].put, loop.taken, Taken(output, false), loop.sockets, loop.engine);
      var ending := loop.Handle(output, false);
      Moves(queue, me);
      Did(Deliver(me));
    }

    method Serve() returns (ending: Ending)
      requires Valid() && Resting()
      modifies this`queue, this`es, loop, loop.trackers, loop.buffers
      ensures Valid() && (ending.Waiting? <==> Resting())
    {
      ending := Waiting;
      var n: nat :| true;
      while n > 0 && ending.Waiting?
        invariant Valid() && (ending.Waiting? <==> Resting())
        invariant fresh(loop.trackers - old(loop.trackers)) && fresh(loop.buffers - old(loop.buffers))
      {
        ending := GoRound();
        n := n - 1;
      }
    }
  }

  // ----- All threads ---------------------------------------------------------------------------------------

  /** The threads of one run, one for each of its loops. */
  ghost predicate AtWork(threads: seq<OutputThread>, s: State, sockets: nat, engine: nat)
    reads threads, set t | t in threads :: t.loop
    reads set t, x | t in threads && x in t.loop.trackers :: x, set t, b | t in threads && b in t.loop.buffers :: b
  {
    && |threads| == |s.loops|
    && forall l :: 0 <= l < |threads| ==>
         && threads[l].Valid() && threads[l].me == l && threads[l].queue == s
         && threads[l].loop.sockets == sockets && threads[l].loop.engine == engine
  }

  /** What they have put on socket `i`, thread by thread. */
  ghost function OnTheWire(threads: seq<OutputThread>, i: nat): seq<seq<Payload>>
    reads threads, set t | t in threads :: t.loop
  {
    seq(|threads|, l requires 0 <= l < |threads| reads threads, set t | t in threads :: t.loop =>
      OnSocket(threads[l].loop.sent, i))
  }

  lemma ThreadsCarry(threads: seq<OutputThread>, s: State, i: nat, sockets: nat, engine: nat)
    requires AtWork(threads, s, sockets, engine) && i < sockets
    ensures Carry(OnTheWire(threads, i), s.loops, i, sockets, engine)
  {
    forall l | 0 <= l < |threads| ensures OnTheWire(threads, i)[l] == Addressed(s.loops[l].put, i, sockets, engine) {
      var loop := threads[l].loop;
      assert threads[l].Valid();
      EachClientGetsItsOwn(loop.taken, i, sockets, loop.coordinator, engine);
    }
  }

  /** Whatever the interleaving: client sockets carry, over all threads, exactly what was sent, each item once and on its
      client's socket. */
  lemma SocketsCarryWhatIsSent(threads: seq<OutputThread>, s0: State, es: seq<Event>, i: nat, sockets: nat, engine: nat)
    requires Init(s0) && i < sockets && AtWork(threads, Run(s0, es), sockets, engine)
    ensures multiset(Together(OnTheWire(threads, i))) == multiset(Addressed(Run(s0, es).past.sent, i, sockets, engine))
  {
    ThreadsCarry(threads, Run(s0, es), i, sockets, engine);
    CarriedIsSent(s0, es, OnTheWire(threads, i), i, sockets, engine);
  }

  /** Once nothing is on its way and no socket broke, each client has got exactly the outputs produced for it. */
  lemma EveryClientIsServed(threads: seq<OutputThread>, s0: State, es: seq<Event>, i: nat, sockets: nat, engine: nat)
    requires Init(s0) && i < sockets && AtWork(threads, Run(s0, es), sockets, engine) && AtRest(Run(s0, es))
    ensures multiset(Together(OnTheWire(threads, i))) == multiset(Addressed(Run(s0, es).past.produced, i, sockets, engine))
  {
    SocketsCarryWhatIsSent(threads, s0, es, i, sockets, engine);
    SentIsProduced(s0, es, i, sockets, engine);
  }
}
