/** `_output_sockets`: one output loop of the EngineCore, with its recycled send buffers. */
module OutputLoop {
  import opened OutputItems

  class Buffer {
    var content: Payload
    constructor () { content := Payload(0, 0); }
  }

  class Tracker {
    var done: bool
    constructor (done: bool)
      ensures this.done == done
    {
      this.done := done;
    }
  }

  /** A tracked send: the transport reads `buffer` until `tracker` is done. */
  datatype Send = Send(tracker: Tracker, buffer: Buffer, payload: Payload)

  function Payloads(sends: seq<Send>): seq<Payload> {
    seq(|sends|, k requires 0 <= k < |sends| => sends[k].payload)
  }

  /** The pool after the buffers of `ps` were offered to it, last first. */
  function Pooled(pool: seq<Buffer>, ps: seq<(Tracker, Buffer)>, limit: nat): seq<Buffer> {
    if ps == [] then pool
    else
      var q := Pooled(pool, ps[1..], limit);
      if |q| < limit then q + [ps[0].1] else q
  }

  class OutputLoop {
    const sockets: nat
    const coordinator: bool
    const engine: nat

    var reuseBuffers: seq<Buffer>
    /** Newest first. */
    var pending: seq<(Tracker, Buffer)>

    /** Every tracked send of every generation, as the transport knows them, and what it read of each by the time
        it was done. */
    var sends: seq<Send>
    var arrived: map<nat, Payload>

    // history
    ghost var taken: seq<Taken>
    ghost var sent: seq<Packet>
    ghost var trackers: set<Tracker>
    ghost var buffers: set<Buffer>
    ghost var hand: Buffer?        // the buffer the loop is working with, in neither list

    constructor (sockets: nat, coordinator: bool, engine: nat)
      ensures Valid() && Followed() && taken == []
      ensures this.sockets == sockets && this.coordinator == coordinator && this.engine == engine
      ensures trackers == {} && buffers == {}
    {
      this.sockets, this.coordinator, this.engine := sockets, coordinator, engine;
      reuseBuffers, pending, sends, arrived := [], [], [], map[];
      taken, sent, trackers, buffers, hand := [], [], {}, {}, null;
    }

    // ----- Invariant ---------------------------------------------------------------------------------------

    ghost predicate Valid()
      reads this, trackers, buffers
    {
      && Known() && Apart() && |reuseBuffers| <= sockets + 1
      && (forall k :: 0 <= k < |sends| ==> Faithful(k))
      && (forall i :: 0 <= i < |reuseBuffers| ==> Idle(reuseBuffers[i]))
      && (forall i :: 0 <= i < |pending| ==> Guards(pending[i].0, pending[i].1))
      && (hand != null ==> InHand(hand))
    }

    ghost predicate Known()
      reads this`sends, this`reuseBuffers, this`pending, this`trackers, this`buffers
    {
      && (forall k :: 0 <= k < |sends| ==> sends[k].tracker in trackers && sends[k].buffer in buffers)
      && (forall i :: 0 <= i < |reuseBuffers| ==> reuseBuffers[i] in buffers)
      && (forall i :: 0 <= i < |pending| ==> pending[i].0 in trackers && pending[i].1 in buffers)
      && (forall i, j :: 0 <= i < j < |sends| ==> sends[i].tracker != sends[j].tracker)
    }

    /** No buffer is twice in the pool, twice in `pending`, or in both. */
    ghost predicate Apart()
      reads this`reuseBuffers, this`pending
    {
      && (forall i, j :: 0 <= i < j < |reuseBuffers| ==> reuseBuffers[i] != reuseBuffers[j])
      && (forall i, j :: 0 <= i < j < |pending| ==> pending[i].1 != pending[j].1)
      && (forall i, j :: 0 <= i < |reuseBuffers| && 0 <= j < |pending| ==> reuseBuffers[i] != pending[j].1)
    }

    /** Until a send is done its buffer holds what was sent, and so that is what arrived. */
    ghost predicate Faithful(k: nat)
      requires k < |sends| && sends[k].tracker in trackers && sends[k].buffer in buffers
      reads this`sends, this`arrived, this`trackers, this`buffers, trackers, buffers
    {
      var s := sends[k];
      if s.tracker.done then k in arrived && arrived[k] == s.payload else s.buffer.content == s.payload
    }

    /** No unfinished send reads `b`. */
    ghost predicate Idle(b: Buffer)
      reads this`sends, this`trackers, trackers
    {
      forall k :: 0 <= k < |sends| && sends[k].buffer == b && sends[k].tracker in trackers ==> sends[k].tracker.done
    }

    /** No unfinished send reads `b`, but for the one that `t` tracks. */
    ghost predicate Guards(t: Tracker, b: Buffer)
      reads this`sends, this`trackers, trackers
    {
      forall k :: 0 <= k < |sends| && sends[k].buffer == b && sends[k].tracker in trackers ==>
        sends[k].tracker == t || sends[k].tracker.done
    }

    /** `b` is in the loop's hands: nobody reads it, and it is in neither list. */
    ghost predicate InHand(b: Buffer)
      reads this, trackers
    {
      && b in buffers && Idle(b)
      && (forall i :: 0 <= i < |reuseBuffers| ==> reuseBuffers[i] != b)
      && (forall i :: 0 <= i < |pending| ==> pending[i].1 != b)
    }

    /** What was sent is what the items taken call for, in their order; and what went out from recycled buffers is
        what was to be sent to clients. */
    ghost predicate Followed()
      reads this`sent, this`taken, this`sends
    {
      sent == Delivered(taken, sockets, coordinator, engine) && Payloads(sends) == Carried(sent)
    }

    // ----- The transport -----------------------------------------------------------------------------------

    /** Some unfinished send finishes: the transport has read its buffer. */
    method Finish(k: nat)
      requires Valid()
      modifies this`arrived, trackers
      ensures Valid() && forall t :: t in trackers && old(t.done) ==> t.done
    {
      if k < |sends| && !sends[k].tracker.done {
        assert Faithful(k);
        arrived := arrived[k := sends[k].buffer.content];
        sends[k].tracker.done := true;
        forall j | 0 <= j < |sends| ensures Faithful(j) {
          assert old(Faithful(j));
        }
      }
    }

    /** Any number of them finish; what has finished stays so. */
    method Transport()
      requires Valid()
      modifies this`arrived, trackers
      ensures Valid() && forall t :: t in trackers && old(t.done) ==> t.done
    {
      var n: nat :| true;
      while n > 0
        invariant Valid() && forall t :: t in trackers && old(t.done) ==> t.done
      {
        var k: nat :| true;
        Finish(k);
        n := n - 1;
      }
    }

    /** `encode_into`, which overwrites the buffer. */
    method EncodeInto(outputs: nat, buffer: Buffer)
      requires Valid() && hand == buffer
      modifies buffer
      ensures Valid() && buffer.content == Payload(outputs, engine)
    {
      buffer.content := Payload(outputs, engine);
      forall k | 0 <= k < |sends| ensures Faithful(k) {
        assert old(Faithful(k));
      }
    }

    /** `_send_msg_tracking_payload`: the transport may have read it all when this returns, or not. */
    method SendTracking(buffer: Buffer) returns (tracker: Tracker)
      requires Valid() && hand == buffer
      modifies this`sends, this`arrived, this`trackers, this`hand
      ensures Valid() && hand == null && fresh(tracker) && trackers == old(trackers) + {tracker}
      ensures sends == old(sends) + [Send(tracker, buffer, buffer.content)]
      ensures Released(tracker, buffer)
    {
      var done: bool := *;
      tracker := new Tracker(done);
      if done {
        arrived := arrived[|sends| := buffer.content];
      }
      hand, trackers := null, trackers + {tracker};
      sends := sends + [Send(tracker, buffer, buffer.content)];
      forall k | 0 <= k < |sends| ensures Faithful(k) {
        assert k < |sends| - 1 ==> old(Faithful(k));
      }
    }

    /** `b` is in neither list, and read by no unfinished send but the one that `t` tracks. */
    ghost predicate Released(t: Tracker, b: Buffer)
      reads this, trackers
    {
      && t in trackers && b in buffers && Guards(t, b)
      && (forall i :: 0 <= i < |reuseBuffers| ==> reuseBuffers[i] != b)
      && (forall i :: 0 <= i < |pending| ==> pending[i].1 != b)
    }

    // ----- The pool ----------------------------------------------------------------------------------------

    /** Take back the buffers of finished sends, oldest first, as far as the oldest is finished. */
    method Reclaim()
      requires Valid() && hand == null
      modifies this`pending, this`reuseBuffers
      ensures Valid() && hand == null
      ensures pending <= old(pending) && (pending != [] ==> !pending[|pending| - 1].0.done)
      ensures forall i :: |pending| <= i < |old(pending)| ==> old(pending)[i].0.done
      ensures reuseBuffers == Pooled(old(reuseBuffers), old(pending)[|pending|..], sockets + 1)
    {
      while pending != [] && pending[|pending| - 1].0.done
        invariant Valid() && pending <= old(pending)
        invariant forall i :: |pending| <= i < |old(pending)| ==> old(pending)[i].0.done
        invariant reuseBuffers == Pooled(old(reuseBuffers), old(pending)[|pending|..], sockets + 1)
        decreases |pending|
      {
        ReclaimOne();
        assert old(pending)[|pending|..][1..] == old(pending)[|pending| + 1..];
      }
    }

    /** `reuse_buffers.append(pending.pop()[2])`, if there is room for it. */
    method ReclaimOne()
      requires Valid() && hand == null && pending != [] && pending[|pending| - 1].0.done
      modifies this`pending, this`reuseBuffers
      ensures Valid() && hand == null && pending == old(pending)[..|old(pending)| - 1]
      ensures var reclaimed := old(pending)[|old(pending)| - 1].1;
              reuseBuffers == if |old(reuseBuffers)| < sockets + 1 then old(reuseBuffers) + [reclaimed] else old(reuseBuffers)
    {
      var reclaimed := pending[|pending| - 1].1;
      pending := pending[..|pending| - 1];
      if |reuseBuffers| < sockets + 1 {
        reuseBuffers := reuseBuffers + [reclaimed];
      }
    }

    method TakeBuffer() returns (buffer: Buffer)
      requires Valid() && hand == null
      modifies this`reuseBuffers, this`hand, this`buffers
      ensures Valid() && hand == buffer && fresh(buffers - old(buffers))
      ensures if old(reuseBuffers) == [] then fresh(buffer) && reuseBuffers == []
              else reuseBuffers + [buffer] == old(reuseBuffers)
    {
      if reuseBuffers != [] {
        buffer := reuseBuffers[|reuseBuffers| - 1];
        reuseBuffers := reuseBuffers[..|reuseBuffers| - 1];
      } else {
        buffer := new Buffer();
        buffers := buffers + {buffer};
      }
      hand := buffer;
      forall k | 0 <= k < |sends| ensures Faithful(k) {
        assert old(Faithful(k));
      }
    }

    method GiveBack(tracker: Tracker, buffer: Buffer)
      requires Valid() && hand == null && Released(tracker, buffer)
      modifies this`pending, this`reuseBuffers
      ensures Valid() && hand == null
      ensures pending == if tracker.done then old(pending) else [(tracker, buffer)] + old(pending)
      ensures reuseBuffers == if tracker.done && |old(reuseBuffers)| <= sockets then old(reuseBuffers) + [buffer]
                              else old(reuseBuffers)
    {
      if !tracker.done {
        pending := [(tracker, buffer)] + pending;
      } else if |reuseBuffers| < sockets + 1 {
        reuseBuffers := reuseBuffers + [buffer];
      }
    }

    // ----- The loop ----------------------------------------------------------------------------------------

    /** One item for a client. */
    method Emit(client: int, outputs: nat) returns (crashed: bool)
      requires Valid() && hand == null && client != -1
      modifies this`reuseBuffers, this`pending, this`sends, this`arrived, this`sent, this`hand, this`trackers, this`buffers
      modifies trackers, buffers
      ensures Valid() && hand == null
      ensures fresh(trackers - old(trackers)) && fresh(buffers - old(buffers))
      ensures crashed <==> !(0 <= Socket(client, sockets) < sockets)
      ensures sent == if crashed then old(sent) else old(sent) + [ToSocket(Socket(client, sockets), Payload(outputs, engine))]
      ensures Payloads(sends) == if crashed then old(Payloads(sends)) else old(Payloads(sends)) + [Payload(outputs, engine)]
    {
      var buffer := Fill(outputs);
      if !(0 <= Socket(client, sockets) < sockets) {
        hand := null;
        return true;
      }
      sent := sent + [ToSocket(Socket(client, sockets), buffer.content)];
      SendAndKeep(buffer);
      crashed := false;
    }

    method Fill(outputs: nat) returns (buffer: Buffer)
      requires Valid() && hand == null
      modifies this`reuseBuffers, this`pending, this`arrived, this`hand, this`buffers, trackers, buffers
      ensures Valid() && hand == buffer && fresh(buffers - old(buffers)) && buffer.content == Payload(outputs, engine)
    {
      Transport();
      Reclaim();
      buffer := TakeBuffer();
      EncodeInto(outputs, buffer);
      Transport();
    }

    method SendAndKeep(buffer: Buffer)
      requires Valid() && hand == buffer
      modifies this`reuseBuffers, this`pending, this`sends, this`arrived, this`hand, this`trackers, trackers
      ensures Valid() && hand == null && fresh(trackers - old(trackers))
      ensures Payloads(sends) == old(Payloads(sends)) + [old(buffer.content)]
    {
      var tracker := SendTracking(buffer);
      label before:
      Transport();
      assert Released(tracker, buffer) by {
        assert old@before(Released(tracker, buffer));
      }
      GiveBack(tracker, buffer);
    }

    /** One item off the queue.  `restoring` is whether a marker is there when a sentinel is looked at. */
    method Handle(output: Output, restoring: bool) returns (ending: Ending)
      requires Valid() && hand == null && Followed()
      modifies this`reuseBuffers, this`pending, this`sends, this`arrived, this`sent, this`taken
      modifies this`hand, this`trackers, this`buffers, trackers, buffers
      ensures Valid() && hand == null && Followed()
      ensures fresh(trackers - old(trackers)) && fresh(buffers - old(buffers))
      ensures taken == old(taken) + [Taken(output, restoring)] && ending == Next(Taken(output, restoring), sockets, coordinator)
    {
      CarriedJoins(sent, Packets(Taken(output, restoring), sockets, coordinator, engine));
      ending := Dispatch(output, restoring);
      taken := taken + [Taken(output, restoring)];
      assert taken[..|taken| - 1] == old(taken);
    }

    method Dispatch(output: Output, restoring: bool) returns (ending: Ending)
      requires Valid() && hand == null
      modifies this`reuseBuffers, this`pending, this`sends, this`arrived, this`sent
      modifies this`hand, this`trackers, this`buffers, trackers, buffers
      ensures Valid() && hand == null
      ensures fresh(trackers - old(trackers)) && fresh(buffers - old(buffers))
      ensures sent == old(sent) + Packets(Taken(output, restoring), sockets, coordinator, engine)
      ensures Payloads(sends) == old(Payloads(sends)) + Carried(Packets(Taken(output, restoring), sockets, coordinator, engine))
      ensures ending == Next(Taken(output, restoring), sockets, coordinator)
    {
      ending := Waiting;
      match output
      case Dead =>
        if !restoring {
          ForwardDeath();
          WakesCarryNothing(Wakes(sockets), 0);
          ending := Returned;
        }
      case For(client, outputs) =>
        if client == -1 {
          if !coordinator {
            return Crashed;
          }
          sent := sent + [ToCoordinator(Payload(outputs, engine))];
        } else {
          var crashed := Emit(client, outputs);
          ending := if crashed then Crashed else Waiting;
        }
    }

    method ForwardDeath()
      requires Valid()
      modifies this`sent
      ensures Valid() && sent == old(sent) + Wakes(sockets)
    {
      var i := 0;
      while i < sockets
        invariant 0 <= i <= sockets && Valid() && sent == old(sent) + Wakes(sockets)[..i]
      {
        sent := sent + [DeadTo(i)];
        i := i + 1;
      }
    }

    /** The loop until some moment of its life.  Each time round it finds the queue empty, an item on it, or the
        generation changed; then it starts over with new sockets and empty lists. */
    method Serve() returns (ending: Ending)
      requires Valid() && hand == null && Followed()
      modifies this, trackers, buffers
      ensures Valid() && Followed()
      ensures ending != Waiting ==> taken != [] && ending == Next(taken[|taken| - 1], sockets, coordinator)
    {
      ending := Waiting;
      var n: nat :| true;
      while n > 0 && ending == Waiting
        invariant Valid() && hand == null && Followed()
        invariant fresh(trackers - old(trackers)) && fresh(buffers - old(buffers))
        invariant ending != Waiting ==> taken != [] && ending == Next(taken[|taken| - 1], sockets, coordinator)
      {
        ending := GoRound();
        n := n - 1;
      }
    }

    /** The generation changed: new sockets and empty lists. */
    method Rebuild()
      requires Valid() && hand == null
      modifies this`reuseBuffers, this`pending
      ensures Valid() && hand == null && reuseBuffers == [] && pending == []
    {
      reuseBuffers, pending := [], [];
      forall k | 0 <= k < |sends| ensures Faithful(k) {
        assert old(Faithful(k));
      }
    }

    method GoRound() returns (ending: Ending)
      requires Valid() && hand == null && Followed()
      modifies this, trackers, buffers
      ensures Valid() && hand == null && Followed()
      ensures fresh(trackers - old(trackers)) && fresh(buffers - old(buffers))
      ensures ending != Waiting ==> taken != [] && ending == Next(taken[|taken| - 1], sockets, coordinator)
    {
      ending := Waiting;
      if * {
        Rebuild();
      } else if * {
        var output: Output := *;
        var restoring: bool := *;
        ending := Handle(output, restoring);
      }
    }
  }
}
