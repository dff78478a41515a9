/** The items on the EngineCore's output queue, and what they are to become on the wire. */
module OutputItems {
  /** A queue item: the dead sentinel, or outputs for a client; `client` is -1 for the coordinator. */
  datatype Output = Dead | For(client: int, outputs: nat)

  /** What is put on the wire: the outputs, stamped with the index of the engine. */
  datatype Payload = Payload(outputs: nat, engine: nat)

  datatype Packet = ToSocket(socket: nat, payload: Payload) | ToCoordinator(payload: Payload) | DeadTo(socket: nat)

  /** An item taken off the queue, and, for a sentinel, whether a marker was there when the loop looked. */
  datatype Taken = Taken(output: Output, restoring: bool)

  /** Returned: after a sentinel was forwarded.  Crashed: the item named no socket. */
  datatype Ending = Waiting | Returned | Crashed

  // ----- What a loop should send ---------------------------------------------------------------------------

  /** The socket that a client index selects; negative indices count from the end. */
  function Socket(client: int, sockets: nat): int {
    if client >= 0 then client else sockets + client
  }

  function Wakes(sockets: nat): seq<Packet> { seq(sockets, i requires 0 <= i < sockets => DeadTo(i)) }

  /** The packets for one item. */
  function Packets(t: Taken, sockets: nat, coordinator: bool, engine: nat): seq<Packet> {
    match t.output
    case Dead => if t.restoring then [] else Wakes(sockets)
    case For(client, outputs) =>
      if client == -1 then (if coordinator then [ToCoordinator(Payload(outputs, engine))] else [])
      else if 0 <= Socket(client, sockets) < sockets
      then [ToSocket(Socket(client, sockets), Payload(outputs, engine))] else []
  }

  /** Outputs for client `i` go out on socket `i`, stamped, and nowhere else; those for -1 to the coordinator, if there is
      one; the other negative indices count the sockets from the end.  Any other item names no socket. */
  lemma WhereItemsGo(client: int, outputs: nat, restoring: bool, sockets: nat, coordinator: bool, engine: nat)
    ensures var t, p := Taken(For(client, outputs), restoring), Payload(outputs, engine);
            var sent, next := Packets(t, sockets, coordinator, engine), Next(t, sockets, coordinator);
            && (0 <= client < sockets ==> sent == [ToSocket(client, p)] && next.Waiting?)
            && (client < -1 && sockets + client >= 0 ==> sent == [ToSocket(sockets + client, p)] && next.Waiting?)
            && (client == -1 && coordinator ==> sent == [ToCoordinator(p)] && next.Waiting?)
            && (client == -1 && !coordinator ==> sent == [] && next.Crashed?)
            && (client != -1 && !(0 <= client < sockets || (client < 0 <= sockets + client)) ==> sent == [] && next.Crashed?)
  {
  }

  /** A sentinel goes to every socket and ends the loop, or goes nowhere if a marker is there. */
  lemma WhereSentinelsGo(restoring: bool, sockets: nat, coordinator: bool, engine: nat)
    ensures var t := Taken(Dead, restoring);
            var sent, next := Packets(t, sockets, coordinator, engine), Next(t, sockets, coordinator);
            if restoring then sent == [] && next.Waiting?
            else |sent| == sockets && (forall i :: 0 <= i < sockets ==> sent[i] == DeadTo(i)) && next.Returned?
  {
  }

  /** Every item in turn. */
  function Delivered(ts: seq<Taken>, sockets: nat, coordinator: bool, engine: nat): seq<Packet> {
    if ts == [] then []
    else Delivered(ts[..|ts| - 1], sockets, coordinator, engine) + Packets(ts[|ts| - 1], sockets, coordinator, engine)
  }

  /** The payloads that go out from recycled buffers. */
  function Carried(ps: seq<Packet>): seq<Payload> {
    if ps == [] then []
    else Carried(ps[..|ps| - 1]) + match ps[|ps| - 1] { case ToSocket(_, payload) => [payload] case _ => [] }
  }

  lemma {:induction false} CarriedJoins(ps: seq<Packet>, qs: seq<Packet>)
    ensures Carried(ps + qs) == Carried(ps) + Carried(qs)
  {
    if qs == [] {
      assert ps + qs == ps;
    } else {
      CarriedJoins(ps, qs[..|qs| - 1]);
      assert (ps + qs)[..|ps + qs| - 1] == ps + qs[..|qs| - 1];
    }
  }

  lemma {:induction false} WakesCarryNothing(ps: seq<Packet>, i: nat)
    requires forall k :: 0 <= k < |ps| ==> ps[k].DeadTo?
    ensures OnSocket(ps, i) == [] && Carried(ps) == []
  {
    if ps != [] {
      WakesCarryNothing(ps[..|ps| - 1], i);
    }
  }

  /** What the loop does after an item. */
  function Next(t: Taken, sockets: nat, coordinator: bool): Ending {
    match t.output
    case Dead => if t.restoring then Waiting else Returned
    case For(client, _) =>
      if (client == -1 && coordinator) || (client != -1 && 0 <= Socket(client, sockets) < sockets) then Waiting else Crashed
  }

  // ----- What each receiver gets ---------------------------------------------------------------------------

  function OnSocket(ps: seq<Packet>, i: nat): seq<Payload> {
    if ps == [] then []
    else OnSocket(ps[..|ps| - 1], i)
         + match ps[|ps| - 1] { case ToSocket(j, payload) => if j == i then [payload] else [] case _ => [] }
  }

  /** The items for client socket `i`, in the order they were taken. */
  function ItemsFor(ts: seq<Taken>, i: nat, sockets: nat, engine: nat): seq<Payload> {
    if ts == [] then [] else ItemsFor(ts[..|ts| - 1], i, sockets, engine) + ItemFor(ts[|ts| - 1].output, i, sockets, engine)
  }

  function ItemFor(o: Output, i: nat, sockets: nat, engine: nat): seq<Payload> {
    match o
    case For(client, outputs) =>
      if client == i || (client != -1 && client == i - sockets) then [Payload(outputs, engine)] else []
    case Dead => []
  }

  lemma OneItem(t: Taken, i: nat, sockets: nat, coordinator: bool, engine: nat)
    requires i < sockets
    ensures OnSocket(Packets(t, sockets, coordinator, engine), i) == ItemFor(t.output, i, sockets, engine)
  {
    var ps := Packets(t, sockets, coordinator, engine);
    if t.output.Dead? {
      WakesCarryNothing(ps, i);
    } else if ps != [] {
      assert ps[..|ps| - 1] == [];
    }
  }

  /** Every client gets its own items, each once, in the order the loop took them. */
  lemma {:induction false} EachClientGetsItsOwn(ts: seq<Taken>, i: nat, sockets: nat, coordinator: bool, engine: nat)
    requires i < sockets
    ensures OnSocket(Delivered(ts, sockets, coordinator, engine), i) == ItemsFor(ts, i, sockets, engine)
  {
    if ts != [] {
      var n := |ts| - 1;
      EachClientGetsItsOwn(ts[..n], i, sockets, coordinator, engine);
      OnSocketJoins(Delivered(ts[..n], sockets, coordinator, engine), Packets(ts[n], sockets, coordinator, engine), i);
      OneItem(ts[n], i, sockets, coordinator, engine);
    }
  }

  lemma {:induction false} OnSocketJoins(ps: seq<Packet>, qs: seq<Packet>, i: nat)
    ensures OnSocket(ps + qs, i) == OnSocket(ps, i) + OnSocket(qs, i)
  {
    if qs == [] {
      assert ps + qs == ps;
    } else {
      OnSocketJoins(ps, qs[..|qs| - 1], i);
      assert (ps + qs)[..|ps + qs| - 1] == ps + qs[..|qs| - 1];
    }
  }

  /** A sentinel goes out only for a sentinel taken when no marker was there, and then to every client. */
  lemma {:induction false} DeathIsForwardedOnlyUnmarked(ts: seq<Taken>, i: nat, sockets: nat, coordinator: bool, engine: nat)
    requires i < sockets
    ensures DeadTo(i) in Delivered(ts, sockets, coordinator, engine) <==> Taken(Dead, false) in ts
  {
    if ts != [] {
      DeathIsForwardedOnlyUnmarked(ts[..|ts| - 1], i, sockets, coordinator, engine);
      assert ts == ts[..|ts| - 1] + [ts[|ts| - 1]];
      if ts[|ts| - 1] == Taken(Dead, false) {
        assert Wakes(sockets)[i] == DeadTo(i);
      }
    }
  }
}
