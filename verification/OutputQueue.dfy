/** The EngineCore's output queue, with everyone who touches it at once: the producer, any number of output loops,
    and any number of passes that drain the queue of stale sentinels and refill it. */
module OutputQueue {
  import opened OutputItems

  /** An output loop: between items, holding one, or ended.  `got` and `put` are the items it took off the queue
      and sent. */
  datatype Loop = Loop(hand: Hand, got: seq<Output>, put: seq<Output>)
  datatype Hand = Free | Holds(item: Output) | Gone

  /** A drain pass: it empties the queue, then puts back what it retained. */
  datatype Drain = Drain(draining: bool, retained: seq<Output>)

  /** The markers when a loop decided about a sentinel. */
  datatype Verdict = Verdict(pending: bool, request: bool, forwarded: bool)

  datatype Past = Past(produced: seq<Output>, taken: seq<Output>, sent: seq<Output>, lost: seq<Output>,
                       verdicts: seq<Verdict>, purged: nat)

  datatype State = State(queue: seq<Output>, loops: seq<Loop>, drains: seq<Drain>, pending: bool, request: bool,
                         past: Past)

  datatype Event =
    | Produce(o: Output)
    | SetPending(there: bool)
    | SetRequest(there: bool)
    | StartLoop                  // a replacement thread
    | Get(l: nat)
    | Deliver(l: nat)
    | Decide(l: nat)             // about a sentinel
    | Break(l: nat)              // sending raises
    | StartDrain
    | DrainGet(d: nat)
    | Refill(d: nat)

  function Apply(s: State, e: Event): State {
    match e
    case Produce(o) => s.(queue := s.queue + [o], past := s.past.(produced := s.past.produced + [o]))
    case SetPending(there) => s.(pending := there)
    case SetRequest(there) => s.(request := there)
    case StartLoop => s.(loops := s.loops + [Loop(Free, [], [])])
    case Get(l) => if l < |s.loops| && s.loops[l].hand.Free? && s.queue != [] then ApplyGet(s, l) else s
    case Deliver(l) => if l < |s.loops| && Carries(s.loops[l].hand) then ApplyDeliver(s, l) else s
    case Decide(l) => if l < |s.loops| && s.loops[l].hand == Holds(Dead) then ApplyDecide(s, l) else s
    case Break(l) => if l < |s.loops| && s.loops[l].hand.Holds? then ApplyBreak(s, l) else s
    case StartDrain => s.(drains := s.drains + [Drain(true, [])])
    case DrainGet(d) => if d < |s.drains| && s.drains[d].draining then ApplyDrain(s, d) else s
    case Refill(d) =>
      if d < |s.drains| && !s.drains[d].draining && s.drains[d].retained != [] then ApplyRefill(s, d) else s
  }

  predicate Carries(h: Hand) { h.Holds? && h.item.For? }

  function ApplyGet(s: State, l: nat): State
    requires l < |s.loops| && s.queue != []
  {
    var o := s.queue[0];
    s.(queue := s.queue[1..], loops := s.loops[l := s.loops[l].(hand := Holds(o), got := s.loops[l].got + [o])],
       past := s.past.(taken := s.past.taken + [o]))
  }

  function ApplyDeliver(s: State, l: nat): State
    requires l < |s.loops| && s.loops[l].hand.Holds?
  {
    var o := s.loops[l].hand.item;
    s.(loops := s.loops[l := s.loops[l].(hand := Free, put := s.loops[l].put + [o])],
       past := s.past.(sent := s.past.sent + [o]))
  }

  /** A sentinel is dropped if a marker is there, and otherwise forwarded, which ends the loop. */
  function ApplyDecide(s: State, l: nat): State
    requires l < |s.loops|
  {
    var forward := !(s.pending || s.request);
    s.(loops := s.loops[l := s.loops[l].(hand := if forward then Gone else Free)],
       past := s.past.(verdicts := s.past.verdicts + [Verdict(s.pending, s.request, forward)]))
  }

  function ApplyBreak(s: State, l: nat): State
    requires l < |s.loops| && s.loops[l].hand.Holds?
  {
    s.(loops := s.loops[l := s.loops[l].(hand := Gone)], past := s.past.(lost := s.past.lost + [s.loops[l].hand.item]))
  }

  function ApplyDrain(s: State, d: nat): State
    requires d < |s.drains|
  {
    if s.queue == [] then s.(drains := s.drains[d := s.drains[d].(draining := false)])
    else
      var o := s.queue[0];
      var s' := s.(queue := s.queue[1..]);
      if o.Dead? then s'.(past := s'.past.(purged := s.past.purged + 1))
      else s'.(drains := s.drains[d := s.drains[d].(retained := s.drains[d].retained + [o])])
  }

  function ApplyRefill(s: State, d: nat): State
    requires d < |s.drains| && s.drains[d].retained != []
  {
    s.(queue := s.queue + [s.drains[d].retained[0]],
       drains := s.drains[d := s.drains[d].(retained := s.drains[d].retained[1..])])
  }

  function Run(s: State, es: seq<Event>): State {
    if es == [] then s else Apply(Run(s, es[..|es| - 1]), es[|es| - 1])
  }

  predicate Init(s: State) {
    && s.drains == [] && s.past == Past(s.queue, [], [], [], [], 0)
    && forall l :: 0 <= l < |s.loops| ==> s.loops[l] == Loop(Free, [], [])
  }

  // ----- Where the items are -------------------------------------------------------------------------------

  function InHand(h: Hand, o: Output): nat { if h == Holds(o) then 1 else 0 }

  function InHands(loops: seq<Loop>, o: Output): nat {
    if loops == [] then 0 else InHands(loops[..|loops| - 1], o) + InHand(loops[|loops| - 1].hand, o)
  }

  function Retained(drains: seq<Drain>, o: Output): nat {
    if drains == [] then 0 else Retained(drains[..|drains| - 1], o) + multiset(drains[|drains| - 1].retained)[o]
  }

  lemma {:induction false} HandChanges(loops: seq<Loop>, l: nat, now: Loop, o: Output)
    requires l < |loops|
    ensures InHands(loops[l := now], o) + InHand(loops[l].hand, o) == InHands(loops, o) + InHand(now.hand, o)
  {
    var n := |loops| - 1;
    if l < n {
      HandChanges(loops[..n], l, now, o);
      assert loops[l := now][..n] == loops[..n][l := now];
    } else {
      assert loops[l := now][..n] == loops[..n];
    }
  }

  lemma {:induction false} RetainedChanges(drains: seq<Drain>, d: nat, now: Drain, o: Output)
    requires d < |drains|
    ensures Retained(drains[d := now], o) + multiset(drains[d].retained)[o] == Retained(drains, o) + multiset(now.retained)[o]
  {
    var n := |drains| - 1;
    if d < n {
      RetainedChanges(drains[..n], d, now, o);
      assert drains[d := now][..n] == drains[..n][d := now];
    } else {
      assert drains[d := now][..n] == drains[..n];
    }
  }

  lemma TakeFirst(s: seq<Output>, o: Output)
    requires s != []
    ensures multiset(s)[o] == multiset(s[1..])[o] + if s[0] == o then 1 else 0
  {
    assert s == [s[0]] + s[1..];
  }

  lemma {:induction false} NothingRetained(drains: seq<Drain>, o: Output)
    requires forall d :: 0 <= d < |drains| ==> drains[d].retained == []
    ensures Retained(drains, o) == 0
  {
    if drains != [] {
      NothingRetained(drains[..|drains| - 1], o);
    }
  }

  // ----- Conservation --------------------------------------------------------------------------------------

  /** Every item produced is in exactly one place: on the queue, in a loop's hand, retained by a drain, sent, lost
      to a broken socket, or a sentinel that was decided about or purged. */
  ghost predicate Conserved(s: State) { forall o: Output :: Accounted(s, o) }

  ghost predicate Accounted(s: State, o: Output) {
    multiset(s.past.produced)[o] ==
      multiset(s.queue)[o] + InHands(s.loops, o) + Retained(s.drains, o) + multiset(s.past.sent)[o]
      + multiset(s.past.lost)[o] + (if o.Dead? then |s.past.verdicts| + s.past.purged else 0)
  }

  lemma LoopStepConserves(s: State, e: Event, o: Output)
    requires Accounted(s, o) && (e.Get? || e.Deliver? || e.Decide? || e.Break?)
    ensures Accounted(Apply(s, e), o)
  {
    var s' := Apply(s, e);
    if s' != s {
      HandChanges(s.loops, e.l, s'.loops[e.l], o);
      if e.Get? {
        TakeFirst(s.queue, o);
      }
    }
  }

  lemma DrainStepConserves(s: State, d: nat, o: Output)
    requires Accounted(s, o) && d < |s.drains|
    ensures Accounted(ApplyDrain(s, d), o)
  {
    if s.queue != [] {
      TakeFirst(s.queue, o);
    }
    if s.queue == [] || s.queue[0].For? {
      RetainedChanges(s.drains, d, ApplyDrain(s, d).drains[d], o);
    }
  }

  lemma RefillConserves(s: State, d: nat, o: Output)
    requires Accounted(s, o) && d < |s.drains| && s.drains[d].retained != []
    ensures Accounted(ApplyRefill(s, d), o)
  {
    RetainedChanges(s.drains, d, ApplyRefill(s, d).drains[d], o);
    TakeFirst(s.drains[d].retained, o);
  }

  lemma StartConserves(s: State, e: Event, o: Output)
    requires Accounted(s, o) && (e.StartLoop? || e.StartDrain?)
    ensures Accounted(Apply(s, e), o)
  {
    if e.StartLoop? {
      assert Apply(s, e).loops[..|s.loops|] == s.loops;
    } else {
      assert Apply(s, e).drains[..|s.drains|] == s.drains;
    }
  }

  lemma StepConserves(s: State, e: Event)
    requires Conserved(s)
    ensures Conserved(Apply(s, e))
  {
    forall o: Output ensures Accounted(Apply(s, e), o) {
      assert Accounted(s, o);
      match e
      case Produce(_) =>
      case SetPending(_) =>
      case SetRequest(_) =>
      case StartLoop => StartConserves(s, e, o);
      case StartDrain => StartConserves(s, e, o);
      case DrainGet(d) => if Apply(s, e) != s { DrainStepConserves(s, d, o); }
      case Refill(d) => if Apply(s, e) != s { RefillConserves(s, d, o); }
      case _ => LoopStepConserves(s, e, o);
    }
  }

  /** However producer, loops, drains and markers interleave, nothing is duplicated and nothing disappears. */
  lemma {:induction false} ExactlyOnce(s0: State, es: seq<Event>)
    requires Init(s0)
    ensures Conserved(Run(s0, es))
  {
    if es == [] {
      forall o: Output ensures Accounted(s0, o) {
        NothingInHand(s0.loops, o);
      }
    } else {
      ExactlyOnce(s0, es[..|es| - 1]);
      StepConserves(Run(s0, es[..|es| - 1]), es[|es| - 1]);
    }
  }

  /** And while no socket breaks, every output is sent or still on its way. */
  lemma {:induction false} NothingIsLost(s0: State, es: seq<Event>)
    requires Init(s0) && forall k :: 0 <= k < |es| ==> !es[k].Break?
    ensures Run(s0, es).past.lost == []
  {
    if es != [] {
      NothingIsLost(s0, es[..|es| - 1]);
    }
  }

  lemma {:induction false} NothingInHand(loops: seq<Loop>, o: Output)
    requires forall l :: 0 <= l < |loops| ==> loops[l].hand.Free?
    ensures InHands(loops, o) == 0
  {
    if loops != [] {
      NothingInHand(loops[..|loops| - 1], o);
    }
  }

  // ----- Order ---------------------------------------------------------------------------------------------

  function Outputs(os: seq<Output>): seq<Output> {
    if os == [] then []
    else Outputs(os[..|os| - 1]) + if os[|os| - 1].For? then [os[|os| - 1]] else []
  }

  lemma OutputsJoins(xs: seq<Output>, o: Output)
    ensures Outputs(xs + [o]) == Outputs(xs) + if o.For? then [o] else []
  {
    assert (xs + [o])[..|xs|] == xs;
  }

  /** A loop sends the outputs it took off the queue in the order it took them, up to the one in its hand. */
  predicate InOrder(l: Loop) {
    if l.hand.Gone? then l.put <= Outputs(l.got)
    else Outputs(l.got) == l.put + if Carries(l.hand) then [l.hand.item] else []
  }

  ghost predicate AllInOrder(s: State) { forall l :: 0 <= l < |s.loops| ==> InOrder(s.loops[l]) }

  lemma StepKeepsOrder(s: State, e: Event)
    requires AllInOrder(s)
    ensures AllInOrder(Apply(s, e))
  {
    forall l | 0 <= l < |Apply(s, e).loops| ensures InOrder(Apply(s, e).loops[l]) {
      if l < |s.loops| {
        LoopStaysInOrder(s, e, l);
      }
    }
  }

  lemma LoopStaysInOrder(s: State, e: Event, l: nat)
    requires l < |s.loops| && InOrder(s.loops[l])
    ensures l < |Apply(s, e).loops| && InOrder(Apply(s, e).loops[l])
  {
    if e == Get(l) && Apply(s, e) != s {
      OutputsJoins(s.loops[l].got, s.queue[0]);
      assert s.loops[l].put + [] == s.loops[l].put;
    }
  }

  lemma {:induction false} LoopsKeepOrder(s0: State, es: seq<Event>)
    requires Init(s0)
    ensures AllInOrder(Run(s0, es))
  {
    if es != [] {
      LoopsKeepOrder(s0, es[..|es| - 1]);
      StepKeepsOrder(Run(s0, es[..|es| - 1]), es[|es| - 1]);
    }
  }

  // ----- Sentinels ----------------------------------------------------------------------------------------

  /** A loop forwards a sentinel, and ends, exactly if neither marker is there when it decides. */
  lemma {:induction false} VerdictsAreRight(s0: State, es: seq<Event>)
    requires Init(s0)
    ensures forall v :: v in Run(s0, es).past.verdicts ==> (v.forwarded <==> !v.pending && !v.request)
  {
    if es != [] {
      VerdictsAreRight(s0, es[..|es| - 1]);
    }
  }

  lemma ForwardingEndsTheLoop(s: State, l: nat)
    requires l < |s.loops| && s.loops[l].hand == Holds(Dead)
    ensures var s' := Apply(s, Decide(l));
            && s'.past.verdicts == s.past.verdicts + [Verdict(s.pending, s.request, s'.loops[l].hand.Gone?)]
            && (s'.loops[l].hand.Gone? <==> !s.pending && !s.request) && (!s'.loops[l].hand.Gone? ==> s'.loops[l].hand.Free?)
  {
  }

  // ----- The order of the queue ----------------------------------------------------------------------------

  /** The pass that retains something, or one that does not. */
  function Busy(drains: seq<Drain>): Drain {
    if drains == [] then Drain(true, [])
    else if drains[|drains| - 1].retained != [] then drains[|drains| - 1]
    else Busy(drains[..|drains| - 1])
  }

  /** What the queue will hold once pass `b` is through with it: what it retains goes before what it has still to
      take, and behind what it has put back. */
  function Through(b: Drain, queue: seq<Output>): seq<Output> {
    if b.draining then b.retained + queue else queue + b.retained
  }

  /** At most one pass retains anything. */
  ghost predicate OnePass(drains: seq<Drain>) {
    forall d, e :: 0 <= d < e < |drains| ==> drains[d].retained == [] || drains[e].retained == []
  }

  /** The outputs as the queue will hold them once the pass in progress is through. */
  function Line(s: State): seq<Output> { Through(Busy(s.drains), Outputs(s.queue)) }

  /** Passes retain no sentinels. */
  ghost predicate Purged(drains: seq<Drain>) {
    forall d, o :: 0 <= d < |drains| && o in drains[d].retained ==> o.For?
  }

  ghost predicate Single(s: State) { OnePass(s.drains) && Purged(s.drains) }

  /** Outputs leave, and will leave, in the order they were produced. */
  ghost predicate FirstInFirstOut(s: State) { Outputs(s.past.taken) + Line(s) == Outputs(s.past.produced) }

  /** Moving `o` past `os` shows. */
  predicate Matters(o: Output, os: seq<Output>) { o.For? && [o] + os != os + [o] }

  /** The steps that put an output before an older one: a producer's, beside a pass that refills the queue, and a
      loop's, beside one that empties it. */
  predicate Overtakes(s: State, e: Event) {
    match e
    case Produce(o) => !Busy(s.drains).draining && Matters(o, Busy(s.drains).retained)
    case Get(l) => Apply(s, e) != s && Busy(s.drains).draining && Matters(s.queue[0], Busy(s.drains).retained)
    case _ => false
  }

  lemma {:induction false} OutputsHead(xs: seq<Output>)
    requires xs != []
    ensures Outputs(xs) == (if xs[0].For? then [xs[0]] else []) + Outputs(xs[1..])
  {
    var n := |xs| - 1;
    if n == 0 {
      assert xs[..0] == [] && xs[1..] == [];
    } else {
      OutputsHead(xs[..n]);
      assert xs[..n][1..] == xs[1..][..n - 1];
    }
  }

  ghost predicate OthersIdle(drains: seq<Drain>, d: nat) {
    forall e :: 0 <= e < |drains| && e != d ==> drains[e].retained == []
  }

  lemma {:induction false} BusyIs(drains: seq<Drain>, d: nat)
    requires d < |drains| && OthersIdle(drains, d)
    ensures Busy(drains) == if drains[d].retained != [] then drains[d] else Drain(true, [])
  {
    var n := |drains| - 1;
    if d < n {
      BusyIs(drains[..n], d);
    } else if drains[d].retained == [] && n > 0 {
      BusyIs(drains[..n], n - 1);
    }
  }

  /** A pass that retains nothing, before and after, is not seen. */
  lemma {:induction false} IdlePass(drains: seq<Drain>, d: nat, now: Drain)
    requires d < |drains| && drains[d].retained == now.retained == []
    ensures Busy(drains[d := now]) == Busy(drains)
  {
    var n := |drains| - 1;
    var changed := drains[d := now];
    if d < n {
      assert changed[..n] == drains[..n][d := now];
      if drains[n].retained == [] {
        IdlePass(drains[..n], d, now);
      }
    } else {
      assert changed[..n] == drains[..n];
    }
  }

  /** Equal prefixes and suffixes do not matter. */
  lemma Cancel(p: seq<Output>, x: seq<Output>, y: seq<Output>, q: seq<Output>)
    requires |x| == |y|
    ensures p + (x + q) == p + (y + q) <==> x == y
  {
    if p + (x + q) == p + (y + q) {
      assert (p + (x + q))[|p|..][..|x|] == x && (p + (y + q))[|p|..][..|y|] == y;
    }
  }

  /** An output `o` put behind `q` when `b` is still to come. */
  lemma PutBefore(t: seq<Output>, q: seq<Output>, b: seq<Output>, o: Output, p: seq<Output>)
    requires t + (q + b) == p
    ensures t + ((q + [o]) + b) == p + [o] <==> [o] + b == b + [o]
  {
    var x, y := [o] + b, b + [o];
    Cancel(t + q, x, y, []);
    assert x + [] == x && y + [] == y;
    assert t + ((q + [o]) + b) == (t + q) + x && p + [o] == (t + q) + y;
  }

  /** An output `o` taken from before `q` when `f` should have left first. */
  lemma TakeBefore(t: seq<Output>, f: seq<Output>, o: Output, q: seq<Output>)
    ensures (t + [o]) + (f + q) == t + (f + ([o] + q)) <==> [o] + f == f + [o]
  {
    var x, y := [o] + f, f + [o];
    Cancel(t, x, y, q);
    assert (t + [o]) + (f + q) == t + (x + q) && t + (f + ([o] + q)) == t + (y + q);
  }

  lemma ProduceMoves(s: State, o: Output)
    requires Single(s) && FirstInFirstOut(s) && o.For?
    ensures FirstInFirstOut(Apply(s, Produce(o))) <==> !Overtakes(s, Produce(o))
  {
    var t, q, b := Outputs(s.past.taken), Outputs(s.queue), Busy(s.drains);
    OutputsJoins(s.queue, o);
    OutputsJoins(s.past.produced, o);
    if b.draining {
      assert t + (b.retained + (q + [o])) == t + (b.retained + q) + [o];
    } else {
      PutBefore(t, q, b.retained, o, Outputs(s.past.produced));
    }
  }

  lemma GetMoves(s: State, l: nat)
    requires FirstInFirstOut(s) && Apply(s, Get(l)) != s && s.queue[0].For?
    ensures FirstInFirstOut(Apply(s, Get(l))) <==> !Overtakes(s, Get(l))
  {
    var o, t, b := s.queue[0], Outputs(s.past.taken), Busy(s.drains);
    var q := Outputs(s.queue[1..]);
    OutputsHead(s.queue);
    OutputsJoins(s.past.taken, o);
    if b.draining {
      TakeBefore(t, b.retained, o, q);
    } else {
      assert (t + [o]) + (q + b.retained) == t + (([o] + q) + b.retained);
    }
  }

  /** Taking a sentinel, or producing one, shows nowhere. */
  lemma SentinelMoves(s: State, e: Event)
    requires FirstInFirstOut(s) && (e == Produce(Dead) || (e.Get? && Apply(s, e) != s && s.queue[0].Dead?))
    ensures FirstInFirstOut(Apply(s, e))
  {
    if e.Produce? {
      OutputsJoins(s.queue, Dead);
      OutputsJoins(s.past.produced, Dead);
      assert Outputs(s.queue) + [] == Outputs(s.queue) && Outputs(s.past.produced) + [] == Outputs(s.past.produced);
    } else {
      OutputsHead(s.queue);
      OutputsJoins(s.past.taken, Dead);
      var q := Outputs(s.queue[1..]);
      assert [] + q == q && Outputs(s.past.taken) + [] == Outputs(s.past.taken);
    }
  }

  lemma OthersAreIdle(drains: seq<Drain>, d: nat)
    requires d < |drains| && OnePass(drains) && drains[d].retained != []
    ensures OthersIdle(drains, d)
  {
  }

  lemma DrainGetMoves(s: State, d: nat)
    requires Single(s) && FirstInFirstOut(s) && d < |s.drains| && s.drains[d].draining
    requires OnePass(ApplyDrain(s, d).drains)
    ensures FirstInFirstOut(ApplyDrain(s, d)) && Line(ApplyDrain(s, d)) == Line(s)
  {
    var s', pass := ApplyDrain(s, d), s.drains[d];
    if s.queue == [] && pass.retained == [] {
      IdlePass(s.drains, d, s'.drains[d]);
    } else if s.queue == [] {
      OthersAreIdle(s.drains, d);
      BusyIs(s.drains, d);
      BusyIs(s'.drains, d);
      assert pass.retained + [] == pass.retained == [] + pass.retained;
    } else {
      OutputsHead(s.queue);
      var q := Outputs(s.queue[1..]);
      if s.queue[0].Dead? {
        assert [] + q == q;
      } else {
        OthersAreIdle(s'.drains, d);
        assert OthersIdle(s.drains, d) by { assert forall e :: 0 <= e < |s.drains| && e != d ==> s'.drains[e] == s.drains[e]; }
        BusyIs(s.drains, d);
        BusyIs(s'.drains, d);
        assert pass.retained + ([s.queue[0]] + q) == pass.retained + [s.queue[0]] + q;
      }
    }
  }

  lemma RefillMoves(s: State, d: nat)
    requires Single(s) && FirstInFirstOut(s) && d < |s.drains| && !s.drains[d].draining && s.drains[d].retained != []
    ensures Single(ApplyRefill(s, d)) && FirstInFirstOut(ApplyRefill(s, d)) && Line(ApplyRefill(s, d)) == Line(s)
  {
    var s', pass, q := ApplyRefill(s, d), s.drains[d], Outputs(s.queue);
    OthersAreIdle(s.drains, d);
    BusyIs(s.drains, d);
    assert OthersIdle(s'.drains, d);
    BusyIs(s'.drains, d);
    OutputsJoins(s.queue, pass.retained[0]);
    assert pass.retained == [pass.retained[0]] + pass.retained[1..];
    assert q + [pass.retained[0]] + pass.retained[1..] == q + pass.retained;
    assert pass.retained[1..] == [] ==> [] + (q + [pass.retained[0]]) == q + pass.retained;
  }

  /** As long as one pass at most retains anything: from a state in order, exactly the steps that overtake lead out of
      order. */
  lemma StepKeepsQueueOrder(s: State, e: Event)
    requires Single(s) && FirstInFirstOut(s) && OnePass(Apply(s, e).drains)
    ensures FirstInFirstOut(Apply(s, e)) <==> !Overtakes(s, e)
  {
    match e
    case Produce(o) => if o.For? { ProduceMoves(s, o); } else { SentinelMoves(s, e); }
    case Get(l) => if Apply(s, e) != s { if s.queue[0].For? { GetMoves(s, l); } else { SentinelMoves(s, e); } }
    case DrainGet(d) => if Apply(s, e) != s { DrainGetMoves(s, d); }
    case Refill(d) => if Apply(s, e) != s { RefillMoves(s, d); }
    case StartDrain => assert Apply(s, e).drains[..|s.drains|] == s.drains;
    case _ =>
  }

  /** No sentinel is ever retained. */
  lemma {:induction false} AlwaysPurged(s0: State, es: seq<Event>)
    requires Init(s0)
    ensures Purged(Run(s0, es).drains)
  {
    if es != [] {
      AlwaysPurged(s0, es[..|es| - 1]);
    }
  }

  /** One pass at most retains anything, at every moment of the run. */
  ghost predicate OneAtATime(s0: State, es: seq<Event>) {
    OnePass(Run(s0, es).drains) && (es != [] ==> OneAtATime(s0, es[..|es| - 1]))
  }

  /** In order at every moment of the run. */
  ghost predicate AlwaysInOrder(s0: State, es: seq<Event>) {
    FirstInFirstOut(Run(s0, es)) && (es != [] ==> AlwaysInOrder(s0, es[..|es| - 1]))
  }

  ghost predicate NeverOvertakes(s0: State, es: seq<Event>) {
    es != [] ==> NeverOvertakes(s0, es[..|es| - 1]) && !Overtakes(Run(s0, es[..|es| - 1]), es[|es| - 1])
  }

  /** Such a run is in order throughout exactly if none of its steps overtakes. */
  lemma {:induction false} QueueKeepsOrder(s0: State, es: seq<Event>)
    requires Init(s0) && OneAtATime(s0, es)
    ensures AlwaysInOrder(s0, es) <==> NeverOvertakes(s0, es)
  {
    if es == [] {
      assert Outputs([]) + ([] + Outputs(s0.queue)) == Outputs(s0.queue);
    } else {
      var before := es[..|es| - 1];
      QueueKeepsOrder(s0, before);
      AlwaysPurged(s0, before);
      if AlwaysInOrder(s0, before) {
        StepKeepsQueueOrder(Run(s0, before), es[|es| - 1]);
      }
    }
  }

  // ----- The drain pass ------------------------------------------------------------------------------------

  /** `_discard_stale_engine_dead_outputs` on a queue nobody else touches meanwhile. */
  method DiscardStale(before: seq<Output>) returns (queue: seq<Output>, discarded: nat)
    ensures queue == Outputs(before) && discarded + |queue| == |before|
    ensures forall o: Output :: multiset(queue)[o] == if o.Dead? then 0 else multiset(before)[o]
  {
    queue, discarded := before, 0;
    var retained := [];
    while queue != []
      invariant queue == before[|before| - |queue|..]
      invariant retained == Outputs(before[..|before| - |queue|])
      invariant discarded + |retained| + |queue| == |before|
      decreases |queue|
    {
      var k := |before| - |queue|;
      assert before[..k + 1][..k] == before[..k];
      if queue[0].Dead? {
        discarded := discarded + 1;
      } else {
        retained := retained + [queue[0]];
      }
      queue := queue[1..];
    }
    assert before[..|before|] == before;
    var i := 0;
    while i < |retained|
      invariant 0 <= i <= |retained| && queue == retained[..i]
    {
      queue := queue + [retained[i]];
      i := i + 1;
    }
    AllButSentinels(before);
  }

  lemma {:induction false} AllButSentinels(os: seq<Output>)
    ensures forall o: Output :: multiset(Outputs(os))[o] == if o.Dead? then 0 else multiset(os)[o]
  {
    if os != [] {
      var n := |os| - 1;
      AllButSentinels(os[..n]);
      assert os == os[..n] + [os[n]];
    }
  }

  // ----- What order means, and how it is lost --------------------------------------------------------------

  predicate ByPass(es: seq<Event>, d: nat) { forall e :: e in es ==> e == DrainGet(d) || e == Refill(d) }

  /** What the pass does next. */
  function PassStep(s: State, d: nat): Event
    requires d < |s.drains|
  {
    if s.drains[d].draining then DrainGet(d) else Refill(d)
  }

  lemma PassMoves(s: State, d: nat)
    requires Single(s) && FirstInFirstOut(s) && d < |s.drains| && s.drains[d].retained != []
    ensures var s' := Apply(s, PassStep(s, d));
            && Single(s') && FirstInFirstOut(s') && Line(s') == Line(s) && s'.past.taken == s.past.taken
            && d < |s'.drains| && OthersIdle(s'.drains, d) && (s'.drains[d].draining ==> s.drains[d].draining)
            && (s'.drains[d].draining ==> |s'.queue| < |s.queue|)
            && (!s.drains[d].draining ==> |s'.drains[d].retained| < |s.drains[d].retained|)
  {
    var s' := Apply(s, PassStep(s, d));
    OthersAreIdle(s.drains, d);
    assert OthersIdle(s'.drains, d);
    if s.drains[d].draining { DrainGetMoves(s, d); } else { RefillMoves(s, d); }
  }

  lemma PassIsThrough(s: State, d: nat)
    requires d < |s.drains| && OthersIdle(s.drains, d) && s.drains[d].retained == []
    ensures Busy(s.drains).retained == [] && Line(s) == Outputs(s.queue)
  {
    BusyIs(s.drains, d);
    assert [] + Outputs(s.queue) == Outputs(s.queue);
  }

  /** A pass that nobody disturbs leaves the queue as the line says, and nothing retained. */
  lemma {:induction false} LineComesTrue(s: State, d: nat) returns (es: seq<Event>)
    requires Single(s) && FirstInFirstOut(s) && d < |s.drains| && s.drains[d].retained != []
    ensures ByPass(es, d)
    ensures var s' := Run(s, es);
            Outputs(s'.queue) == Line(s) && s'.past.taken == s.past.taken && Busy(s'.drains).retained == []
    decreases if s.drains[d].draining then 1 else 0, if s.drains[d].draining then |s.queue| else |s.drains[d].retained|
  {
    var s1 := Apply(s, PassStep(s, d));
    PassMoves(s, d);
    var rest := [];
    if s1.drains[d].retained == [] {
      PassIsThrough(s1, d);
    } else {
      rest := LineComesTrue(s1, d);
    }
    es := [PassStep(s, d)] + rest;
    RunFrom(s, PassStep(s, d), rest);
  }

  lemma {:induction false} RunFrom(s: State, e: Event, es: seq<Event>)
    ensures Run(s, [e] + es) == Run(Apply(s, e), es)
  {
    if es == [] {
      assert [e] + es == [e] && [e][..0] == [];
    } else {
      RunFrom(s, e, es[..|es| - 1]);
      assert ([e] + es)[..|[e] + es| - 1] == [e] + es[..|es| - 1];
    }
  }

  const A := For(0, 1)
  const B := For(0, 2)
  const NONE := Past([], [], [], [], [], 0)

  /** A pass and an idle loop beside it. */
  function Beside(queue: seq<Output>, pass: Drain, produced: seq<Output>): State {
    State(queue, [Loop(Free, [], [])], [pass], false, false, NONE.(produced := produced))
  }

  function Fresh(queue: seq<Output>): State {
    State(queue, [Loop(Free, [], [])], [], false, false, NONE.(produced := queue))
  }

  lemma OnlyOutputs()
    ensures Outputs([]) == [] && Outputs([A]) == [A] && Outputs([B]) == [B] && Outputs([A, B]) == [A, B]
    ensures Matters(B, [A])
  {
    assert [A][..0] == [] && [B][..0] == [] && [A, B][..1] == [A] && [A] + [B] == [A, B];
    assert ([B] + [A])[0] != ([A] + [B])[0];
  }

  lemma InOrderBeside(queue: seq<Output>, pass: Drain, produced: seq<Output>)
    requires Through(pass, Outputs(queue)) == Outputs(produced) && pass.retained == [A]
    ensures Single(Beside(queue, pass, produced)) && FirstInFirstOut(Beside(queue, pass, produced)) && Busy([pass]) == pass
  {
    BusyIs([pass], 0);
    assert [] + Outputs(produced) == Outputs(produced);
  }

  lemma FirstSteps(queue: seq<Output>)
    ensures Apply(Fresh([A] + queue), StartDrain) == Beside([A] + queue, Drain(true, []), [A] + queue)
    ensures Apply(Beside([A] + queue, Drain(true, []), [A] + queue), DrainGet(0)) == Beside(queue, Drain(true, [A]), [A] + queue)
  {
    assert ([A] + queue)[1..] == queue && [] + [A] == [A];
  }

  /** A producer beside a pass that refills the queue: the newer output ends up in front. */
  lemma ProducerOvertakes()
    ensures var s := Run(Fresh([A]), [StartDrain, DrainGet(0), DrainGet(0)]);
            && Init(Fresh([A])) && Single(s) && FirstInFirstOut(s) && Overtakes(s, Produce(B))
            && Apply(Apply(s, Produce(B)), Refill(0)).queue == [B, A]
  {
    OnlyOutputs();
    FirstSteps([]);
    assert [A] + [] == [A] && [] + [A] == [A] && [A][1..] == [] && [] + [B] == [B] && [B] + [A] == [B, A];
    InOrderBeside([], Drain(false, [A]), [A]);
    RunFrom(Fresh([A]), StartDrain, [DrainGet(0), DrainGet(0)]);
    RunFrom(Beside([A], Drain(true, []), [A]), DrainGet(0), [DrainGet(0)]);
    RunFrom(Beside([], Drain(true, [A]), [A]), DrainGet(0), []);
    assert [StartDrain] + [DrainGet(0), DrainGet(0)] == [StartDrain, DrainGet(0), DrainGet(0)];
    assert [DrainGet(0)] + [DrainGet(0)] == [DrainGet(0), DrainGet(0)] && [DrainGet(0)] + [] == [DrainGet(0)];
  }

  /** A loop beside a pass that empties it, with nothing produced meanwhile: the newer output is sent first. */
  lemma LoopOvertakes()
    ensures var s := Run(Fresh([A, B]), [StartDrain, DrainGet(0)]);
            && Init(Fresh([A, B])) && Single(s) && FirstInFirstOut(s) && Overtakes(s, Get(0))
            && Apply(s, Get(0)).past.taken == [B] && Busy(Apply(s, Get(0)).drains).retained == [A]
  {
    OnlyOutputs();
    FirstSteps([B]);
    assert [A] + [B] == [A, B] && [] + [B] == [B];
    InOrderBeside([B], Drain(true, [A]), [A, B]);
    RunFrom(Fresh([A, B]), StartDrain, [DrainGet(0)]);
    RunFrom(Beside([A, B], Drain(true, []), [A, B]), DrainGet(0), []);
    assert [StartDrain] + [DrainGet(0)] == [StartDrain, DrainGet(0)] && [DrainGet(0)] + [] == [DrainGet(0)];
  }
}
