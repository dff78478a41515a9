/** Two drain passes on the output queue at once: what they alone can make of its order. */
module OutputPasses {
  import opened OutputItems
  import opened OutputQueue

  // ----- Continuations -------------------------------------------------------------------------------------

  /** Only passes move. */
  ghost predicate ByPasses(es: seq<Event>) { forall e :: e in es ==> e.DrainGet? || e.Refill? }

  ghost predicate Leads(s: State, s': State) { exists es :: ByPasses(es) && Run(s, es) == s' }

  /** No pass retains anything any more. */
  ghost predicate Settled(s: State) { forall d :: 0 <= d < |s.drains| ==> s.drains[d].retained == [] }

  ghost predicate InOrder(s: State) { Outputs(s.past.taken) + Outputs(s.queue) == Outputs(s.past.produced) }

  /** The passes alone can end with the outputs in order, or out of it. */
  ghost predicate CanEnd(s: State, order: bool) { exists s' :: Leads(s, s') && Settled(s') && InOrder(s') == order }

  /** Two of them differ. */
  predicate Mixed(os: seq<Output>) { exists i, j :: 0 <= i < j < |os| && os[i] != os[j] }

  lemma {:induction false} RunJoins(s: State, es: seq<Event>, fs: seq<Event>)
    ensures Run(s, es + fs) == Run(Run(s, es), fs)
  {
    if fs == [] {
      assert es + fs == es;
    } else {
      RunJoins(s, es, fs[..|fs| - 1]);
      assert (es + fs)[..|es + fs| - 1] == es + fs[..|fs| - 1];
    }
  }

  lemma LeadsJoins(s: State, s1: State, s2: State)
    requires Leads(s, s1) && Leads(s1, s2)
    ensures Leads(s, s2)
  {
    var es :| ByPasses(es) && Run(s, es) == s1;
    var fs :| ByPasses(fs) && Run(s1, fs) == s2;
    RunJoins(s, es, fs);
    assert ByPasses(es + fs);
  }

  lemma LeadsStep(s: State, e: Event)
    requires e.DrainGet? || e.Refill?
    ensures Leads(s, Apply(s, e)) && Leads(s, s)
  {
    assert [e][..0] == [] && Run(s, [e]) == Apply(s, e) && Run(s, []) == s;
    assert ByPasses([e]) && ByPasses([]);
  }

  // ----- What one pass does --------------------------------------------------------------------------------

  /** Pass `d` is at `pass` and the queue is `queue`; nothing else has changed but the number of sentinels purged. */
  predicate Moved(s: State, s': State, d: nat, pass: Drain, queue: seq<Output>) {
    && d < |s.drains| && s'.drains == s.drains[d := pass] && s'.queue == queue
    && s'.past.taken == s.past.taken && s'.past.produced == s.past.produced
  }

  /** A pass empties the queue, and finds it empty. */
  lemma {:induction false} Empties(s: State, d: nat) returns (s': State)
    requires d < |s.drains| && s.drains[d].draining
    ensures Leads(s, s') && Moved(s, s', d, Drain(false, s.drains[d].retained + Outputs(s.queue)), [])
    decreases |s.queue|
  {
    var s1 := Apply(s, DrainGet(d));
    LeadsStep(s, DrainGet(d));
    if s.queue == [] {
      s' := s1;
      assert s.drains[d].retained + [] == s.drains[d].retained;
    } else {
      s' := Empties(s1, d);
      LeadsJoins(s, s1, s');
      OutputsHead(s.queue);
      TakenUp(s.drains[d].retained, s.queue[0], Outputs(s.queue[1..]));
    }
  }

  lemma TakenUp(retained: seq<Output>, o: Output, rest: seq<Output>)
    ensures retained + ([o] + rest) == (retained + [o]) + rest
    ensures retained + ([] + rest) == retained + rest
  {
  }

  /** A pass puts back `k` of what it retains. */
  lemma {:induction false} Refills(s: State, d: nat, k: nat) returns (s': State)
    requires d < |s.drains| && !s.drains[d].draining && k <= |s.drains[d].retained|
    ensures var retained := s.drains[d].retained;
            Leads(s, s') && Moved(s, s', d, Drain(false, retained[k..]), s.queue + retained[..k])
    decreases k
  {
    var retained := s.drains[d].retained;
    if k == 0 {
      LeadsStep(s, Refill(d));
      s' := s;
      assert retained[0..] == retained && s.queue + retained[..0] == s.queue;
    } else {
      var s1 := Apply(s, Refill(d));
      LeadsStep(s, Refill(d));
      s' := Refills(s1, d, k - 1);
      LeadsJoins(s, s1, s');
      PutBack(s.queue, retained, k);
    }
  }

  lemma PutBack(queue: seq<Output>, retained: seq<Output>, k: nat)
    requires 0 < k <= |retained|
    ensures retained[1..][k - 1..] == retained[k..]
    ensures queue + [retained[0]] + retained[1..][..k - 1] == queue + retained[..k]
  {
  }

  // ----- Two passes that refill ----------------------------------------------------------------------------

  /** Passes `d` and `e` are about to put back `x` and `y`, into an empty queue, and no other pass retains anything. */
  ghost predicate Facing(s: State, d: nat, e: nat, x: seq<Output>, y: seq<Output>) {
    && d < |s.drains| && e < |s.drains| && d != e && s.queue == []
    && s.drains[d] == Drain(false, x) && s.drains[e] == Drain(false, y)
    && forall f :: 0 <= f < |s.drains| && f != d && f != e ==> s.drains[f].retained == []
  }

  /** First `k` of `x`, then all of `y`, then the rest of `x`. */
  lemma Weave(s: State, d: nat, e: nat, x: seq<Output>, y: seq<Output>, k: nat) returns (s': State)
    requires Facing(s, d, e, x, y) && k <= |x|
    ensures Leads(s, s') && Settled(s') && s'.queue == x[..k] + y + x[k..]
    ensures s'.past.taken == s.past.taken && s'.past.produced == s.past.produced
  {
    var s1 := Refills(s, d, k);
    var s2 := Refills(s1, e, |y|);
    s' := Refills(s2, d, |x| - k);
    LeadsJoins(s, s1, s2);
    LeadsJoins(s, s2, s');
    assert [] + x[..k] == x[..k] && y[..|y|] == y && x[k..][..|x| - k] == x[k..];
  }

  /** Words that commute, and still do when one loses its first letter, have one letter. */
  lemma OneLetter(x: seq<Output>, y: seq<Output>)
    requires x != [] && y != [] && x + y == y + x && [x[0]] + y + x[1..] == x + y
    ensures !Mixed(x + y)
  {
    var c := x[0];
    assert (y + x)[0] == y[0] && (x + y)[0] == c;
    Shifted(x, y);
    AllOf(y, c);
    Spreads(x, y, c);
    assert forall i :: 0 <= i < |x + y| ==> (x + y)[i] == if i < |x| then x[i] else y[i - |x|];
  }

  lemma Shifted(x: seq<Output>, y: seq<Output>)
    requires x != [] && x + y == y + x && [x[0]] + y + x[1..] == x + y
    ensures [x[0]] + y == y + [x[0]]
  {
    var n := |y| + 1;
    assert ([x[0]] + y + x[1..])[..n] == [x[0]] + y;
    assert (y + x)[..n] == y + [x[0]];
  }

  /** A word that `c` can be moved past is all `c`. */
  lemma AllOf(y: seq<Output>, c: Output)
    requires [c] + y == y + [c]
    ensures forall i :: 0 <= i < |y| ==> y[i] == c
  {
    forall i | 0 <= i < |y| ensures y[i] == c {
      Letter(y, c, i);
    }
  }

  lemma {:induction false} Letter(y: seq<Output>, c: Output, i: nat)
    requires [c] + y == y + [c] && i < |y|
    ensures y[i] == c
  {
    assert ([c] + y)[i] == (y + [c])[i];
    if i > 0 {
      Letter(y, c, i - 1);
    }
  }

  lemma Spreads(x: seq<Output>, y: seq<Output>, c: Output)
    requires y != [] && x + y == y + x && forall i :: 0 <= i < |y| ==> y[i] == c
    ensures forall i :: 0 <= i < |x| ==> x[i] == c
  {
    forall i | 0 <= i < |x| ensures x[i] == c {
      SpreadsTo(x, y, c, i);
    }
  }

  lemma {:induction false} SpreadsTo(x: seq<Output>, y: seq<Output>, c: Output, i: nat)
    requires y != [] && x + y == y + x && (forall k :: 0 <= k < |y| ==> y[k] == c) && i < |x|
    ensures x[i] == c
  {
    assert (x + y)[i] == (y + x)[i];
    if i >= |y| {
      SpreadsTo(x, y, c, i - |y|);
    }
  }

  lemma WeaveEnds(x: seq<Output>, y: seq<Output>)
    ensures x[..|x|] + y + x[|x|..] == x + y && x[..0] + y + x[0..] == y + x
  {
  }

  /** So if the outputs differ, one of three ways to put them back is not the one that is wanted. */
  lemma AnotherWay(s: State, d: nat, e: nat, x: seq<Output>, y: seq<Output>, wanted: seq<Output>) returns (s': State)
    requires Facing(s, d, e, x, y) && x != [] && y != [] && Mixed(x + y)
    ensures Leads(s, s') && Settled(s') && s'.queue != wanted
    ensures s'.past.taken == s.past.taken && s'.past.produced == s.past.produced
    ensures exists k :: 0 <= k <= |x| && s'.queue == x[..k] + y + x[k..]
  {
    WeaveEnds(x, y);
    if x + y != wanted {
      s' := Weave(s, d, e, x, y, |x|);
    } else if y + x != wanted {
      s' := Weave(s, d, e, x, y, 0);
    } else {
      s' := Weave(s, d, e, x, y, 1);
      assert x[..1] == [x[0]];
      if s'.queue == wanted {
        OneLetter(x, y);
      }
    }
  }

  // ----- A second pass -------------------------------------------------------------------------------------

  /** Pass `d` retains something; pass `e`, which does not, is about to take an output off the queue. */
  ghost predicate Joining(s: State, d: nat, e: nat) {
    && Single(s) && d < |s.drains| && e < |s.drains| && d != e && s.drains[d].retained != []
    && s.drains[e].draining && s.queue != [] && s.queue[0].For?
  }

  lemma JoiningIs(s: State, e: nat) returns (d: nat)
    requires Single(s) && e < |s.drains| && !OnePass(Apply(s, DrainGet(e)).drains)
    ensures Joining(s, d, e)
  {
    var s' := Apply(s, DrainGet(e));
    var i, j :| 0 <= i < j < |s'.drains| && s'.drains[i].retained != [] && s'.drains[j].retained != [];
    d := if i == e then j else i;
  }

  /** The queue is emptied into the second pass, and both are to refill it. */
  lemma Faces(s: State, d: nat, e: nat) returns (s': State)
    requires Joining(s, d, e)
    ensures Leads(Apply(s, DrainGet(e)), s') && Facing(s', d, e, s.drains[d].retained, Outputs(s.queue))
    ensures s'.past.taken == s.past.taken && s'.past.produced == s.past.produced
  {
    var s1 := Apply(s, DrainGet(e));
    OthersAreIdle(s.drains, d);
    assert s.drains[e].retained == [] && [] + [s.queue[0]] == [s.queue[0]];
    OutputsHead(s.queue);
    var s2 := Empties(s1, e);
    s' := s2;
    if s2.drains[d].draining {
      s' := Empties(s2, d);
      LeadsJoins(s1, s2, s');
      assert s.drains[d].retained + Outputs([]) == s.drains[d].retained;
    }
  }

  lemma {:induction false} OnlyOutputsStay(os: seq<Output>)
    requires forall o :: o in os ==> o.For?
    ensures Outputs(os) == os
  {
    if os != [] {
      OnlyOutputsStay(os[..|os| - 1]);
      assert os == os[..|os| - 1] + [os[|os| - 1]];
    }
  }

  lemma {:induction false} OutputsAreOutputs(os: seq<Output>)
    ensures forall o :: o in Outputs(os) ==> o.For? && o in os
  {
    if os != [] {
      OutputsAreOutputs(os[..|os| - 1]);
      assert os == os[..|os| - 1] + [os[|os| - 1]];
    }
  }

  lemma WeaveIsOutputs(x: seq<Output>, y: seq<Output>, k: nat)
    requires k <= |x| && (forall o :: o in x ==> o.For?) && forall o :: o in y ==> o.For?
    ensures Outputs(x[..k] + y + x[k..]) == x[..k] + y + x[k..]
  {
    OnlyOutputsStay(x[..k] + y + x[k..]);
  }

  /** What is still to come, in order: what the first pass retains, and what is in the queue. */
  lemma LineOfTwo(s: State, d: nat, e: nat)
    requires Joining(s, d, e)
    ensures var x, y := s.drains[d].retained, Outputs(s.queue);
            && Line(s) == (if s.drains[d].draining then x + y else y + x) && y != [] && (Mixed(Line(s)) <==> Mixed(x + y))
            && (forall o :: o in x ==> o.For?) && forall o :: o in y ==> o.For?
  {
    var x, y := s.drains[d].retained, Outputs(s.queue);
    OthersAreIdle(s.drains, d);
    BusyIs(s.drains, d);
    OutputsHead(s.queue);
    OutputsAreOutputs(s.queue);
    MixedTurns(x, y);
    MixedTurns(y, x);
  }

  lemma MixedTurns(x: seq<Output>, y: seq<Output>)
    ensures Mixed(x + y) ==> Mixed(y + x)
  {
    if i, j :| 0 <= i < j < |x + y| && (x + y)[i] != (x + y)[j] {
      var i', j' := if i < |x| then |y| + i else i - |x|, if j < |x| then |y| + j else j - |x|;
      assert (y + x)[i'] == (x + y)[i] && (y + x)[j'] == (x + y)[j];
    }
  }

  /** The passes alone can always end with everything in order. */
  lemma OrderCanBeKept(s: State, d: nat, e: nat) returns (s': State)
    requires Joining(s, d, e) && FirstInFirstOut(s)
    ensures Leads(Apply(s, DrainGet(e)), s') && Settled(s') && InOrder(s') && Outputs(s'.queue) == Line(s)
    ensures s'.past.taken == s.past.taken && s'.past.produced == s.past.produced
  {
    var x, y := s.drains[d].retained, Outputs(s.queue);
    LineOfTwo(s, d, e);
    var s1 := Faces(s, d, e);
    var k := if s.drains[d].draining then |x| else 0;
    s' := Weave(s1, d, e, x, y, k);
    LeadsJoins(Apply(s, DrainGet(e)), s1, s');
    WeaveIsOutputs(x, y, k);
    WeaveEnds(x, y);
  }

  lemma OrderCanBeLost(s: State, d: nat, e: nat)
    requires Joining(s, d, e) && FirstInFirstOut(s) && Mixed(Line(s))
    ensures CanEnd(Apply(s, DrainGet(e)), false)
  {
    var x, y := s.drains[d].retained, Outputs(s.queue);
    LineOfTwo(s, d, e);
    var s1 := Faces(s, d, e);
    var s2 := AnotherWay(s1, d, e, x, y, Line(s));
    LeadsJoins(Apply(s, DrainGet(e)), s1, s2);
    var k :| 0 <= k <= |x| && s2.queue == x[..k] + y + x[k..];
    WeaveIsOutputs(x, y, k);
    if InOrder(s2) {
      SameStart(Outputs(s.past.taken), Outputs(s2.queue), Line(s));
    }
  }

  lemma SameStart(t: seq<Output>, a: seq<Output>, b: seq<Output>)
    requires t + a == t + b
    ensures a == b
  {
    assert (t + a)[|t|..] == a && (t + b)[|t|..] == b;
  }

  // ----- Outputs that are all the same ---------------------------------------------------------------------

  /** Every output on the queue or retained is `c`. */
  ghost predicate Uniform(s: State, c: Output) {
    && (forall o :: o in s.queue && o.For? ==> o == c)
    && forall d, o :: 0 <= d < |s.drains| && o in s.drains[d].retained ==> o == c
  }

  function Pending(s: State, c: Output): nat { multiset(s.queue)[c] + Retained(s.drains, c) }

  ghost predicate KeptBy(s: State, s': State, c: Output) {
    && Uniform(s', c) && Pending(s', c) == Pending(s, c)
    && s'.past.taken == s.past.taken && s'.past.produced == s.past.produced
  }

  lemma DrainKeeps(s: State, d: nat, c: Output)
    requires d < |s.drains| && Uniform(s, c) && c.For?
    ensures KeptBy(s, ApplyDrain(s, d), c)
  {
    if s.queue == [] {
      RetainedChanges(s.drains, d, Drain(false, s.drains[d].retained), c);
    } else {
      TakeFirst(s.queue, c);
      if s.queue[0].For? {
        RetainedChanges(s.drains, d, s.drains[d].(retained := s.drains[d].retained + [c]), c);
      }
    }
  }

  lemma RefillKeeps(s: State, d: nat, c: Output)
    requires d < |s.drains| && s.drains[d].retained != [] && Uniform(s, c) && c.For?
    ensures KeptBy(s, ApplyRefill(s, d), c)
  {
    var retained := s.drains[d].retained;
    assert retained[0] in retained && forall o :: o in retained[1..] ==> o in retained;
    TakeFirst(retained, c);
    RetainedChanges(s.drains, d, s.drains[d].(retained := retained[1..]), c);
  }

  lemma PassStepKeeps(s: State, e: Event, c: Output)
    requires (e.DrainGet? || e.Refill?) && Uniform(s, c) && c.For?
    ensures KeptBy(s, Apply(s, e), c)
  {
    if Apply(s, e) != s {
      if e.DrainGet? { DrainKeeps(s, e.d, c); } else { RefillKeeps(s, e.d, c); }
    }
  }

  lemma {:induction false} PassesKeep(s: State, es: seq<Event>, c: Output)
    requires ByPasses(es) && Uniform(s, c) && c.For?
    ensures KeptBy(s, Run(s, es), c)
  {
    if es != [] {
      PassesKeep(s, es[..|es| - 1], c);
      PassStepKeeps(Run(s, es[..|es| - 1]), es[|es| - 1], c);
    }
  }

  lemma {:induction false} UniformOutputs(os: seq<Output>, c: Output)
    requires c.For? && forall o :: o in os && o.For? ==> o == c
    ensures |Outputs(os)| == multiset(os)[c] && forall o :: o in Outputs(os) ==> o == c
  {
    if os != [] {
      UniformOutputs(os[..|os| - 1], c);
      assert os == os[..|os| - 1] + [os[|os| - 1]];
    }
  }

  /** Settled states that the passes reach from a uniform one hold the same outputs. */
  lemma SettleAlike(s: State, s1: State, s2: State, c: Output)
    requires Uniform(s, c) && c.For? && Leads(s, s1) && Leads(s, s2) && Settled(s1) && Settled(s2)
    ensures Outputs(s1.queue) == Outputs(s2.queue)
    ensures s1.past.taken == s2.past.taken && s1.past.produced == s2.past.produced
  {
    var es :| ByPasses(es) && Run(s, es) == s1;
    var fs :| ByPasses(fs) && Run(s, fs) == s2;
    PassesKeep(s, es, c);
    PassesKeep(s, fs, c);
    NothingRetained(s1.drains, c);
    NothingRetained(s2.drains, c);
    UniformOutputs(s1.queue, c);
    UniformOutputs(s2.queue, c);
    SameLetters(Outputs(s1.queue), Outputs(s2.queue), c);
  }

  lemma SameLetters(a: seq<Output>, b: seq<Output>, c: Output)
    requires |a| == |b| && (forall o :: o in a ==> o == c) && forall o :: o in b ==> o == c
    ensures a == b
  {
    assert forall i :: 0 <= i < |a| ==> a[i] in a && b[i] in b;
  }

  lemma UniformLine(s: State, d: nat, e: nat) returns (c: Output)
    requires Joining(s, d, e) && !Mixed(Line(s))
    ensures c.For? && Uniform(Apply(s, DrainGet(e)), c)
  {
    var x, y := s.drains[d].retained, Outputs(s.queue);
    LineOfTwo(s, d, e);
    OthersAreIdle(s.drains, d);
    c := s.queue[0];
    OutputsHead(s.queue);
    AllAlike(x, y);
    forall o | o in s.queue && o.For? ensures o == c {
      InOutputs(s.queue, o);
    }
    JoinsUniform(s, d, e, c);
  }

  lemma JoinsUniform(s: State, d: nat, e: nat, c: Output)
    requires Joining(s, d, e) && OthersIdle(s.drains, d) && c == s.queue[0]
    requires (forall o :: o in s.drains[d].retained ==> o == c) && forall o :: o in s.queue && o.For? ==> o == c
    ensures Uniform(Apply(s, DrainGet(e)), c)
  {
    var s' := Apply(s, DrainGet(e));
    assert s'.drains[e].retained == [] + [c];
    assert forall f :: 0 <= f < |s.drains| && f != d ==> s.drains[f].retained == [];
  }

  lemma AllAlike(x: seq<Output>, y: seq<Output>)
    requires y != [] && !Mixed(x + y)
    ensures (forall o :: o in x ==> o == y[0]) && forall o :: o in y ==> o == y[0]
  {
    assert (x + y)[|x|] == y[0];
    assert forall i :: 0 <= i < |x| ==> (x + y)[i] == x[i];
    assert forall i :: 0 <= i < |y| ==> (x + y)[|x| + i] == y[i];
  }

  lemma {:induction false} InOutputs(os: seq<Output>, o: Output)
    requires o in os && o.For?
    ensures o in Outputs(os)
  {
    var n := |os| - 1;
    assert os == os[..n] + [os[n]];
    if o != os[n] {
      InOutputs(os[..n], o);
    }
  }

  // ----- The theorem ---------------------------------------------------------------------------------------

  /** From a state in order, when a second pass comes to retain an output beside another: the passes alone can end with
      everything in order, and they can end with it out of order exactly if the outputs still to come are not all the
      same. */
  lemma SecondPassCanReorder(s: State, e: nat)
    requires Single(s) && FirstInFirstOut(s) && e < |s.drains| && !OnePass(Apply(s, DrainGet(e)).drains)
    ensures CanEnd(Apply(s, DrainGet(e)), true)
    ensures CanEnd(Apply(s, DrainGet(e)), false) <==> Mixed(Line(s))
  {
    var d := JoiningIs(s, e);
    var kept := OrderCanBeKept(s, d, e);
    if Mixed(Line(s)) {
      OrderCanBeLost(s, d, e);
    } else if CanEnd(Apply(s, DrainGet(e)), false) {
      var lost :| Leads(Apply(s, DrainGet(e)), lost) && Settled(lost) && InOrder(lost) == false;
      var c := UniformLine(s, d, e);
      SettleAlike(Apply(s, DrainGet(e)), kept, lost, c);
    }
  }

  /** The same of every run that was in order until then. */
  lemma SecondPassOfARun(s0: State, es: seq<Event>, e: nat)
    requires Init(s0) && OneAtATime(s0, es) && NeverOvertakes(s0, es)
    requires e < |Run(s0, es).drains| && !OnePass(Run(s0, es + [DrainGet(e)]).drains)
    ensures CanEnd(Run(s0, es + [DrainGet(e)]), true)
    ensures CanEnd(Run(s0, es + [DrainGet(e)]), false) <==> Mixed(Line(Run(s0, es)))
  {
    assert (es + [DrainGet(e)])[..|es|] == es;
    QueueKeepsOrder(s0, es);
    AlwaysPurged(s0, es);
    SecondPassCanReorder(Run(s0, es), e);
  }

  const NONE_YET := Drain(true, [])

  function Alone(queue: seq<Output>, passes: seq<Drain>): State { Fresh([A, B]).(queue := queue, drains := passes) }

  lemma OneStep(s0: State, es: seq<Event>, e: Event, s: State)
    requires Apply(Run(s0, es), e) == s
    ensures Run(s0, es + [e]) == s && (OneAtATime(s0, es) && OnePass(s.drains) ==> OneAtATime(s0, es + [e]))
    ensures NeverOvertakes(s0, es) && !Overtakes(Run(s0, es), e) ==> NeverOvertakes(s0, es + [e])
  {
    assert (es + [e])[..|es|] == es;
  }

  lemma TwoPassesStart()
    ensures var es := [] + [StartDrain] + [StartDrain];
            && Run(Fresh([A, B]), es) == Alone([A, B], [NONE_YET, NONE_YET])
            && OneAtATime(Fresh([A, B]), es) && NeverOvertakes(Fresh([A, B]), es)
  {
    var s0 := Fresh([A, B]);
    assert [] + [NONE_YET] == [NONE_YET] && [NONE_YET] + [NONE_YET] == [NONE_YET, NONE_YET];
    assert Run(s0, []) == s0 && OneAtATime(s0, []) && NeverOvertakes(s0, []);
    OneStep(s0, [], StartDrain, Alone([A, B], [NONE_YET]));
    OneStep(s0, [] + [StartDrain], StartDrain, Alone([A, B], [NONE_YET, NONE_YET]));
  }

  lemma TwoPassesTake()
    ensures Apply(Alone([A, B], [NONE_YET, NONE_YET]), DrainGet(0)) == Alone([B], [Drain(true, [A]), NONE_YET])
    ensures Apply(Alone([B], [Drain(true, [A]), NONE_YET]), DrainGet(1)) == Alone([], [Drain(true, [A]), Drain(true, [B])])
  {
    assert [] + [A] == [A] && [] + [B] == [B] && [A, B][1..] == [B] && [B][1..] == [];
  }

  lemma LineOfBoth()
    ensures Mixed(Line(Alone([B], [Drain(true, [A]), NONE_YET])))
  {
    OnlyOutputs();
    BusyIs([Drain(true, [A]), NONE_YET], 0);
    assert ([A] + [B])[0] != ([A] + [B])[1];
  }

  /** Which happens: two passes, two outputs. */
  lemma TwoPassesCanReorder()
    ensures var es := [] + [StartDrain] + [StartDrain] + [DrainGet(0)];
            && Init(Fresh([A, B])) && OneAtATime(Fresh([A, B]), es) && NeverOvertakes(Fresh([A, B]), es)
            && !OnePass(Run(Fresh([A, B]), es + [DrainGet(1)]).drains) && CanEnd(Run(Fresh([A, B]), es + [DrainGet(1)]), false)
  {
    var s0, es := Fresh([A, B]), [] + [StartDrain] + [StartDrain];
    var s3, s4 := Alone([B], [Drain(true, [A]), NONE_YET]), Alone([], [Drain(true, [A]), Drain(true, [B])]);
    TwoPassesStart();
    TwoPassesTake();
    LineOfBoth();
    assert OnePass(s3.drains);
    OneStep(s0, es, DrainGet(0), s3);
    OneStep(s0, es + [DrainGet(0)], DrainGet(1), s4);
    assert s4.drains[0].retained != [] && s4.drains[1].retained != [];
    SecondPassOfARun(s0, es + [DrainGet(0)], 1);
  }
}
