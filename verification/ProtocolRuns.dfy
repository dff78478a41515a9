/** Building runs of the protocol step by step: one operation, begun in an idle state. */
module ProtocolRuns {
  import opened Protocol
  import opened Recording

  ghost predicate Idle(s: State) { s.boot.Serving? && !s.lock && s.threads == map[] }

  /** No further operation begins, and no crash. */
  ghost predicate Undivided(es: seq<Event>) { forall k :: 0 <= k < |es| ==> !es[k].Begin? && !es[k].Crash? }

  ghost predicate Leads(c: Config, s: State, s': State) { exists es :: Undivided(es) && Run(c, s, es) == s' }

  lemma LeadsOn(c: Config, s: State, s': State, e: Event)
    requires Leads(c, s, s') && !e.Begin? && !e.Crash?
    ensures Leads(c, s, Apply(c, s', e))
  {
    var es :| Undivided(es) && Run(c, s, es) == s';
    assert (es + [e])[..|es|] == es;
    assert Undivided(es + [e]);
    assert Run(c, s, es + [e]) == Apply(c, s', e);
  }

  lemma LeadsNowhere(c: Config, s: State)
    ensures Leads(c, s, s)
  {
    assert Undivided([]) && Run(c, s, []) == s;
  }

  /** States of one operation of thread `t`, which began in the idle state `s`. */
  function During(s: State, t: nat, w: World, o: Op): State { s.(w := w, lock := true, threads := map[t := o]) }

  ghost predicate Seen(c: Config, s: State, t: nat, kind: Kind, w: World, o: Op) {
    Leads(c, Apply(c, s, Begin(t, kind)), During(s, t, w, o))
  }

  lemma Started(c: Config, s: State, t: nat, kind: Kind)
    requires Idle(s)
    ensures Seen(c, s, t, kind, s.w, NewOp(s.w, kind))
  {
    LeadsNowhere(c, Apply(c, s, Begin(t, kind)));
    assert s.threads[t := NewOp(s.w, kind)] == map[t := NewOp(s.w, kind)];
    assert Apply(c, s, Begin(t, kind)) == During(s, t, s.w, NewOp(s.w, kind));
  }

  lemma Advance(c: Config, s: State, t: nat, kind: Kind, w: World, o: Op, ch: Choice) returns (w': World, o': Op)
    requires Seen(c, s, t, kind, w, o) && !o.pc.SRelease? && !o.pc.ZRelease?
    ensures (w', o') == BodyStep(c, w, o, ch, 0) && Seen(c, s, t, kind, w', o')
  {
    w', o' := BodyStep(c, w, o, ch, 0).0, BodyStep(c, w, o, ch, 0).1;
    LeadsOn(c, Apply(c, s, Begin(t, kind)), During(s, t, w, o), Step(t, ch, 0));
    assert map[t := o][t := o'] == map[t := o'];
    assert Apply(c, During(s, t, w, o), Step(t, ch, 0)) == During(s, t, w', o');
  }

  lemma Inner(c: Config, s: State, t: nat, kind: Kind, w: World, o: Op, p: nat, e: EngineEvent) returns (w': World)
    requires Seen(c, s, t, kind, w, o)
    ensures w' == EngineStep(c, w, p, e) && Seen(c, s, t, kind, w', o)
  {
    w' := EngineStep(c, w, p, e);
    LeadsOn(c, Apply(c, s, Begin(t, kind)), During(s, t, w, o), Inside(p, e));
    assert Apply(c, During(s, t, w, o), Inside(p, e)) == During(s, t, w', o);
  }

  lemma {:induction false} RunsAreReachable(c: Config, s: State, es: seq<Event>)
    requires Reachable(c, s)
    ensures Reachable(c, Run(c, s, es))
  {
    if es != [] {
      var n := |es| - 1;
      RunsAreReachable(c, s, es[..n]);
      var trail :| Recorded(c, trail, Run(c, s, es[..n]));
      RecordOne(c, trail, Run(c, s, es[..n]), es[n]);
    }
  }

  lemma SeenIsReachable(c: Config, s: State, t: nat, kind: Kind, w: World, o: Op)
    requires Reachable(c, s) && Seen(c, s, t, kind, w, o)
    ensures Reachable(c, During(s, t, w, o))
  {
    var s1 := Apply(c, s, Begin(t, kind));
    assert Run(c, s, [Begin(t, kind)]) == s1 by { assert [Begin(t, kind)][..0] == []; }
    RunsAreReachable(c, s, [Begin(t, kind)]);
    var es :| Undivided(es) && Run(c, s1, es) == During(s, t, w, o);
    RunsAreReachable(c, s1, es);
  }

  /** The last step of an operation gives the lock back. */
  lemma Over(c: Config, s: State, t: nat, kind: Kind, w: World, o: Op) returns (s': State)
    requires Reachable(c, s) && Idle(s) && Seen(c, s, t, kind, w, o) && (o.pc.SRelease? || o.pc.ZRelease?)
    ensures Reachable(c, s') && Idle(s') && s'.w == w
  {
    SeenIsReachable(c, s, t, kind, w, o);
    s' := Apply(c, During(s, t, w, o), Step(t, Go, 0));
    assert [Step(t, Go, 0)][..0] == [];
    assert Run(c, During(s, t, w, o), [Step(t, Go, 0)]) == s';
    RunsAreReachable(c, During(s, t, w, o), [Step(t, Go, 0)]);
    assert s'.threads == map[];
  }
}
