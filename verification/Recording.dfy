/** Runs of the protocol written down while code executes, so that what is proved of all runs holds of the code. */
module Recording {
  import opened Protocol

  /** `trail` lists the states and events of a run that ends in `s`. */
  ghost predicate Recorded(c: Config, trail: seq<(State, Event)>, s: State) {
    forall k :: 0 <= k <= |trail| ==> Links(c, trail, s, k)
  }

  ghost function StateAt(trail: seq<(State, Event)>, s: State, k: nat): State
    requires k <= |trail|
  {
    if k < |trail| then trail[k].0 else s
  }

  /** The `k`th state is initial if it is the first, and comes of the one before it otherwise. */
  ghost predicate Links(c: Config, trail: seq<(State, Event)>, s: State, k: nat)
    requires k <= |trail|
  {
    if k == 0 then Init(c, StateAt(trail, s, 0))
    else StateAt(trail, s, k) == Apply(c, trail[k - 1].0, trail[k - 1].1)
  }

  ghost function Events(trail: seq<(State, Event)>): seq<Event> {
    seq(|trail|, k requires 0 <= k < |trail| => trail[k].1)
  }

  lemma RecordOne(c: Config, trail: seq<(State, Event)>, s: State, e: Event)
    requires Recorded(c, trail, s)
    ensures Recorded(c, trail + [(s, e)], Apply(c, s, e))
  {
    var longer := trail + [(s, e)];
    forall k | 0 <= k <= |longer| ensures Links(c, longer, Apply(c, s, e), k) {
      if k <= |trail| {
        assert Links(c, trail, s, k);
      }
    }
  }

  lemma {:induction false} RecordedIsRun(c: Config, trail: seq<(State, Event)>, s: State)
    requires Recorded(c, trail, s)
    ensures Init(c, StateAt(trail, s, 0)) && s == Run(c, StateAt(trail, s, 0), Events(trail))
  {
    assert Links(c, trail, s, 0);
    if trail != [] {
      var n := |trail| - 1;
      forall k | 0 <= k <= n ensures Links(c, trail[..n], trail[n].0, k) {
        assert Links(c, trail, s, k);
      }
      RecordedIsRun(c, trail[..n], trail[n].0);
      assert Links(c, trail, s, n + 1);
      assert Events(trail)[..n] == Events(trail[..n]);
    }
  }

  /** Some run from an initial directory ends in `s`. */
  ghost predicate Reachable(c: Config, s: State) { exists trail :: Recorded(c, trail, s) }

  lemma {:induction false} RunIsRecorded(c: Config, s0: State, es: seq<Event>) returns (trail: seq<(State, Event)>)
    requires Init(c, s0)
    ensures Recorded(c, trail, Run(c, s0, es)) && StateAt(trail, Run(c, s0, es), 0) == s0
  {
    if es == [] {
      trail := [];
      assert Links(c, trail, s0, 0);
    } else {
      var n := |es| - 1;
      trail := RunIsRecorded(c, s0, es[..n]);
      RecordOne(c, trail, Run(c, s0, es[..n]), es[n]);
      trail := trail + [(Run(c, s0, es[..n]), es[n])];
    }
  }

  /** The states that runs reach are the recorded ones. */
  lemma ReachableByRuns(c: Config, s: State)
    ensures Reachable(c, s) <==> exists s0, es :: Init(c, s0) && Run(c, s0, es) == s
  {
    if Reachable(c, s) {
      var trail :| Recorded(c, trail, s);
      RecordedIsRun(c, trail, s);
    }
    if s0, es :| Init(c, s0) && Run(c, s0, es) == s {
      var trail := RunIsRecorded(c, s0, es);
    }
  }
}
