/** Concrete runs: two claims one might make about the protocol are false. */
module ProtocolWitnesses {
  import opened Protocol
  import opened ProtocolInvariant
  import opened ProtocolTheorems
  import opened ProtocolRuns
  import opened ProtocolConverses
  import opened Recording

  const CONFIG := Config(2, false, false, false, false, false)
  const DUMPED := Engine(false, false, false, [])

  /** A launcher that starts next to what an earlier one left in the slot. */
  function Leftover(slot: Slot): State {
    State(World(Disk(slot, map[], false, false, NoStatus), Starting, -1, [], [DUMPED],
                Past(if slot.Holds? then {0} else {}, {}, 0, Witness(0, 0), false)),
          BUnlinkMarker, false, map[], {})
  }

  lemma LeftoverIsInitial(slot: Slot)
    requires slot.Holds? ==> slot.img == 0
    ensures Init(CONFIG, Leftover(slot))
  {
    var s := Leftover(slot);
    assert s.w.disk.archives.Values == {};
    assert s.w.engines == KillAll(s.w.engines);
  }

  /** Without resume-on-start `main` starts a cold process whatever the slot holds. */
  function Up(slot: Slot): State {
    Leftover(slot).(w := Leftover(slot).w.(mode := Running, vllm := 0, engines := [FRESH_ENGINE]), boot := Serving)
  }

  lemma ColdStart(slot: Slot)
    requires slot.Holds? ==> slot.img == 0
    ensures Reachable(CONFIG, Up(slot)) && Idle(Up(slot))
  {
    var s0, up := Leftover(slot), BootStep(true);
    LeftoverIsInitial(slot);
    var es := [] + [up] + [up] + [up] + [up];
    assert [] + [FRESH_ENGINE] == [FRESH_ENGINE];
    OneStep(s0, [], up, s0.(boot := BUnlinkStatus));
    OneStep(s0, [] + [up], up, s0.(boot := BDecide));
    OneStep(s0, [] + [up] + [up], up, s0.(boot := BStart));
    OneStep(s0, [] + [up] + [up] + [up], up, Up(slot));
    var trail := RunIsRecorded(CONFIG, s0, es);
  }

  lemma OneStep(s0: State, es: seq<Event>, e: Event, s: State)
    requires Apply(CONFIG, Run(CONFIG, s0, es), e) == s
    ensures Run(CONFIG, s0, es + [e]) == s
  {
    assert (es + [e])[..|es|] == es;
  }

  /** A clean restore can report success although the process it restored never began its local restore: with
      another live process around, that one's `done` is taken for the answer. */
  lemma BystanderCanAnswer() returns (w: World, o: Op)
    ensures Reachable(CONFIG, During(Up(Holds(0)), 1, w, o))
    ensures o.outcome.Restored? && o.past.clean
    ensures o.restored == 1 < |w.engines| && w.engines[o.restored].attempts == []
  {
    var s := Up(Holds(0));
    ColdStart(Holds(0));
    w, o := SucceedsBy(CONFIG, s, 1, 0);
    SeenIsReachable(CONFIG, s, 1, Resume, w, o);
  }

  /** A suspend that fails and then cannot remove its staging directory lets the lock go while `state` still
      says `checkpointing`. */
  lemma FailedCleanupStrandsState() returns (s: State)
    ensures Reachable(CONFIG, s) && s.w.mode.Checkpointing? && !s.lock
  {
    var s0 := Up(Absent);
    ColdStart(Absent);
    Started(CONFIG, s0, 1, Suspend);
    var w, o := Advance(CONFIG, s0, 1, Suspend, s0.w, NewOp(s0.w, Suspend), Go);
    assert o.pc.SWork?;
    w, o := Advance(CONFIG, s0, 1, Suspend, w, o, Go);
    assert o.pc.SDump? && w.mode.Checkpointing?;
    w, o := Advance(CONFIG, s0, 1, Suspend, w, o, Fault);
    assert o.pc.SFail? && w.mode.Checkpointing?;
    w, o := Advance(CONFIG, s0, 1, Suspend, w, o, Fault);
    assert o.pc.SRelease? && w.mode.Checkpointing?;
    s := Over(CONFIG, s0, 1, Suspend, w, o);
  }
}
