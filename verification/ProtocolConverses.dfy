/** The other half of what a resume guarantees: where its condition fails, some run goes wrong, and where it holds,
    some run succeeds.  The runs start in any reachable state in which the server is up and the lock is free. */
module ProtocolConverses {
  import opened Protocol
  import opened ProtocolInvariant
  import opened ProtocolTheorems
  import opened ProtocolRuns
  import opened Recording

  // ----- A process answers ---------------------------------------------------------------------------------

  predicate IsWorking(w: World, p: nat, i: nat) { Live(w, p) && Has(w.engines[p], i, Working) }

  /** `w'` is `w` but for process `p`, which lives, and the status file. */
  predicate OnlyInside(w: World, w': World, p: nat) {
    && Live(w, p) && Live(w', p)
    && w' == w.(engines := w.engines[p := w'.engines[p]], disk := w.disk.(status := w'.disk.status),
                past := w.past.(doneBy := w'.past.doneBy))
  }

  /** An attempt under way can run the rest of the plan. */
  lemma {:induction false} FinishPlan(c: Config, s: State, t: nat, kind: Kind, w: World, o: Op, p: nat, i: nat)
    returns (w': World)
    requires Seen(c, s, t, kind, w, o) && IsWorking(w, p, i) && Sound(c, w.engines[p], w.past.epoch)
    ensures Seen(c, s, t, kind, w', o) && IsWorking(w', p, i) && OnlyInside(w, w', p)
    ensures w'.engines[p] == w.engines[p].(attempts := w.engines[p].attempts[i := w'.engines[p].attempts[i]])
    ensures Sound(c, w'.engines[p], w.past.epoch) && |w'.engines[p].attempts[i].log| == |c.Plan()|
    decreases |c.Plan()| - |w.engines[p].attempts[i].log|
  {
    var a := w.engines[p].attempts[i];
    assert SoundAttempt(c, a, w.past.epoch);
    if |a.log| == |c.Plan()| {
      w' := w;
    } else {
      var w1 := Inner(c, s, t, kind, w, o, p, RunStage(i));
      OneStageIsSound(c, w, p, i);
      w' := FinishPlan(c, s, t, kind, w1, o, p, i);
    }
  }

  lemma OneStageIsSound(c: Config, w: World, p: nat, i: nat)
    requires IsWorking(w, p, i) && Sound(c, w.engines[p], w.past.epoch)
    requires |w.engines[p].attempts[i].log| < |c.Plan()|
    ensures var w' := EngineStep(c, w, p, RunStage(i));
            && IsWorking(w', p, i) && Sound(c, w'.engines[p], w.past.epoch) && OnlyInside(w, w', p)
            && w'.engines[p] == w.engines[p].(attempts := w.engines[p].attempts[i := w'.engines[p].attempts[i]])
            && |w'.engines[p].attempts[i].log| == |w.engines[p].attempts[i].log| + 1
  {
    var w' := EngineStep(c, w, p, RunStage(i));
    forall k | 0 <= k < |w'.engines[p].attempts| ensures SoundAttempt(c, w'.engines[p].attempts[k], w.past.epoch) {
      assert SoundAttempt(c, w.engines[p].attempts[k], w.past.epoch);
    }
  }

  /** Get an attempt to work: one that is under way, or, if there is none, a new one. */
  lemma GetToWork(c: Config, s: State, t: nat, kind: Kind, w: World, o: Op, p: nat) returns (w': World, i: nat)
    requires Seen(c, s, t, kind, w, o) && Live(w, p) && w.engines[p].CanAnswer() && Sound(c, w.engines[p], w.past.epoch)
    requires w.engines[p].HasMid() || w.disk.marker
    ensures Seen(c, s, t, kind, w', o) && IsWorking(w', p, i) && OnlyInside(w, w', p)
    ensures Sound(c, w'.engines[p], w.past.epoch)
    ensures w.engines[p].attempts == [] ==> i == 0 && |w'.engines[p].attempts| == 1 && w'.engines[p].busy
  {
    var g := w.engines[p];
    if g.HasMid() {
      i :| 0 <= i < |g.attempts| && g.attempts[i].Mid();
      w' := w;
    } else {
      i := |g.attempts|;
      w' := Inner(c, s, t, kind, w, o, p, Test);
    }
    EngineKeepsItsSound(c, w, p, Test);
    EngineKeepsItsSound(c, w', p, Claim(i));
    if w'.engines[p].attempts[i].pc.Tested? {
      w' := Inner(c, s, t, kind, w', o, p, Claim(i));
    }
  }

  lemma EngineKeepsItsSound(c: Config, w: World, p: nat, e: EngineEvent)
    requires Live(w, p) && Sound(c, w.engines[p], w.past.epoch) && (e.Test? || e.Claim?)
    ensures Sound(c, EngineStep(c, w, p, e).engines[p], w.past.epoch)
  {
    var g, g' := w.engines[p], EngineStep(c, w, p, e).engines[p];
    forall k | 0 <= k < |g'.attempts| ensures SoundAttempt(c, g'.attempts[k], w.past.epoch) {
      if k < |g.attempts| {
        assert SoundAttempt(c, g.attempts[k], w.past.epoch);
      }
    }
  }

  /** A process that can answer can write `done`: with the marker there, or with an attempt under way without it. */
  lemma Answers(c: Config, s: State, t: nat, kind: Kind, w: World, o: Op, p: nat) returns (w': World, i: nat)
    requires Seen(c, s, t, kind, w, o) && Live(w, p) && w.engines[p].CanAnswer() && Sound(c, w.engines[p], w.past.epoch)
    requires w.engines[p].HasMid() || w.disk.marker
    ensures Seen(c, s, t, kind, w', o) && OnlyInside(w, w', p)
    ensures w'.disk.status.DoneText? && w'.past.doneBy == Witness(p, i) && Has(w'.engines[p], i, Announced)
    ensures Sound(c, w'.engines[p], w.past.epoch)
    ensures w.engines[p].attempts == [] ==> !w'.engines[p].CanAnswer()
  {
    var w1: World, w2: World;
    w1, i := GetToWork(c, s, t, kind, w, o, p);
    w2 := FinishPlan(c, s, t, kind, w1, o, p, i);
    w' := Inner(c, s, t, kind, w2, o, p, Announce(i));
    forall k | 0 <= k < |w'.engines[p].attempts| ensures SoundAttempt(c, w'.engines[p].attempts[k], w.past.epoch) {
      assert SoundAttempt(c, w2.engines[p].attempts[k], w.past.epoch);
    }
  }

  // ----- A resume, command by command ----------------------------------------------------------------------

  /** A resume can begin: an image is in the slot and the EngineCore is to recover. */
  ghost predicate CanResume(c: Config, s: State) { Reachable(c, s) && Idle(s) && s.w.disk.slot.Holds? }

  ghost predicate CanBegin(c: Config, s: State) { CanResume(c, s) && c.sleepLevel != 0 }

  function Img(s: State): nat
    requires s.w.disk.slot.Holds?
  {
    s.w.disk.slot.img
  }

  lemma IdleFacts(c: Config, s: State)
    requires CanResume(c, s)
    ensures AllSound(c, s.w) && Img(s) < |s.w.images|
  {
    ReachableIsSound(c, s);
    assert Img(s) in InSlot(s.w) && Img(s) in s.w.past.published;
  }

  /** Everything up to CRIU succeeds. */
  lemma ToCriu(c: Config, s: State, t: nat) returns (w: World, o: Op)
    requires CanResume(c, s)
    ensures Seen(c, s, t, Resume, w, o) && o == NewOp(s.w, Resume).(pc := RCriu)
    ensures w == s.w.(mode := Restoring, past := s.w.past.(stranded := false),
                      disk := s.w.disk.(marker := false, pending := true, status := NoStatus))
  {
    Started(c, s, t, Resume);
    w, o := Advance(c, s, t, Resume, s.w, NewOp(s.w, Resume), Go);
    assert o.pc.RUnlinkMarker?;
    w, o := Advance(c, s, t, Resume, w, o, Go);
    assert o.pc.RUnlinkPending?;
    w, o := Advance(c, s, t, Resume, w, o, Go);
    assert o.pc.RUnlinkStatus?;
    w, o := Advance(c, s, t, Resume, w, o, Go);
    assert o.pc.RAnnounce?;
    w, o := Advance(c, s, t, Resume, w, o, Go);
    assert o.pc.RPend?;
    w, o := Advance(c, s, t, Resume, w, o, Go);
  }

  /** So does CRIU; the CUDA restore is next. */
  lemma ToCuda(c: Config, s: State, t: nat) returns (w: World, o: Op)
    requires CanResume(c, s)
    ensures Img(s) < |s.w.images| && AllSound(c, s.w) && AllSound(c, w)
    ensures Seen(c, s, t, Resume, w, o) && o == NewOp(s.w, Resume).(pc := RCuda, restored := |s.w.engines|)
    ensures w.engines == s.w.engines + [s.w.images[Img(s)].(alive := true)] && w.disk.slot == s.w.disk.slot
    ensures w.images == s.w.images && w.past.epoch == s.w.past.epoch
  {
    IdleFacts(c, s);
    w, o := ToCriu(c, s, t);
    w, o := Advance(c, s, t, Resume, w, o, Go);
    forall p | 0 <= p < |w.engines| ensures Sound(c, w.engines[p], w.past.epoch) {
      if p < |s.w.engines| {
        assert Sound(c, s.w.engines[p], s.w.past.epoch);
      } else {
        assert Sound(c, s.w.images[Img(s)], s.w.past.epoch);
        SoundLater(c, s.w.images[Img(s)], w.engines[p], w.past.epoch, w.past.epoch);
      }
    }
  }

  /** The CUDA restore, the marker and the API succeed; the status file is next. */
  lemma ToWait(c: Config, s: State, t: nat, w0: World, o0: Op) returns (w: World, o: Op)
    requires c.sleepLevel != 0 && Seen(c, s, t, Resume, w0, o0) && o0.pc.RCuda?
    ensures Seen(c, s, t, Resume, w, o)
    ensures o == o0.(pc := RWait, past := o0.past.(cudaDone := true, epoch := w0.past.epoch + 1))
    ensures w == w0.(past := w0.past.(epoch := w0.past.epoch + 1), disk := w0.disk.(marker := true))
  {
    w, o := Advance(c, s, t, Resume, w0, o0, Go);
    assert o.pc.RTouch?;
    w, o := Advance(c, s, t, Resume, w, o, Go);
    assert o.pc.RReady?;
    w, o := Advance(c, s, t, Resume, w, o, Go);
  }

  /** `done` is read, and the rest succeeds. */
  lemma ToSuccess(c: Config, s: State, t: nat, w0: World, o0: Op) returns (w: World, o: Op)
    requires Seen(c, s, t, Resume, w0, o0) && o0.pc.RWait? && w0.disk.status.DoneText? && w0.disk.slot.Holds?
    ensures Seen(c, s, t, Resume, w, o) && w.engines == w0.engines && w.images == w0.images
    ensures o == o0.(pc := ZMarker, outcome := Restored, past := o0.past.(seen := w0.past.doneBy))
    ensures w.disk.slot.Absent? && w.vllm == o0.restored && w.mode.Running?
  {
    w, o := Advance(c, s, t, Resume, w0, o0, Go);
    assert o.pc.RAdopt?;
    w, o := ToFinally(c, s, t, w, o);
  }

  lemma ToFinally(c: Config, s: State, t: nat, w0: World, o0: Op) returns (w: World, o: Op)
    requires Seen(c, s, t, Resume, w0, o0) && o0.pc.RAdopt? && w0.disk.slot.Holds?
    ensures Seen(c, s, t, Resume, w, o) && w.engines == w0.engines && w.images == w0.images
    ensures o == o0.(pc := ZMarker, outcome := Restored)
    ensures w.disk.slot.Absent? && w.vllm == o0.restored && w.mode.Running?
  {
    w, o := Advance(c, s, t, Resume, w0, o0, Go);
    assert o.pc.RConsume?;
    w, o := Advance(c, s, t, Resume, w, o, Go);
    assert o.pc.RFinish?;
    w, o := Advance(c, s, t, Resume, w, o, Go);
  }

  // ----- When a resume can succeed, and when by mistake ------------------------------------------------------

  /** Some run of the resume that thread `t` begins now ends in a success of the kind `how`. */
  ghost predicate CanEnd(c: Config, s: State, t: nat, how: How) {
    exists s' :: Leads(c, Apply(c, s, Begin(t, Resume)), s') && EndsAs(s', t, how)
  }

  datatype How = Somehow | ByAnother | Prematurely

  ghost predicate EndsAs(s: State, t: nat, how: How) {
    && t in s.threads && s.threads[t].outcome.Restored?
    && match how
       case Somehow => true
       case ByAnother => s.threads[t].past.seen.engine != s.threads[t].restored
       case Prematurely =>
         IsAttempt(s.w, s.threads[t].past.seen) && !AllAt(AttemptAt(s.w, s.threads[t].past.seen), s.threads[t].past.epoch)
  }

  /** What process `p` can answer, it can answer in time. */
  lemma SucceedsBy(c: Config, s: State, t: nat, p: nat) returns (w: World, o: Op)
    requires CanBegin(c, s) && p <= |s.w.engines|
    requires p < |s.w.engines| ==> s.w.engines[p].alive && s.w.engines[p].CanAnswer()
    requires p == |s.w.engines| && Img(s) < |s.w.images| ==> s.w.images[Img(s)].CanAnswer()
    ensures Seen(c, s, t, Resume, w, o) && o.outcome.Restored? && o.pc.ZMarker?
    ensures o.past.seen.engine == p && o.restored == w.vllm == |s.w.engines| == |w.engines| - 1
    ensures w.disk.slot.Absent? && w.mode.Running? && w.images == s.w.images && w.engines[|s.w.engines|].alive
    ensures Img(s) < |s.w.images| && (p == |s.w.engines| && s.w.images[Img(s)].attempts == [] ==> !w.engines[p].CanAnswer())
    ensures forall q :: 0 <= q < |s.w.engines| && q != p ==> w.engines[q] == s.w.engines[q]
    ensures p < |s.w.engines| ==> w.engines[|s.w.engines|] == s.w.images[Img(s)].(alive := true)
    ensures o.past.clean == Quiet(s.w)
  {
    var w1, o1 := ToCuda(c, s, t);
    var w2, o2 := ToWait(c, s, t, w1, o1);
    assert w2.engines[p].CanAnswer() by {
      if p == |s.w.engines| {
        AliveDoesNotMatter(s.w.images[Img(s)]);
      }
    }
    SoundLater(c, w1.engines[p], w2.engines[p], w1.past.epoch, w2.past.epoch);
    var w3, i := Answers(c, s, t, Resume, w2, o2, p);
    w, o := ToSuccess(c, s, t, w3, o2);
  }

  lemma AliveDoesNotMatter(g: Engine)
    ensures g.(alive := true).CanAnswer() == g.(alive := false).CanAnswer() == g.CanAnswer()
    ensures g.(alive := true).HasMid() == g.(alive := false).HasMid() == g.HasMid()
  {
    var h, d := g.(alive := true), g.(alive := false);
    assert h.HasMid() ==> g.HasMid();
    assert d.HasMid() ==> g.HasMid();
    if g.HasMid() {
      var i :| 0 <= i < |g.attempts| && g.attempts[i].Mid();
      assert h.attempts[i].Mid() && d.attempts[i].Mid();
    }
  }

  /** With an attempt under way in process `p`, before CUDA is restored. */
  lemma SucceedsBefore(c: Config, s: State, t: nat, p: nat) returns (w: World, o: Op)
    requires CanBegin(c, s) && p <= |s.w.engines|
    requires p < |s.w.engines| ==> s.w.engines[p].alive && s.w.engines[p].HasMid()
    requires p == |s.w.engines| && Img(s) < |s.w.images| ==> s.w.images[Img(s)].HasMid()
    ensures Seen(c, s, t, Resume, w, o) && o.outcome.Restored? && IsAttempt(w, o.past.seen)
    ensures !AllAt(AttemptAt(w, o.past.seen), o.past.epoch)
  {
    var w1, o1 := ToCuda(c, s, t);
    assert w1.engines[p].HasMid() by {
      if p == |s.w.engines| {
        AliveDoesNotMatter(s.w.images[Img(s)]);
      }
    }
    var w2, i := Answers(c, s, t, Resume, w1, o1, p);
    assert SoundAttempt(c, w2.engines[p].attempts[i], w2.past.epoch);
    var w3, o3 := ToWait(c, s, t, w2, o1);
    w, o := ToSuccess(c, s, t, w3, o3);
    assert AttemptAt(w, o.past.seen).log[0].epoch <= w2.past.epoch < o.past.epoch;
  }

  // ----- What stays the same during an operation ------------------------------------------------------------

  /** Thread `t`'s operation, if still there, is the one that began with `past`; no image has changed. */
  ghost predicate Same(s: State, s': State, t: nat) {
    && s'.boot.Serving? && s.w.images <= s'.w.images
    && forall u :: u in s'.threads ==> u in s.threads && SameStart(s.threads[u].past, s'.threads[u].past)
  }

  predicate SameStart(a: OpPast, b: OpPast) { a.alone == b.alone && a.clean == b.clean && a.slot0 == b.slot0 && a.base == b.base }

  lemma BodyKeepsStart(c: Config, w: World, o: Op, ch: Choice, stamp: nat)
    ensures var (w', o') := BodyStep(c, w, o, ch, stamp); SameStart(o.past, o'.past) && w.images <= w'.images
  {
  }

  lemma StepKeepsStart(c: Config, s: State, e: Event, t: nat)
    requires s.boot.Serving? && !e.Begin? && !e.Crash?
    ensures Same(s, Apply(c, s, e), t)
  {
    match e
    case Step(u, ch, stamp) =>
      if u in s.threads {
        BodyKeepsStart(c, s.w, s.threads[u], ch, stamp);
      }
    case Inside(p, ee) => EngineLeavesLauncherState(c, s.w, p, ee);
    case _ =>
  }

  lemma {:induction false} RunKeepsStart(c: Config, s: State, es: seq<Event>, t: nat)
    requires s.boot.Serving? && Undivided(es)
    ensures Same(s, Run(c, s, es), t)
  {
    if es != [] {
      var n := |es| - 1;
      assert Undivided(es[..n]) by { assert forall k :: 0 <= k < n ==> es[..n][k] == es[k]; }
      RunKeepsStart(c, s, es[..n], t);
      StepKeepsStart(c, Run(c, s, es[..n]), es[n], t);
    }
  }

  /** What the operation found when it began is on record at its end, and the theorems apply to it. */
  lemma EndOfOperation(c: Config, s: State, t: nat, s': State)
    requires CanBegin(c, s) && Leads(c, Apply(c, s, Begin(t, Resume)), s') && t in s'.threads
    ensures Reachable(c, s') && SameStart(NewOp(s.w, Resume).past, s'.threads[t].past)
    ensures s.w.images <= s'.w.images && Img(s) < |s.w.images|
  {
    IdleFacts(c, s);
    var s1 := Apply(c, s, Begin(t, Resume));
    assert Run(c, s, [Begin(t, Resume)]) == s1 by { assert [Begin(t, Resume)][..0] == []; }
    RunsAreReachable(c, s, [Begin(t, Resume)]);
    var es :| Undivided(es) && Run(c, s1, es) == s';
    RunKeepsStart(c, s1, es, t);
    RunsAreReachable(c, s1, es);
  }

  // ----- The theorems --------------------------------------------------------------------------------------

  /** A resume can take another process's answer for the restored one's exactly if it begins with a rival. */
  lemma RivalMisleads(c: Config, s: State, t: nat)
    requires CanBegin(c, s)
    ensures CanEnd(c, s, t, ByAnother) <==> !NoRival(s.w)
  {
    if !NoRival(s.w) {
      var p :| 0 <= p < |s.w.engines| && s.w.engines[p].alive && s.w.engines[p].CanAnswer();
      var w, o := SucceedsBy(c, s, t, p);
      assert EndsAs(During(s, t, w, o), t, ByAnother);
    }
    if CanEnd(c, s, t, ByAnother) {
      var s' :| Leads(c, Apply(c, s, Begin(t, Resume)), s') && EndsAs(s', t, ByAnother);
      EndOfOperation(c, s, t, s');
      var a := RestoreSoundness(c, s', t);
    }
  }

  /** A resume can succeed at all exactly if the image's process, or a rival, can still answer. */
  lemma ImageIsRecoverable(c: Config, s: State, t: nat)
    requires CanBegin(c, s)
    ensures Img(s) < |s.w.images|
    ensures CanEnd(c, s, t, Somehow) <==> s.w.images[Img(s)].CanAnswer() || !NoRival(s.w)
  {
    IdleFacts(c, s);
    if !NoRival(s.w) {
      RivalMisleads(c, s, t);
      var s' :| Leads(c, Apply(c, s, Begin(t, Resume)), s') && EndsAs(s', t, ByAnother);
      assert EndsAs(s', t, Somehow);
    } else if s.w.images[Img(s)].CanAnswer() {
      var w, o := SucceedsBy(c, s, t, |s.w.engines|);
      assert EndsAs(During(s, t, w, o), t, Somehow);
    } else if CanEnd(c, s, t, Somehow) {
      var s' :| Leads(c, Apply(c, s, Begin(t, Resume)), s') && EndsAs(s', t, Somehow);
      EndOfOperation(c, s, t, s');
      SecondRestoreNeverSucceeds(c, s', t);
    }
  }

  /** A resume can rest on stages that ran before its own CUDA restore exactly if an attempt was under way, in a live
      process or in the image, when it began. */
  lemma StaleAttemptMisleads(c: Config, s: State, t: nat)
    requires CanBegin(c, s)
    ensures CanEnd(c, s, t, Prematurely) <==> !Quiet(s.w)
  {
    IdleFacts(c, s);
    if !Quiet(s.w) {
      var p := if s.w.images[Img(s)].HasMid() then |s.w.engines| else BusyOne(s.w);
      var w, o := SucceedsBefore(c, s, t, p);
      assert EndsAs(During(s, t, w, o), t, Prematurely);
    }
    if CanEnd(c, s, t, Prematurely) {
      var s' :| Leads(c, Apply(c, s, Begin(t, Resume)), s') && EndsAs(s', t, Prematurely);
      EndOfOperation(c, s, t, s');
      var a := RestoreSoundness(c, s', t);
    }
  }

  ghost function BusyOne(w: World): (p: nat)
    requires exists p :: 0 <= p < |w.engines| && w.engines[p].alive && w.engines[p].HasMid()
    ensures p < |w.engines| && w.engines[p].alive && w.engines[p].HasMid()
  {
    var p :| 0 <= p < |w.engines| && w.engines[p].alive && w.engines[p].HasMid();
    p
  }

  // ----- Suspending what was resumed -----------------------------------------------------------------------

  /** A live vLLM process and a free slot: a suspend can succeed. */
  lemma SuspendSucceeds(c: Config, s: State, t: nat) returns (s': State)
    requires Reachable(c, s) && Idle(s) && Live(s.w, s.w.vllm) && !s.w.disk.slot.Holds?
    ensures Reachable(c, s') && Idle(s') && s'.w.disk.slot == Holds(|s.w.images|) && s'.w.mode.Checkpointed?
    ensures s'.w.images == s.w.images + [s.w.engines[s.w.vllm].(alive := false)]
    ensures s'.w.engines == s.w.engines[s.w.vllm := s.w.engines[s.w.vllm].(alive := false)]
  {
    Started(c, s, t, Suspend);
    var w, o := Advance(c, s, t, Suspend, s.w, NewOp(s.w, Suspend), Go);
    assert o.pc.SWork?;
    w, o := Advance(c, s, t, Suspend, w, o, Go);
    assert o.pc.SDump?;
    w, o := Advance(c, s, t, Suspend, w, o, Go);
    assert o.pc.SRmdir?;
    w, o := Advance(c, s, t, Suspend, w, o, Go);
    assert o.pc.SRename?;
    w, o := Advance(c, s, t, Suspend, w, o, Go);
    assert o.pc.SFinish?;
    w, o := Advance(c, s, t, Suspend, w, o, Go);
    s' := Over(c, s, t, Suspend, w, o);
  }

  /** With a checkpoint there a suspend is refused, and `state` says `running` from then on. */
  lemma RefusalHidesTheImage(c: Config, s: State, t: nat) returns (s': State)
    requires CanResume(c, s)
    ensures Reachable(c, s') && Idle(s') && s'.w.mode.Running? && s'.w.disk == s.w.disk
    ensures s'.w.engines == s.w.engines && s'.w.vllm == s.w.vllm && s'.w.images == s.w.images
  {
    Started(c, s, t, Suspend);
    var w, o := Advance(c, s, t, Suspend, s.w, NewOp(s.w, Suspend), Go);
    assert o.pc.SFail?;
    w, o := Advance(c, s, t, Suspend, w, o, Go);
    s' := Over(c, s, t, Suspend, w, o);
  }

  /** And it can fail after the dump: the process is dead, its image an orphan, and `state` says `running`. */
  lemma SuspendLoses(c: Config, s: State, t: nat) returns (s': State)
    requires Reachable(c, s) && Idle(s) && Live(s.w, s.w.vllm) && !s.w.disk.slot.Holds?
    ensures Reachable(c, s') && Idle(s') && !Live(s'.w, s.w.vllm) && s'.w.mode.Running?
    ensures Orphan(s', |s.w.images|) && s'.w.images == s.w.images + [s.w.engines[s.w.vllm].(alive := false)]
  {
    ReachableIsSound(c, s);
    Started(c, s, t, Suspend);
    var w, o := Advance(c, s, t, Suspend, s.w, NewOp(s.w, Suspend), Go);
    assert o.pc.SWork?;
    w, o := Advance(c, s, t, Suspend, w, o, Go);
    assert o.pc.SDump?;
    w, o := Advance(c, s, t, Suspend, w, o, Go);
    assert o.pc.SRmdir?;
    w, o := Advance(c, s, t, Suspend, w, o, Fault);
    assert o.pc.SFail?;
    w, o := Advance(c, s, t, Suspend, w, o, Go);
    s' := Over(c, s, t, Suspend, w, o);
  }

  /** The only live process is `vllm_process`, and no attempt was ever made in it. */
  ghost predicate Untouched(w: World) {
    && Live(w, w.vllm) && w.engines[w.vllm].attempts == [] && w.engines[w.vllm].CanAnswer() && !w.disk.slot.Holds?
    && forall p :: 0 <= p < |w.engines| && w.engines[p].alive ==> p == w.vllm
  }

  /** Without a sleep level no answer is waited for: every image can be resumed, and its process is then as it was. */
  lemma ResumeWithoutSleep(c: Config, s: State, t: nat) returns (s': State)
    requires CanResume(c, s) && c.sleepLevel == 0
    ensures Reachable(c, s') && Idle(s') && s'.w.disk.slot.Absent? && s'.w.mode.Running?
    ensures Img(s) < |s.w.images| && s'.w.engines == s.w.engines + [s.w.images[Img(s)].(alive := true)]
    ensures s'.w.vllm == |s.w.engines|
  {
    var w, o := ToCuda(c, s, t);
    w, o := ToAdopt(c, s, t, w, o);
    w, o := ToFinally(c, s, t, w, o);
    w, o := ToRelease(c, s, t, w, o);
    s' := Over(c, s, t, Resume, w, o);
  }

  lemma ToAdopt(c: Config, s: State, t: nat, w0: World, o0: Op) returns (w: World, o: Op)
    requires c.sleepLevel == 0 && Seen(c, s, t, Resume, w0, o0) && o0.pc.RCuda?
    ensures Seen(c, s, t, Resume, w, o) && o.pc.RAdopt? && o.restored == o0.restored
    ensures w.engines == w0.engines && w.images == w0.images && w.disk.slot == w0.disk.slot
  {
    w, o := Advance(c, s, t, Resume, w0, o0, Go);
    assert o.pc.RTouch?;
    w, o := Advance(c, s, t, Resume, w, o, Go);
    assert o.pc.RReady?;
    w, o := Advance(c, s, t, Resume, w, o, Go);
  }

  /** With a fallback, a resume for which there is no image, or whose CRIU restore fails, can end with a fresh process: the
      image is archived under a free name, and nothing is left for the new process to misread. */
  lemma FallbackSucceeds(c: Config, s: State, t: nat) returns (s': State)
    requires Reachable(c, s) && Idle(s) && c.fallback
    ensures Reachable(c, s') && Idle(s') && s'.w.mode.Running? && s'.w.vllm == |s.w.engines|
    ensures s'.w.engines == s.w.engines + [Engine(true, false, false, [])]
    ensures s'.w.disk.slot.Absent? && !s'.w.disk.marker && !s'.w.disk.pending && s'.w.disk.status.NoStatus?
    ensures Archived(s.w.disk, s'.w.disk.archives)
  {
    var w, o := FailsEarly(c, s, t);
    w, o := ToFallback(c, s, t, w, o);
    w, o := ToRelease(c, s, t, w, o);
    s' := Over(c, s, t, Resume, w, o);
  }

  lemma FailsEarly(c: Config, s: State, t: nat) returns (w: World, o: Op)
    requires Reachable(c, s) && Idle(s)
    ensures Seen(c, s, t, Resume, w, o) && o.pc.FTerminate? && o.restored == -1
    ensures w.engines == s.w.engines && w.disk.slot == s.w.disk.slot && w.disk.archives == s.w.disk.archives
  {
    if s.w.disk.slot.Holds? {
      w, o := ToCriu(c, s, t);
      w, o := Advance(c, s, t, Resume, w, o, Fault);
    } else {
      Started(c, s, t, Resume);
      w, o := Advance(c, s, t, Resume, s.w, NewOp(s.w, Resume), Go);
    }
  }

  lemma ToFallback(c: Config, s: State, t: nat, w0: World, o0: Op) returns (w: World, o: Op)
    requires Seen(c, s, t, Resume, w0, o0) && o0.pc.FTerminate? && o0.restored == -1 && c.fallback
    ensures Seen(c, s, t, Resume, w, o) && o.pc.ZMarker? && w.mode.Running?
    ensures w.engines == w0.engines + [Engine(true, false, false, [])] && w.vllm == |w0.engines|
    ensures w.disk.slot.Absent? && w.disk.status.NoStatus? && Archived(w0.disk, w.disk.archives)
  {
    w, o := ToArchive(c, s, t, w0, o0);
    w, o := ArchivesImage(c, s, t, w, o);
    w, o := ColdStarts(c, s, t, w, o);
  }

  lemma ColdStarts(c: Config, s: State, t: nat, w0: World, o0: Op) returns (w: World, o: Op)
    requires Seen(c, s, t, Resume, w0, o0) && o0.pc.FStart?
    ensures Seen(c, s, t, Resume, w, o) && o.pc.ZMarker? && w.mode.Running? && w.disk == w0.disk
    ensures w.engines == w0.engines + [Engine(true, false, false, [])] && w.vllm == |w0.engines|
  {
    w, o := Advance(c, s, t, Resume, w0, o0, Go);
    assert o.pc.FReady?;
    w, o := Advance(c, s, t, Resume, w, o, Go);
  }

  lemma ToArchive(c: Config, s: State, t: nat, w0: World, o0: Op) returns (w: World, o: Op)
    requires Seen(c, s, t, Resume, w0, o0) && o0.pc.FTerminate? && o0.restored == -1 && c.fallback
    ensures Seen(c, s, t, Resume, w, o) && o.pc.FArchive? && w.disk.status.NoStatus?
    ensures w.engines == w0.engines && w.disk.slot == w0.disk.slot && w.disk.archives == w0.disk.archives
  {
    w, o := Advance(c, s, t, Resume, w0, o0, Go);
    assert o.pc.FUnlinkMarker? && w == w0;
    w, o := Advance(c, s, t, Resume, w, o, Go);
    assert o.pc.FUnlinkStatus?;
    w, o := Advance(c, s, t, Resume, w, o, Go);
  }

  lemma ArchivesImage(c: Config, s: State, t: nat, w0: World, o0: Op) returns (w: World, o: Op)
    requires Seen(c, s, t, Resume, w0, o0) && o0.pc.FArchive?
    ensures Seen(c, s, t, Resume, w, o) && o.pc.FStart? && w.engines == w0.engines
    ensures w.disk.slot.Absent? && w.disk.status == w0.disk.status && Archived(w0.disk, w.disk.archives)
  {
    w, o := Advance(c, s, t, Resume, w0, o0, Go);
    assert w0.disk.slot.Holds? ==> FreeAt(w0.disk.archives, 0, FirstFree(w0.disk.archives, 0).suffix);
  }

  /** The image in the slot, if any, has got the first free name of second 0. */
  ghost predicate Archived(disk: Disk, archives: map<Name, nat>) {
    if disk.slot.Holds? then exists k :: FreeAt(disk.archives, 0, k) && archives == disk.archives[Name(0, k) := disk.slot.img]
    else archives == disk.archives
  }

  /** A container that ends in the middle of a resume leaves the pending marker, and the next one starts vLLM with it. */
  lemma PendingSurvives(c: Config, s: State, t: nat) returns (s': State)
    requires CanResume(c, s) && !c.resumeOnStart
    ensures Reachable(c, s') && Idle(s') && s'.w.disk.pending && !s'.w.disk.marker && Live(s'.w, s'.w.vllm)
  {
    var w, o := ToCriu(c, s, t);
    SeenIsReachable(c, s, t, Resume, w, o);
    var up := BootStep(true);
    var s1 := During(s, t, w, o);
    var es := [Crash, up, up, up, up];
    assert es[..4] == [Crash, up, up, up] && [Crash, up, up, up][..3] == [Crash, up, up];
    assert [Crash, up, up][..2] == [Crash, up] && [Crash, up][..1] == [Crash] && [Crash][..0] == [];
    assert Run(c, s1, [Crash]) == ApplyCrash(s1);
    assert Run(c, s1, [Crash, up]) == Apply(c, ApplyCrash(s1), up);
    assert Run(c, s1, [Crash, up, up]).boot.BDecide?;
    assert Run(c, s1, [Crash, up, up, up]).boot.BStart?;
    RunsAreReachable(c, s1, es);
    s' := Run(c, s1, es);
  }

  /** A resume of what was just suspended succeeds, and leaves a process that cannot answer again. */
  lemma ResumeSucceeds(c: Config, s: State, t: nat) returns (s': State)
    requires CanBegin(c, s) && Deserted(s.w) && Img(s) < |s.w.images|
    requires s.w.images[Img(s)].CanAnswer() && s.w.images[Img(s)].attempts == []
    ensures Reachable(c, s') && Idle(s') && !s'.w.disk.slot.Holds? && s'.w.mode.Running? && Live(s'.w, s'.w.vllm)
    ensures !s'.w.engines[s'.w.vllm].CanAnswer()
    ensures forall p :: 0 <= p < |s'.w.engines| && s'.w.engines[p].alive ==> p == s'.w.vllm
  {
    var w, o := SucceedsBy(c, s, t, |s.w.engines|);
    w, o := ToRelease(c, s, t, w, o);
    s' := Over(c, s, t, Resume, w, o);
  }

  /** The finally block. */
  lemma ToRelease(c: Config, s: State, t: nat, w0: World, o0: Op) returns (w: World, o: Op)
    requires Seen(c, s, t, Resume, w0, o0) && o0.pc.ZMarker?
    ensures Seen(c, s, t, Resume, w, o) && o.pc.ZRelease?
    ensures w == w0.(disk := w0.disk.(marker := false, pending := false))
  {
    w, o := Advance(c, s, t, Resume, w0, o0, Go);
    assert o.pc.ZPending?;
    w, o := Advance(c, s, t, Resume, w, o, Go);
  }

  /** Suspend, resume and suspend again: the second image can be resumed by no run. */
  lemma SecondImageIsLost(c: Config, s: State, t: nat) returns (s': State)
    requires Reachable(c, s) && Idle(s) && c.sleepLevel != 0 && Untouched(s.w)
    ensures CanBegin(c, s') && !CanEnd(c, s', t, Somehow)
  {
    var s1 := SuspendSucceeds(c, s, t);
    AliveDoesNotMatter(s.w.engines[s.w.vllm]);
    var s2 := ResumeSucceeds(c, s1, t);
    s' := SuspendSucceeds(c, s2, t);
    AliveDoesNotMatter(s2.w.engines[s2.w.vllm]);
    ImageIsRecoverable(c, s', t);
  }

  /** And there is such a state, for every configuration: a first start on an empty directory. */
  lemma FirstStart(c: Config) returns (s: State)
    ensures Reachable(c, s) && Idle(s) && Untouched(s.w)
  {
    var none := Disk(Absent, map[], false, false, NoStatus);
    var s0 := State(World(none, Starting, -1, [], [], Past({}, {}, 0, Witness(0, 0), false)), BUnlinkMarker, false, map[], {});
    assert s0.w.engines == KillAll(s0.w.engines);
    assert none.archives.Values == {};
    var up := BootStep(true);
    var es := [up, up, up, up];
    assert es[..3] == [up, up, up] && [up, up, up][..2] == [up, up] && [up, up][..1] == [up] && [up][..0] == [];
    s := Run(c, s0, es);
    assert Run(c, s0, [up]) == s0.(boot := BUnlinkStatus);
    assert Run(c, s0, [up, up]) == s0.(boot := BDecide);
    assert Run(c, s0, [up, up, up]) == s0.(boot := BStart);
    assert Init(c, s0);
    var trail := RunIsRecorded(c, s0, es);
  }
}
