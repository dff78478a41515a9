/** `run_local_restore`, as one thread of one EngineCore process executes it, among everything else that may happen:
    each statement the protocol can see is a step of `Protocol`. */
module EngineCore {
  import opened Protocol
  import opened Recording

  /** Skipped: one of its three tests failed.  Stuck: it raised before the `try`.  Broken: it raised in it, or could not
      write `done`; `told` is whether the status file says so. */
  datatype Reply = Skipped | Stuck | Completed | Broken(told: bool)

  /** What one attempt does, in order: the stage it names in the status file, the stage it runs. */
  datatype Act = Names(text: Text) | Runs(stage: Stage)
  datatype Text = CheckpointRestoreText | ReinitializeText | ReloadWeightsText | KvCacheWakeText | CudagraphCaptureText

  function Script(c: Config): seq<Act> {
    [Names(CheckpointRestoreText), Runs(CheckpointRestore), Names(ReinitializeText), Runs(Reinitialize),
     Names(ReloadWeightsText), Runs(ReloadWeights)]
    + (if c.nativeWake then [Names(KvCacheWakeText), Runs(WakeKvCache)] else [])
    + [Names(CudagraphCaptureText), Runs(if !c.restoreGraphs then DisableGraphs
                                         else if c.preserveGraphs then PreserveGraphs else CaptureGraphs)]
    + [Runs(ResumeServing)]
  }

  /** A script whose first `k` acts are done, or these and the naming of the stage after them. */
  lemma ScriptBegins(c: Config)
    ensures forall k :: 0 <= k <= |Script(c)| ==> Script(c)[..k] <= Script(c)
    ensures Script(c)[..2] == [] + [Names(CheckpointRestoreText), Runs(CheckpointRestore)]
    ensures Script(c)[..4] == Script(c)[..2] + [Names(ReinitializeText), Runs(Reinitialize)]
    ensures Script(c)[..6] == Script(c)[..4] + [Names(ReloadWeightsText), Runs(ReloadWeights)]
  {
  }

  lemma WholeScript(c: Config)
    ensures Script(c) ==
      [Names(CheckpointRestoreText), Runs(CheckpointRestore), Names(ReinitializeText), Runs(Reinitialize),
       Names(ReloadWeightsText), Runs(ReloadWeights)]
      + (if c.nativeWake then [Names(KvCacheWakeText), Runs(WakeKvCache)] else [])
      + [Names(CudagraphCaptureText)]
      + (if c.restoreGraphs then [Runs(if c.preserveGraphs then PreserveGraphs else CaptureGraphs)]
         else [Runs(DisableGraphs)])
      + [Runs(ResumeServing)]
  {
  }

  lemma ScriptEnds(c: Config)
    ensures var k := |Script(c)| - 1; Script(c) == Script(c)[..k] + [Runs(ResumeServing)]
    ensures c.Plan()[|c.Plan()| - 1] == ResumeServing
  {
  }

  /** Attempt `i` of process `p` is at `pc` and has run the first `n` stages of the plan. */
  predicate Attempted(c: Config, s: State, p: nat, i: nat, pc: AttemptPc, n: nat) {
    && Live(s.w, p) && Has(s.w.engines[p], i, pc) && n == |s.w.engines[p].attempts[i].log| <= |c.Plan()|
    && forall j :: 0 <= j < n ==> s.w.engines[p].attempts[i].log[j].stage == c.Plan()[j]
  }

  /** Attempt `i` of process `p` is where it was. */
  predicate Unmoved(s: State, s': State, p: nat, i: nat) {
    && Live(s.w, p) && Live(s'.w, p)
    && (i < |s.w.engines[p].attempts| ==>
          i < |s'.w.engines[p].attempts| && s'.w.engines[p].attempts[i] == s.w.engines[p].attempts[i])
  }

  // ----- The steps of an attempt ---------------------------------------------------------------------------

  /** The flags of process `p` and the files. */
  predicate Shows(s: State, p: nat, complete: bool, busy: bool, marker: bool, status: Status) {
    && Live(s.w, p) && s.w.engines[p].complete == complete && s.w.engines[p].busy == busy
    && s.w.disk.marker == marker && s.w.disk.status == status
  }

  lemma TestPasses(c: Config, s: State, p: nat, status: Status)
    requires Shows(s, p, false, false, true, status)
    ensures var s' := Apply(c, s, Inside(p, Test)); var i := |s.w.engines[p].attempts|;
            Shows(s', p, false, false, true, status) && Attempted(c, s', p, i, Tested, 0)
  {
  }

  lemma ClaimIsMade(c: Config, s: State, p: nat, i: nat, done: bool, busy: bool, marker: bool, status: Status)
    requires Shows(s, p, done, busy, marker, status) && Attempted(c, s, p, i, Tested, 0)
    ensures var s' := Apply(c, s, Inside(p, Claim(i)));
            Shows(s', p, done, true, marker, NoStatus) && Attempted(c, s', p, i, Working, 0)
  {
  }

  lemma ClaimSticks(c: Config, s: State, p: nat, i: nat, wiped: bool, done: bool, busy: bool, marker: bool, status: Status)
    requires Shows(s, p, done, busy, marker, status) && Attempted(c, s, p, i, Tested, 0)
    ensures var s' := Apply(c, s, Inside(p, Stick(i, wiped)));
            Shows(s', p, done, true, marker, if wiped then NoStatus else status) && Attempted(c, s', p, i, Ended, 0)
  {
  }

  lemma VerdictLapses(c: Config, s: State, p: nat, i: nat, n: nat, wiped: bool, done: bool, busy: bool, marker: bool,
                      status: Status)
    requires Shows(s, p, done, busy, marker, status) && Attempted(c, s, p, i, Working, n)
    ensures var s' := Apply(c, s, Inside(p, Lapse(i, wiped)));
            Shows(s', p, done, false, marker, if wiped then NoStatus else status) && Attempted(c, s', p, i, Ended, n)
  {
  }

  lemma StageIsNamed(c: Config, s: State, p: nat, i: nat, n: nat, done: bool, busy: bool, marker: bool, status: Status)
    requires Shows(s, p, done, busy, marker, status) && Attempted(c, s, p, i, Working, n)
    ensures var s' := Apply(c, s, Inside(p, WriteStage(i)));
            Shows(s', p, done, busy, marker, StageText) && Attempted(c, s', p, i, Working, n)
  {
  }

  lemma StageIsRun(c: Config, s: State, p: nat, i: nat, n: nat, done: bool, busy: bool, marker: bool, status: Status)
    requires Shows(s, p, done, busy, marker, status) && Attempted(c, s, p, i, Working, n) && n < |c.Plan()|
    ensures var s' := Apply(c, s, Inside(p, RunStage(i)));
            Shows(s', p, done, busy, marker, status) && Attempted(c, s', p, i, Working, n + 1)
  {
    var a := s.w.engines[p].attempts[i];
    var log := a.log + [Entry(c.Plan()[n], s.w.past.epoch)];
    assert EngineStep(c, s.w, p, RunStage(i))
        == WithEngine(s.w, p, s.w.engines[p].(attempts := s.w.engines[p].attempts[i := a.(log := log)]));
  }

  lemma FailureIsTold(c: Config, s: State, p: nat, i: nat, n: nat, done: bool, busy: bool, marker: bool, status: Status)
    requires Shows(s, p, done, busy, marker, status) && Attempted(c, s, p, i, Working, n)
    ensures var s' := Apply(c, s, Inside(p, Abort(i)));
            Shows(s', p, done, false, marker, FailedText) && Attempted(c, s', p, i, Ended, n)
  {
  }

  lemma SuccessIsTold(c: Config, s: State, p: nat, i: nat, done: bool, busy: bool, marker: bool, status: Status)
    requires Shows(s, p, done, busy, marker, status) && Attempted(c, s, p, i, Working, |c.Plan()|)
    ensures var s' := Apply(c, s, Inside(p, Announce(i)));
            Shows(s', p, done, busy, marker, DoneText) && Attempted(c, s', p, i, Announced, |c.Plan()|)
  {
  }

  lemma FlagsAreSet(c: Config, s: State, p: nat, i: nat, n: nat, done: bool, busy: bool, marker: bool, status: Status)
    requires Shows(s, p, done, busy, marker, status) && Attempted(c, s, p, i, Announced, n)
    ensures var s' := Apply(c, s, Inside(p, Settle(i)));
            Shows(s', p, true, false, marker, status) && Attempted(c, s', p, i, Ended, n)
  {
  }

  class EngineCore {
    const c: Config
    const pid: nat

    // flags on `self`
    var complete: bool
    var inProgress: bool
    var threadStarted: bool

    // the executor and the scheduler
    var sleepingTags: bool
    var isSleeping: bool
    var paused: bool

    // the files shared with the launcher
    var marker: bool
    var status: Status

    /** The whole system, of which the flags and files are a part. */
    var sys: State

    /** Which attempt of this process is ours. */
    var mine: nat

    /** The run so far, and what our attempt did. */
    ghost var trail: seq<(State, Event)>
    ghost var acts: seq<Act>
    ghost var faults: nat     // calls that raised

    ghost predicate Valid()
      reads this`sys, this`trail, this`complete, this`inProgress, this`marker, this`status
    {
      Recorded(c, trail, sys) && Shows(sys, pid, complete, inProgress, marker, status)
    }

    ghost predicate At(pc: AttemptPc, n: nat)
      reads this`sys, this`mine
    {
      Attempted(c, sys, pid, mine, pc, n)
    }

    /** A process of a system that some run has reached. */
    constructor (c: Config, pid: nat, sys: State, ghost trail: seq<(State, Event)>)
      requires Recorded(c, trail, sys) && Live(sys.w, pid)
      ensures Valid() && this.c == c && this.pid == pid && this.sys == sys && !threadStarted
    {
      this.c, this.pid, this.sys, this.trail, acts, faults := c, pid, sys, trail, [], 0;
      complete, inProgress := sys.w.engines[pid].complete, sys.w.engines[pid].busy;
      marker, status := sys.w.disk.marker, sys.w.disk.status;
      threadStarted, sleepingTags, isSleeping, paused, mine := false, false, false, false, 0;
    }

    // ----- Steps -------------------------------------------------------------------------------------------

    /** Everything else moves: the launcher, other processes, other threads of this one.  Only so that this process
        stays alive and our attempt ours; a process that is killed executes nothing more. */
    method Others()
      requires Valid()
      modifies this`sys, this`trail, this`complete, this`inProgress, this`marker, this`status
      ensures Valid() && Unmoved(old(sys), sys, pid, mine)
    {
      var n: nat :| true;
      while n > 0
        invariant Valid() && Unmoved(old(sys), sys, pid, mine)
      {
        var e: Event := *;
        if Unmoved(sys, Apply(c, sys, e), pid, mine) {
          Move(e);
        }
        n := n - 1;
      }
    }

    method Move(e: Event)
      requires Recorded(c, trail, sys) && Live(Apply(c, sys, e).w, pid)
      modifies this`sys, this`trail, this`complete, this`inProgress, this`marker, this`status
      ensures Valid() && sys == Apply(c, old(sys), e)
    {
      RecordOne(c, trail, sys, e);
      trail := trail + [(sys, e)];
      sys := Apply(c, sys, e);
      complete, inProgress := sys.w.engines[pid].complete, sys.w.engines[pid].busy;
      marker, status := sys.w.disk.marker, sys.w.disk.status;
    }

    /** The statement just executed was a step of our attempt. */
    ghost method Did(e: EngineEvent)
      requires Recorded(c, trail, sys)
      modifies this`trail
      ensures Recorded(c, trail, Apply(c, sys, Inside(pid, e)))
    {
      RecordOne(c, trail, sys, Inside(pid, e));
      trail := trail + [(sys, Inside(pid, e))];
    }

    /** `restore_status.write_text("stage ...")`. */
    method WriteStage(text: Text, ghost n: nat) returns (ok: bool)
      requires Valid() && At(Working, n)
      modifies this`acts, this`faults, this`sys, this`trail, this`complete, this`inProgress, this`marker, this`status
      ensures Valid() && At(Working, n) && faults == old(faults) + (if ok then 0 else 1)
      ensures acts == if ok then old(acts) + [Names(text)] else old(acts)
    {
      Others();
      ok := Try();
      if ok {
        acts := acts + [Names(text)];
        Named(n);
      }
    }

    method Named(ghost n: nat)
      requires Valid() && At(Working, n)
      modifies this`sys, this`trail, this`status
      ensures Valid() && At(Working, n)
    {
      StageIsNamed(c, sys, pid, mine, n, complete, inProgress, marker, status);
      status := StageText;
      Did(EngineEvent.WriteStage(mine));
      sys := Apply(c, sys, Inside(pid, EngineEvent.WriteStage(mine)));
    }

    /** `collective_rpc(...)`, or the resumption of serving: `ok` unless it raises. */
    method Execute(stage: Stage, ghost n: nat) returns (ok: bool)
      requires Valid() && At(Working, n) && n < |c.Plan()| && c.Plan()[n] == stage
      modifies this`acts, this`faults, this`sys, this`trail, this`complete, this`inProgress, this`marker, this`status
      ensures Valid() && At(Working, if ok then n + 1 else n)
      ensures faults == old(faults) + (if ok then 0 else 1)
      ensures acts == if ok then old(acts) + [Runs(stage)] else old(acts)
    {
      Others();
      ok := Try();
      if ok {
        acts := acts + [Runs(stage)];
        Ran(n);
      }
    }

    method Ran(ghost n: nat)
      requires Valid() && At(Working, n) && n < |c.Plan()|
      modifies this`sys, this`trail
      ensures Valid() && At(Working, n + 1)
    {
      StageIsRun(c, sys, pid, mine, n, complete, inProgress, marker, status);
      Did(EngineEvent.RunStage(mine));
      sys := Apply(c, sys, Inside(pid, EngineEvent.RunStage(mine)));
    }

    /** A stage named in the status file and then run. */
    method RunStage(text: Text, stage: Stage, ghost n: nat) returns (ok: bool)
      requires Valid() && At(Working, n) && n < |c.Plan()| && c.Plan()[n] == stage
      requires acts + [Names(text), Runs(stage)] <= Script(c)
      modifies this`acts, this`faults, this`sys, this`trail, this`complete, this`inProgress, this`marker, this`status
      ensures Valid() && At(Working, if ok then n + 1 else n) && faults == old(faults) + (if ok then 0 else 1)
      ensures acts <= Script(c)
      ensures ok ==> acts == old(acts) + [Names(text), Runs(stage)]
      ensures !ok ==> acts == old(acts) || acts == old(acts) + [Names(text)]
    {
      assert acts + [Names(text), Runs(stage)] == acts + [Names(text)] + [Runs(stage)];
      ok := WriteStage(text, n);
      if ok {
        ok := Execute(stage, n);
      }
    }

    /** Something the protocol does not see. */
    method Try() returns (ok: bool)
      modifies this`faults
      ensures faults == old(faults) + (if ok then 0 else 1)
    {
      ok := *;
      faults := faults + (if ok then 0 else 1);
    }

    // ----- run_local_restore -------------------------------------------------------------------------------

    /** Completed: every stage of the plan ran, in order, and only then `done` was written; the executor is awake and
        the scheduler resumed.  Broken: the process may try again, and if it could be written, `failed` was.  Stuck: it
        will never try again. */
    method RunLocalRestore() returns (r: Reply)
      requires Valid()
      modifies this`acts, this`faults, this`sys, this`trail, this`mine, this`complete, this`inProgress, this`marker
      modifies this`status, this`sleepingTags, this`isSleeping, this`paused
      ensures Valid()
      ensures old(complete || inProgress || !marker) <==> r.Skipped?
      ensures r.Skipped? ==> sys == old(sys) && mine == old(mine)
      ensures r.Completed? ==> At(Ended, |c.Plan()|) && complete && !inProgress
      ensures r.Completed? ==> !sleepingTags && !isSleeping && !paused
      ensures r.Completed? ==> (acts ==
        [Names(CheckpointRestoreText), Runs(CheckpointRestore), Names(ReinitializeText), Runs(Reinitialize),
         Names(ReloadWeightsText), Runs(ReloadWeights)]
        + (if c.nativeWake then [Names(KvCacheWakeText), Runs(WakeKvCache)] else [])
        + [Names(CudagraphCaptureText)]
        + (if c.restoreGraphs then [Runs(if c.preserveGraphs then PreserveGraphs else CaptureGraphs)]
           else [Runs(DisableGraphs)])
        + [Runs(ResumeServing)])
      ensures r.Stuck? || r.Broken? ==> faults > old(faults)
      ensures r.Stuck? ==> At(Ended, 0) && inProgress
      ensures r.Broken? ==> (exists n: nat :: At(Ended, n)) && !inProgress && acts <= Script(c)
      ensures r.Broken? ==> if r.told then status.FailedText? else faults > old(faults) + (if acts == Script(c) then 0 else 1)
    {
      if complete || inProgress || !marker {
        return Skipped;
      }
      Enlist();
      ghost var n;
      r, n := TakePart();
      WholeScript(c);
    }

    /** An attempt that has passed the tests; `n` is the number of stages it ran. */
    method TakePart() returns (r: Reply, ghost n: nat)
      requires Valid() && At(Tested, 0)
      modifies this`acts, this`faults, this`sys, this`trail, this`complete, this`inProgress, this`marker, this`status
      modifies this`sleepingTags, this`isSleeping, this`paused
      ensures Valid() && At(Ended, n) && !r.Skipped? && (inProgress <==> r.Stuck?) && (r.Stuck? ==> n == 0)
      ensures r.Completed? ==> n == |c.Plan()| && complete && !sleepingTags && !isSleeping && !paused && acts == Script(c)
      ensures r.Stuck? || r.Broken? ==> faults > old(faults)
      ensures r.Broken? ==> acts <= Script(c)
      ensures r.Broken? ==> if r.told then status.FailedText? else faults > old(faults) + (if acts == Script(c) then 0 else 1)
    {
      acts, n := [], 0;
      var ok := Claim();
      if !ok {
        return Stuck, 0;
      }
      ok, n := RunPlan();
      if ok {
        ok := Succeed();
        r := if ok then Completed else Broken(false);
      } else {
        var told := Fail(n);
        r := Broken(told);
      }
    }

    /** The three tests have passed. */
    method Enlist()
      requires Valid() && !complete && !inProgress && marker
      modifies this`sys, this`trail, this`mine
      ensures Valid() && At(Tested, 0)
    {
      mine := |sys.w.engines[pid].attempts|;
      TestPasses(c, sys, pid, status);
      Did(Test);
      sys := Apply(c, sys, Inside(pid, Test));
    }

    /** The `except` and `finally` branches. */
    method Fail(ghost n: nat) returns (told: bool)
      requires Valid() && At(Working, n)
      modifies this`faults, this`sys, this`trail, this`complete, this`inProgress, this`marker, this`status
      ensures Valid() && At(Ended, n) && !inProgress && (told ==> status.FailedText?)
      ensures faults == old(faults) + (if told then 0 else 1)
    {
      Others();
      told := Try();
      if told {
        TellFailure(n);
      } else {
        Lapsed(n);
      }
    }

    method TellFailure(ghost n: nat)
      requires Valid() && At(Working, n)
      modifies this`sys, this`trail, this`inProgress, this`status
      ensures Valid() && At(Ended, n) && status.FailedText? && !inProgress
    {
      FailureIsTold(c, sys, pid, mine, n, complete, inProgress, marker, status);
      inProgress, status := false, FailedText;
      Did(Abort(mine));
      sys := Apply(c, sys, Inside(pid, Abort(mine)));
    }

    /** The verdict could not be written; the file may be empty now. */
    method Lapsed(ghost n: nat)
      requires Valid() && At(Working, n)
      modifies this`sys, this`trail, this`inProgress, this`status
      ensures Valid() && At(Ended, n) && !inProgress
    {
      var wiped: bool := *;
      VerdictLapses(c, sys, pid, mine, n, wiped, complete, inProgress, marker, status);
      inProgress, status := false, if wiped then NoStatus else status;
      Did(Lapse(mine, wiped));
      sys := Apply(c, sys, Inside(pid, Lapse(mine, wiped)));
    }

    /** `_vllm_criu_local_restore_in_progress = True`, and the status file and the fault log of earlier attempts are
        removed; an exception here is not caught. */
    method Claim() returns (ok: bool)
      requires Valid() && At(Tested, 0)
      modifies this`faults, this`sys, this`trail, this`complete, this`inProgress, this`marker, this`status
      ensures Valid() && At(if ok then Working else Ended, 0) && inProgress && faults == old(faults) + (if ok then 0 else 1)
    {
      Others();
      ok := Try();
      if ok {
        Claimed();
      } else {
        StuckFast();
      }
    }

    method Claimed()
      requires Valid() && At(Tested, 0)
      modifies this`sys, this`trail, this`inProgress, this`status
      ensures Valid() && At(Working, 0) && inProgress
    {
      ClaimIsMade(c, sys, pid, mine, complete, inProgress, marker, status);
      inProgress, status := true, NoStatus;
      Did(EngineEvent.Claim(mine));
      sys := Apply(c, sys, Inside(pid, EngineEvent.Claim(mine)));
    }

    method StuckFast()
      requires Valid() && At(Tested, 0)
      modifies this`sys, this`trail, this`inProgress, this`status
      ensures Valid() && At(Ended, 0) && inProgress
    {
      var wiped: bool := *;
      ClaimSticks(c, sys, pid, mine, wiped, complete, inProgress, marker, status);
      inProgress, status := true, if wiped then NoStatus else status;
      Did(Stick(mine, wiped));
      sys := Apply(c, sys, Inside(pid, Stick(mine, wiped)));
    }

    /** The `else` and `finally` branches. */
    method Succeed() returns (ok: bool)
      requires Valid() && At(Working, |c.Plan()|)
      modifies this`faults, this`sys, this`trail, this`complete, this`inProgress, this`marker, this`status
      ensures Valid() && At(Ended, |c.Plan()|) && !inProgress && (ok ==> complete)
      ensures faults == old(faults) + (if ok then 0 else 1)
    {
      Others();
      ok := Try();
      if ok {
        WriteDone();
        Others();
        Settled();
      } else {
        Lapsed(|c.Plan()|);
      }
    }

    method WriteDone()
      requires Valid() && At(Working, |c.Plan()|)
      modifies this`sys, this`trail, this`status
      ensures Valid() && At(Announced, |c.Plan()|)
    {
      SuccessIsTold(c, sys, pid, mine, complete, inProgress, marker, status);
      status := DoneText;
      Did(Announce(mine));
      sys := Apply(c, sys, Inside(pid, Announce(mine)));
    }

    method Settled()
      requires Valid() && At(Announced, |c.Plan()|)
      modifies this`sys, this`trail, this`complete, this`inProgress
      ensures Valid() && At(Ended, |c.Plan()|) && complete && !inProgress
    {
      FlagsAreSet(c, sys, pid, mine, |c.Plan()|, complete, inProgress, marker, status);
      complete, inProgress := true, false;
      Did(Settle(mine));
      sys := Apply(c, sys, Inside(pid, Settle(mine)));
    }

    /** The `try` block.  `n` stages have run when it ends. */
    method RunPlan() returns (ok: bool, ghost n: nat)
      requires Valid() && At(Working, 0) && acts == []
      modifies this`acts, this`faults, this`sys, this`trail, this`complete, this`inProgress, this`marker, this`status
      modifies this`sleepingTags, this`isSleeping, this`paused
      ensures Valid() && At(Working, n) && acts <= Script(c)
      ensures faults >= old(faults) && (!ok ==> faults > old(faults))
      ensures ok ==> acts == Script(c) && n == |c.Plan()| && !sleepingTags && !isSleeping && !paused
    {
      ok, n := RunWorkerStages();
      if !ok { return; }
      ok, n := RunWakeAndGraphs();
      if !ok { return; }
      sleepingTags, isSleeping := false, false;
      ok, n := Resume();
    }

    method Resume() returns (ok: bool, ghost n: nat)
      requires Valid() && At(Working, |c.Plan()| - 1) && acts == Script(c)[..|Script(c)| - 1]
      modifies this`acts, this`faults, this`sys, this`trail, this`complete, this`inProgress, this`marker, this`status
      modifies this`paused
      ensures Valid() && At(Working, n) && acts <= Script(c)
      ensures faults >= old(faults) && (!ok ==> faults > old(faults))
      ensures ok ==> acts == Script(c) && n == |c.Plan()| && !paused
    {
      n := |c.Plan()| - 1;
      ScriptEnds(c);
      ok := Execute(ResumeServing, n);
      if !ok { return; }
      n := n + 1;
      paused := false;
      ok := Try();  // _discard_stale_engine_dead_outputs
    }

    method RunWorkerStages() returns (ok: bool, ghost n: nat)
      requires Valid() && At(Working, 0) && acts == []
      modifies this`acts, this`faults, this`sys, this`trail, this`complete, this`inProgress, this`marker, this`status
      ensures Valid() && At(Working, n) && acts <= Script(c) && (ok ==> n == 3 && acts == Script(c)[..6])
      ensures faults >= old(faults) && (!ok ==> faults > old(faults))
    {
      n := 0;
      ScriptBegins(c);
      ok := Try();  // the output streams and the fault log
      if !ok { return; }
      ok := RunStage(CheckpointRestoreText, CheckpointRestore, 0);
      if !ok { return; }
      n := 1;
      ok := RunStage(ReinitializeText, Reinitialize, 1);
      if !ok { return; }
      n := 2;
      ok := RunStage(ReloadWeightsText, ReloadWeights, 2);
      if ok { n := 3; }
    }

    method RunWakeAndGraphs() returns (ok: bool, ghost n: nat)
      requires Valid() && At(Working, 3) && acts == Script(c)[..6]
      modifies this`acts, this`faults, this`sys, this`trail, this`complete, this`inProgress, this`marker, this`status
      ensures Valid() && At(Working, n) && acts <= Script(c)
      ensures ok ==> n == |c.Plan()| - 1 && acts == Script(c)[..|Script(c)| - 1]
      ensures faults >= old(faults) && (!ok ==> faults > old(faults))
    {
      n := 3;
      if c.nativeWake {
        ok := RunStage(KvCacheWakeText, WakeKvCache, n);
        if !ok { return; }
        n := n + 1;
      }
      if c.restoreGraphs && c.preserveGraphs {
        ok := RunStage(CudagraphCaptureText, PreserveGraphs, n);
      } else if c.restoreGraphs {
        ok := RunStage(CudagraphCaptureText, CaptureGraphs, n);
      } else {
        ok := RunStage(CudagraphCaptureText, DisableGraphs, n);
      }
      if ok { n := n + 1; }
    }

    /** `start_local_restore_thread`: of the threads that ask, at most one is ever told to start. */
    method StartLocalRestoreThread() returns (started: bool)
      requires Valid()
      modifies this`threadStarted
      ensures threadStarted == (old(threadStarted) || started)
      ensures started <==> marker && !complete && !inProgress && !old(threadStarted)
    {
      if !marker || complete || inProgress || threadStarted {
        return false;
      }
      threadStarted := true;
      started := true;
    }
  }
}
