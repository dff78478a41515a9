/** What the protocol guarantees over every run: every interleaving of request threads, reapers and EngineCore
    threads, every schedule of failing commands, dying processes and container crashes. */
module ProtocolTheorems {
  import opened Protocol
  import opened ProtocolInvariant
  import opened Recording

  function Stages(log: seq<Entry>): (r: seq<Stage>)
    ensures |r| == |log| && forall j :: 0 <= j < |r| ==> r[j] == log[j].stage
  {
    seq(|log|, j requires 0 <= j < |log| => log[j].stage)
  }

  lemma ReachableIsSound(c: Config, s: State)
    requires Reachable(c, s)
    ensures Inv(c, s)
  {
    var trail :| Recorded(c, trail, s);
    RecordedIsRun(c, trail, s);
    Invariant(c, StateAt(trail, s, 0), Events(trail));
  }

  /** A restore that reports success with a sleep level rests on one EngineCore attempt that ran the whole plan
      in order.  If no attempt was under way when the operation took the lock, all of it ran after this
      operation's CUDA restore; if no live process could still answer then, it ran in the restored process. */
  lemma RestoreSoundness(c: Config, s: State, t: nat) returns (a: Witness)
    requires Reachable(c, s) && c.sleepLevel != 0 && t in s.threads && s.threads[t].outcome.Restored?
    ensures IsAttempt(s.w, a) && Stages(AttemptAt(s.w, a).log) ==
      [CheckpointRestore, Reinitialize, ReloadWeights]
      + (if c.nativeWake then [WakeKvCache] else [])
      + (if !c.restoreGraphs then [DisableGraphs] else if c.preserveGraphs then [PreserveGraphs] else [CaptureGraphs])
      + [ResumeServing]
    ensures var o := s.threads[t];
            && (a.engine == o.restored || a.engine < o.past.base)
            && a == o.past.seen && (o.past.alone ==> a.engine == o.restored)
            && (o.past.clean ==> o.past.epoch == s.w.past.epoch && AllAt(AttemptAt(s.w, a), o.past.epoch))
  {
    ReachableIsSound(c, s);
    assert OpInv(c, s.w, s.threads[t]);
    a := s.threads[t].past.seen;
    assert Sound(c, s.w.engines[a.engine], s.w.past.epoch);
    assert SoundAttempt(c, AttemptAt(s.w, a), s.w.past.epoch);
    assert Stages(AttemptAt(s.w, a).log) == c.Plan();
  }

  /** Without a rival, an image of a process that can answer no more cannot be recovered with a sleep level: its
      completion flag, never reset, keeps every attempt from starting, so nobody writes `done`. */
  lemma SecondRestoreNeverSucceeds(c: Config, s: State, t: nat)
    requires Reachable(c, s) && c.sleepLevel != 0 && t in s.threads && Spent(s.w, s.threads[t])
    ensures !s.threads[t].outcome.Restored?
  {
    ReachableIsSound(c, s);
    assert OpInv(c, s.w, s.threads[t]);
  }

  /** With a live EngineCore, the request marker exists only while a restore that holds the lock is past its
      CUDA restore. */
  lemma MarkerImpliesCudaRestored(c: Config, s: State, p: nat) returns (t: nat)
    requires Reachable(c, s) && s.w.disk.marker && Live(s.w, p)
    ensures s.lock && t in s.threads && InWindow(s.threads[t])
  {
    ReachableIsSound(c, s);
    assert s.threads != map[];
    t :| t in s.threads;
    assert OpInv(c, s.w, s.threads[t]);
  }

  /** Hence no local restore gets past its test before the CUDA restore of the current operation. */
  lemma NoAttemptBeforeCuda(c: Config, s: State, p: nat) returns (t: nat)
    requires Reachable(c, s) && EngineStep(c, s.w, p, Test) != s.w
    ensures s.lock && t in s.threads && s.threads[t].past.cudaDone
  {
    t := MarkerImpliesCudaRestored(c, s, p);
  }

  /** And no process that `start_vllm` launches finds the marker: not the fallback, not a cold start. */
  lemma ColdStartSeesNoMarker(c: Config, s: State, t: nat)
    requires Reachable(c, s) && (s.boot.BStart? || (t in s.threads && s.threads[t].pc.FStart?))
    ensures !s.w.disk.marker
  {
    ReachableIsSound(c, s);
    if !s.boot.BStart? {
      assert OpInv(c, s.w, s.threads[t]);
    }
  }

  /** At most one body runs, it runs under the lock, and the lock is free once it is left; a thread that loses
      the race for the lock changes nothing. */
  lemma OperationExclusion(c: Config, s: State, t: nat, kind: Kind)
    requires Reachable(c, s)
    ensures |s.threads| <= 1 && (s.lock <==> |s.threads| == 1)
    ensures s.lock ==> Enter(s, t, kind) == s
    ensures s.w.mode.Restoring? ==> s.lock
    ensures s.w.mode.Checkpointing? && !s.w.past.stranded ==> s.lock
  {
    ReachableIsSound(c, s);
    if s.threads != map[] {
      var u :| u in s.threads;
      assert s.threads.Keys == {u};
      assert |s.threads.Keys| == 1;
    }
  }

  /** What `state` says of an operation, unless a reaper has written to it meanwhile: that a suspend dumps, that a resume
      restores; and once a resume is through, that vLLM runs, if it was restored or started afresh, and otherwise that
      there is a checkpoint. */
  lemma StateTells(c: Config, s: State, t: nat)
    requires Reachable(c, s) && t in s.threads && s.w.mode !in {Failed, Stopped}
    ensures var o := s.threads[t];
            && (o.pc in {SDump, SRmdir, SRename, SFinish} ==> s.w.mode.Checkpointing?)
            && (o.pc in {RPend, RCriu, RCuda, RTouch, RReady, RWait, RAdopt, RConsume, RFinish} ==> s.w.mode.Restoring?)
            && (o.outcome.Restored? || o.outcome.Fallback? ==> s.w.mode.Running?)
            && (o.outcome.Raised? ==> s.w.mode.Checkpointed?)
  {
    ReachableIsSound(c, s);
    assert OpInv(c, s.w, s.threads[t]);
  }

  /** From its CRIU restore to its end a resume that gets on has the pending marker there, and when it is over, both
      markers are gone. */
  lemma MarkersCoverRecovery(c: Config, s: State, t: nat)
    requires Reachable(c, s) && t in s.threads
    ensures s.threads[t].pc in {RCriu, RCuda, RTouch, RReady, RWait, RAdopt, RConsume, RFinish} ==> s.w.disk.pending
    ensures s.threads[t].pc.ZRelease? ==> !s.w.disk.pending && !s.w.disk.marker
  {
    ReachableIsSound(c, s);
    assert OpInv(c, s.w, s.threads[t]);
  }

  predicate EndsContainer(s: State, e: Event) { e.Crash? || (e == BootStep(false) && s.boot.BStart?) }

  predicate ClearsPending(s: State, e: Event) {
    e.Step? && e.t in s.threads && s.threads[e.t].pc in {RUnlinkPending, ZPending}
  }

  /** A container ended under an operation while the pending marker was there, and no resume has removed it since. */
  ghost predicate LeftBehind(trail: seq<(State, Event)>) {
    exists k :: 0 <= k < |trail| && LeavesBehind(trail[k].0, trail[k].1)
             && forall j :: k < j < |trail| ==> !ClearsPending(trail[j].0, trail[j].1)
  }

  predicate LeavesBehind(s: State, e: Event) { EndsContainer(s, e) && s.lock && s.w.disk.pending }

  ghost predicate Resuming(s: State) { exists t :: t in s.threads && !SectionOf(s.threads[t].pc).Suspending? }

  /** The pending marker is there with the lock free exactly if a container that ended left it: startup does not
      remove it. */
  lemma PendingUnlockedMeansLeft(c: Config, trail: seq<(State, Event)>, s: State)
    requires Recorded(c, trail, s) && !StateAt(trail, s, 0).w.disk.pending && !s.lock
    ensures s.w.disk.pending <==> LeftBehind(trail)
  {
    PendingIsExplained(c, trail, s);
    assert Reachable(c, s);
    ReachableIsSound(c, s);
  }

  lemma {:induction false} PendingIsExplained(c: Config, trail: seq<(State, Event)>, s: State)
    requires Recorded(c, trail, s) && !StateAt(trail, s, 0).w.disk.pending
    ensures s.w.disk.pending ==> LeftBehind(trail) || Resuming(s)
    ensures LeftBehind(trail) ==> s.w.disk.pending
  {
    if trail == [] {
      assert !s.w.disk.pending;
    } else {
      var n := |trail| - 1;
      var (s1, e) := trail[n];
      assert Links(c, trail, s, n + 1);
      forall k | 0 <= k <= n ensures Links(c, trail[..n], s1, k) {
        assert Links(c, trail, s, k);
      }
      assert StateAt(trail[..n], s1, 0) == StateAt(trail, s, 0);
      PendingIsExplained(c, trail[..n], s1);
      assert Recorded(c, trail[..n], s1);
      ReachableIsSound(c, s1);
      PendingStep(c, s1, e);
      LeftOneMore(trail);
    }
  }

  lemma LeftOneMore(trail: seq<(State, Event)>)
    requires trail != []
    ensures var n := |trail| - 1; var (s, e) := trail[n];
            LeftBehind(trail) <==> LeavesBehind(s, e) || (LeftBehind(trail[..n]) && !ClearsPending(s, e))
  {
    var n := |trail| - 1;
    if LeftBehind(trail[..n]) && !ClearsPending(trail[n].0, trail[n].1) {
      var k :| 0 <= k < n && LeavesBehind(trail[..n][k].0, trail[..n][k].1)
            && forall j :: k < j < n ==> !ClearsPending(trail[..n][j].0, trail[..n][j].1);
      assert forall j :: k < j < n ==> trail[..n][j] == trail[j];
      assert LeavesBehind(trail[k].0, trail[k].1);
    }
    if LeftBehind(trail) {
      var k :| 0 <= k < |trail| && LeavesBehind(trail[k].0, trail[k].1)
            && forall j :: k < j < |trail| ==> !ClearsPending(trail[j].0, trail[j].1);
      if k < n {
        assert trail[..n][k] == trail[k] && LeavesBehind(trail[..n][k].0, trail[..n][k].1);
        assert forall j :: k < j < n ==> trail[..n][j] == trail[j];
      }
    }
  }

  lemma PendingStep(c: Config, s: State, e: Event)
    requires Inv(c, s)
    ensures var s' := Apply(c, s, e);
            && (s'.w.disk.pending && !s.w.disk.pending ==> Resuming(s'))
            && (s.w.disk.pending && !s'.w.disk.pending ==> ClearsPending(s, e))
            && (ClearsPending(s, e) ==> !s'.w.disk.pending)
            && (s'.w.disk.pending && Resuming(s) && !Resuming(s') ==> EndsContainer(s, e) && s.lock)
  {
    match e {
      case Step(t, ch, stamp) =>
        if t in s.threads {
          assert OpInv(c, s.w, s.threads[t]) && s.threads.Keys == {t};
          PendingMoves(c, s.w, s.threads[t], ch, stamp);
          assert t in Apply(c, s, e).threads ==> Apply(c, s, e).threads[t] == BodyStep(c, s.w, s.threads[t], ch, stamp).1;
        }
      case Inside(p, ee) => EngineLeavesLauncherState(c, s.w, p, ee);
      case Begin(t, kind) => assert s.lock ==> Apply(c, s, e) == s;
      case _ =>
    }
  }

  lemma PendingMoves(c: Config, w: World, o: Op, ch: Choice, stamp: nat)
    ensures var (w', o') := BodyStep(c, w, o, ch, stamp); PendingFits(w, o, w', o')
  {
    match SectionOf(o.pc)
    case Recovering => RecoverLeavesPending(c, w, o, ch);
    case Failing => FailLeavesPending(c, w, o, ch, stamp);
    case _ =>
  }

  predicate PendingFits(w: World, o: Op, w': World, o': Op) {
    && (w'.disk.pending && !w.disk.pending ==> o.pc.RPend?)
    && (w.disk.pending && !w'.disk.pending ==> o.pc in {RUnlinkPending, ZPending})
    && (o.pc in {RUnlinkPending, ZPending} ==> !w'.disk.pending)
    && (SectionOf(o.pc).Suspending? <==> SectionOf(o'.pc).Suspending?)
  }

  lemma RecoverLeavesPending(c: Config, w: World, o: Op, ch: Choice)
    requires SectionOf(o.pc).Recovering?
    ensures var (w', o') := RecoverStep(c, w, o, ch); PendingFits(w, o, w', o')
  {
  }

  lemma FailLeavesPending(c: Config, w: World, o: Op, ch: Choice, stamp: nat)
    requires SectionOf(o.pc).Failing?
    ensures var (w', o') := FailStep(c, w, o, ch, stamp); PendingFits(w, o, w', o')
  {
  }

  /** The cleanup of the staging directory fails in the except block of a suspend that has announced itself. */
  predicate CleanupFails(s: State, e: Event) {
    e.Step? && e.t in s.threads && s.threads[e.t].pc.SFail? && !e.choice.Go? && s.w.mode.Checkpointing?
  }

  /** Unless that happens, `checkpointing` too is shown only under the lock. */
  lemma CheckpointingImpliesLocked(c: Config, trail: seq<(State, Event)>, s: State)
    requires Recorded(c, trail, s)
    requires forall k :: 0 <= k < |trail| ==> !CleanupFails(trail[k].0, trail[k].1)
    ensures s.w.mode.Checkpointing? ==> s.lock
  {
    NothingStrands(c, trail, s);
    OperationExclusion(c, s, 0, Suspend);
  }

  lemma {:induction false} NothingStrands(c: Config, trail: seq<(State, Event)>, s: State)
    requires Recorded(c, trail, s)
    requires forall k :: 0 <= k < |trail| ==> !CleanupFails(trail[k].0, trail[k].1)
    ensures !s.w.past.stranded
  {
    if trail == [] {
      assert Links(c, trail, s, 0);
    } else {
      var n := |trail| - 1;
      assert Links(c, trail, s, n + 1);
      forall k | 0 <= k <= n ensures Links(c, trail[..n], trail[n].0, k) {
        assert Links(c, trail, s, k);
      }
      NothingStrands(c, trail[..n], trail[n].0);
      OnlyCleanupStrands(c, trail[n].0, trail[n].1);
    }
  }

  /** It is the one step that leaves `checkpointing` behind. */
  lemma OnlyCleanupStrands(c: Config, s: State, e: Event)
    requires !s.w.past.stranded
    ensures Apply(c, s, e).w.past.stranded <==> CleanupFails(s, e)
  {
    match e {
      case Step(t, ch, stamp) =>
        if t in s.threads {
          StrandedBySuspend(c, s.w, s.threads[t], ch, stamp);
        }
      case Inside(p, ee) => EngineLeavesLauncherState(c, s.w, p, ee);
      case _ =>
    }
  }

  lemma StrandedBySuspend(c: Config, w: World, o: Op, ch: Choice, stamp: nat)
    requires !w.past.stranded
    ensures BodyStep(c, w, o, ch, stamp).0.past.stranded <==> o.pc.SFail? && !ch.Go? && w.mode.Checkpointing?
  {
  }

  /** With the lock free, `checkpointing` is shown exactly if such a failure left it. */
  lemma CheckpointingUnlockedMeansStranded(c: Config, s: State)
    requires Reachable(c, s) && !s.lock
    ensures s.w.mode.Checkpointing? <==> s.w.past.stranded
  {
    ReachableIsSound(c, s);
  }

  /** Nothing is lost and nothing is duplicated: images in the slot at first plus images published equal images
      used up plus images archived plus the one in the slot. */
  lemma ImageConservation(c: Config, trail: seq<(State, Event)>, s: State)
    requires Recorded(c, trail, s)
    ensures var s0 := StateAt(trail, s, 0);
      |InSlot(s0.w)| + (|s.w.past.published| - |s0.w.past.published|)
      == |s.w.past.consumed| + (|s.w.disk.archives| - |s0.w.disk.archives|) + |InSlot(s.w)|
  {
    var s0 := StateAt(trail, s, 0);
    RecordedIsRun(c, trail, s);
    Invariant(c, s0, Events(trail));
    Invariant(c, s0, []);
    LedgerCounts(s0.w);
    LedgerCounts(s.w);
  }

  lemma LedgerCounts(w: World)
    requires Ledger(w)
    ensures |w.past.published| == |w.past.consumed| + |w.disk.archives| + |InSlot(w)|
  {
    InjectiveCounts(w.disk.archives);
    assert |w.past.consumed + w.disk.archives.Values| == |w.past.consumed| + |w.disk.archives.Values|;
  }

  lemma {:induction false} InjectiveCounts(archives: map<Name, nat>)
    requires Injective(archives)
    ensures |archives.Values| == |archives|
    decreases |archives|
  {
    if archives != map[] {
      var n :| n in archives;
      var rest := archives - {n};
      assert archives.Values == rest.Values + {archives[n]} by {
        forall m | m in archives && m != n ensures archives[m] in rest.Values {
          assert rest[m] == archives[m];
        }
      }
      InjectiveCounts(rest);
    }
  }

  // ----- Images that are lost ------------------------------------------------------------------------------

  /** Thread `t` has dumped image `k` and not published it yet. */
  predicate InHand(s: State, t: nat, k: nat) {
    t in s.threads && (s.threads[t].pc.SRmdir? || s.threads[t].pc.SRename?) && s.threads[t].image == k
  }

  /** Image `k` was dumped, and is nowhere to be resumed from. */
  ghost predicate Orphan(s: State, k: nat) {
    k < |s.w.images| && k !in s.w.past.published && forall t :: t in s.threads ==> !InHand(s, t, k)
  }

  /** The empty slot cannot be removed, or the staging directory not renamed; or the container ends just then. */
  predicate PublicationFails(s: State, e: Event, k: nat) {
    match e
    case Step(t, ch, _) => InHand(s, t, k) && !ch.Go?
    case Crash => exists t :: t in s.threads && InHand(s, t, k)
    case _ => false
  }

  /** A step makes an orphan of an image exactly if its publication fails. */
  lemma OnlyFailedPublicationLoses(c: Config, s: State, e: Event, k: nat)
    requires Reachable(c, s) && !Orphan(s, k) && k < |s.w.images| && k !in s.w.past.published
    ensures Orphan(Apply(c, s, e), k) <==> PublicationFails(s, e, k)
  {
    ReachableIsSound(c, s);
    var t :| t in s.threads && InHand(s, t, k);
    match e {
      case Step(u, ch, stamp) => if u in s.threads { assert u == t; }
      case Inside(p, ee) => EngineLeavesLauncherState(c, s.w, p, ee);
      case _ =>
    }
  }

  lemma OnlyDumpsAdd(c: Config, w: World, o: Op, ch: Choice, stamp: nat)
    ensures var (w', o') := BodyStep(c, w, o, ch, stamp);
            w'.images == w.images || (|w'.images| == |w.images| + 1 && o'.pc.SRmdir? && o'.image == |w.images|)
  {
    BodyLeavesEngines(c, w, o, ch, stamp);
  }

  /** An image is in hand from its dump on. */
  lemma DumpedInHand(c: Config, s: State, e: Event, k: nat)
    requires Reachable(c, s) && k >= |s.w.images|
    ensures !Orphan(Apply(c, s, e), k)
  {
    ReachableIsSound(c, s);
    match e {
      case Step(u, ch, stamp) =>
        if u in s.threads && k < |Apply(c, s, e).w.images| {
          OnlyDumpsAdd(c, s.w, s.threads[u], ch, stamp);
          assert InHand(Apply(c, s, e), u, k);
        }
      case Inside(p, ee) => EngineLeavesLauncherState(c, s.w, p, ee);
      case _ =>
    }
  }

  /** And then it stays one: no run ever puts it into the slot, uses it up or archives it. */
  lemma {:induction false} OrphansStay(c: Config, s: State, es: seq<Event>, k: nat)
    requires Reachable(c, s) && Orphan(s, k)
    ensures var s' := Run(c, s, es); Orphan(s', k) && s'.w.disk.slot != Holds(k) && k !in s'.w.disk.archives.Values
    ensures Reachable(c, Run(c, s, es))
  {
    if es == [] {
      ReachableIsSound(c, s);
      assert k in InSlot(s.w) <==> s.w.disk.slot == Holds(k);
    } else {
      var before := Run(c, s, es[..|es| - 1]);
      OrphansStay(c, s, es[..|es| - 1], k);
      StepKeepsOrphan(c, before, es[|es| - 1], k);
      var trail :| Recorded(c, trail, before);
      RecordOne(c, trail, before, es[|es| - 1]);
      ReachableIsSound(c, Run(c, s, es));
      assert k in InSlot(Run(c, s, es).w) <==> Run(c, s, es).w.disk.slot == Holds(k);
    }
  }

  lemma StepKeepsOrphan(c: Config, s: State, e: Event, k: nat)
    requires Orphan(s, k)
    ensures Orphan(Apply(c, s, e), k)
  {
    match e {
      case Step(u, ch, stamp) =>
        if u in s.threads {
          assert !InHand(s, u, k);
          BodyKeepsOrphan(c, s.w, s.threads[u], ch, stamp, k);
        }
      case Inside(p, ee) => EngineLeavesLauncherState(c, s.w, p, ee);
      case _ =>
    }
  }

  predicate NotYet(w: World, o: Op, k: nat) {
    k < |w.images| && k !in w.past.published && !((o.pc.SRmdir? || o.pc.SRename?) && o.image == k)
  }

  lemma BodyKeepsOrphan(c: Config, w: World, o: Op, ch: Choice, stamp: nat, k: nat)
    requires NotYet(w, o, k)
    ensures var (w', o') := BodyStep(c, w, o, ch, stamp); NotYet(w', o', k)
  {
    match SectionOf(o.pc)
    case Suspending => SuspendKeepsOrphan(w, o, ch, k);
    case Reviving =>
    case Recovering => RecoverKeepsOrphan(c, w, o, ch, k);
    case Failing => FailKeepsOrphan(c, w, o, ch, stamp, k);
    case Closing =>
  }

  lemma SuspendKeepsOrphan(w: World, o: Op, ch: Choice, k: nat)
    requires NotYet(w, o, k) && SectionOf(o.pc).Suspending?
    ensures var (w', o') := SuspendStep(w, o, ch); NotYet(w', o', k)
  {
  }

  lemma RecoverKeepsOrphan(c: Config, w: World, o: Op, ch: Choice, k: nat)
    requires NotYet(w, o, k) && SectionOf(o.pc).Recovering?
    ensures var (w', o') := RecoverStep(c, w, o, ch); NotYet(w', o', k)
  {
  }

  lemma FailKeepsOrphan(c: Config, w: World, o: Op, ch: Choice, stamp: nat, k: nat)
    requires NotYet(w, o, k) && SectionOf(o.pc).Failing?
    ensures var (w', o') := FailStep(c, w, o, ch, stamp); NotYet(w', o', k)
  {
  }

  /** No archive is ever overwritten or removed. */
  lemma {:induction false} ArchivesAreKept(c: Config, s: State, es: seq<Event>, n: Name)
    requires n in s.w.disk.archives
    ensures var s' := Run(c, s, es); n in s'.w.disk.archives && s'.w.disk.archives[n] == s.w.disk.archives[n]
  {
    if es != [] {
      ArchivesAreKept(c, s, es[..|es| - 1], n);
      StepKeepsArchives(c, Run(c, s, es[..|es| - 1]), es[|es| - 1], n);
    }
  }

  lemma StepKeepsArchives(c: Config, s: State, e: Event, n: Name)
    requires n in s.w.disk.archives
    ensures var s' := Apply(c, s, e); n in s'.w.disk.archives && s'.w.disk.archives[n] == s.w.disk.archives[n]
  {
    match e {
      case Step(t, ch, stamp) =>
        if t in s.threads && !MovesImage(s.threads[t].pc) {
          BodyMovesNoImage(c, s.w, s.threads[t], ch, stamp);
        }
      case Inside(p, ee) => EngineLeavesLauncherState(c, s.w, p, ee);
      case _ =>
    }
  }
}
