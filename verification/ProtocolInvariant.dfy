/** The inductive invariant of the protocol and its lift to whole runs. */
module ProtocolInvariant {
  import opened Protocol

  // ----- Exclusion and start-up ----------------------------------------------------------------------------

  /** The lock is held exactly while some thread is inside a body, and never by two. */
  ghost predicate Exclusive(s: State) {
    && (s.lock <==> s.threads != map[])
    && (forall t, u :: t in s.threads && u in s.threads ==> t == u)
  }

  ghost predicate BootOrdered(s: State) {
    && (s.boot in {BUnlinkMarker, BUnlinkStatus, BDecide, BStart} ==> s.threads == map[])
    && (s.boot in {BUnlinkMarker, BUnlinkStatus, BDecide} ==> Deserted(s.w))
  }

  lemma EngineKeepsDeserted(c: Config, w: World, p: nat, e: EngineEvent)
    requires Deserted(w)
    ensures EngineStep(c, w, p, e) == w
  {
  }

  lemma ExclusiveKept(c: Config, s: State, e: Event)
    requires Exclusive(s) && BootOrdered(s)
    ensures Exclusive(Apply(c, s, e)) && BootOrdered(Apply(c, s, e))
  {
    var s' := Apply(c, s, e);
    match e {
      case Step(t, _, _) =>
        if t in s.threads {
          assert s.threads.Keys == {t};
          assert s.threads - {t} == map[];
          assert s'.threads == map[] || t in s'.threads;
        }
      case Begin(t, _) => assert s'.lock && !s.lock ==> t in s'.threads;
      case BootStep(_) => assert s.boot.BDecide? && s'.lock ==> MAIN in s'.threads;
      case Inside(p, ee) =>
        if Deserted(s.w) { EngineKeepsDeserted(c, s.w, p, ee); }
      case _ =>
    }
  }

  // ----- Control: what the program counter says about the world ---------------------------------------------

  /** Inside `restore_vllm`, past `cuda.restore_if_needed`. */
  predicate InWindow(o: Op) {
    && o.past.cudaDone
    && match o.pc
       case RReady | RWait | RAdopt | RConsume | RFinish | FTerminate | FUnlinkMarker | FGiveUp | ZMarker => true
       case _ => false
  }

  predicate InTry(o: Op) { SectionOf(o.pc).Reviving? || SectionOf(o.pc).Recovering? }

  /** How far the operation is past the CUDA restore; the marker exists only then. */
  predicate CudaOrdered(w: World, o: Op) {
    && (match SectionOf(o.pc)
        case Suspending => !o.past.cudaDone
        case Reviving => !o.past.cudaDone
        case Recovering => o.past.cudaDone
        case Failing => true
        case Closing => o.outcome.Restored? ==> o.past.cudaDone)
    && (o.past.cudaDone ==> o.past.epoch == w.past.epoch)
    && (w.disk.marker ==> InWindow(o))
    && (o.pc in {RCriu, RCuda, RTouch, RReady, RWait, RAdopt, RConsume, RFinish} ==> w.disk.pending)
    && (o.pc.ZRelease? ==> !w.disk.pending)
  }

  /** Where `restored` points, and what the slot holds. */
  predicate Placed(w: World, o: Op) {
    match o.pc
    case SCheck => true
    case SWork | SDump => !w.disk.slot.Holds?
    case SRmdir => !w.disk.slot.Holds? && o.image < |w.images| && o.image !in w.past.published
    case SRename => w.disk.slot.Absent? && o.image < |w.images| && o.image !in w.past.published
    case RCheck => |w.engines| == o.past.base && o.restored == -1 && w.disk.slot == o.past.slot0
    case RUnlinkMarker | RUnlinkPending | RUnlinkStatus | RAnnounce | RPend | RCriu =>
      |w.engines| == o.past.base && o.restored == -1 && w.disk.slot == o.past.slot0 && o.past.slot0.Holds?
    case RCuda | RTouch | RReady | RWait | RAdopt | RConsume =>
      |w.engines| == o.past.base + 1 && o.restored == o.past.base && w.disk.slot == o.past.slot0 && o.past.slot0.Holds?
    case RFinish => |w.engines| == o.past.base + 1 && o.restored == o.past.base
    case _ => true
  }

  predicate ModeFits(w: World, o: Op) {
    && (o.outcome.Undecided? <==> !SectionOf(o.pc).Closing?)
    && match o.pc
       case SDump | SRmdir | SRename | SFinish => w.mode in {Checkpointing, Failed, Stopped}
       case SFail => !w.mode.Restoring?
       case SCheck | SWork | SRelease => !w.mode.Restoring? && (w.mode.Checkpointing? ==> w.past.stranded)
       case RPend | RCriu | RCuda | RTouch | RReady | RWait | RAdopt | RConsume | RFinish =>
         w.mode in {Restoring, Failed, Stopped}
       case FReady => w.mode in {Running, Failed, Stopped}
       case ZMarker | ZPending | ZRelease =>
         w.mode in {Failed, Stopped} || (if o.outcome.Raised? then w.mode.Checkpointed? else w.mode.Running?)
       case _ => w.mode.Checkpointing? ==> w.past.stranded
  }

  ghost predicate Controlled(w: World, o: Op) { CudaOrdered(w, o) && Placed(w, o) && ModeFits(w, o) }

  lemma SuspendKeepsControl(w: World, o: Op, ch: Choice)
    requires Controlled(w, o) && SectionOf(o.pc).Suspending? && (forall k :: k in w.past.published ==> k < |w.images|)
    ensures var (w', o') := SuspendStep(w, o, ch); !o.pc.SRelease? ==> Controlled(w', o')
  {
  }

  lemma ReviveKeepsControl(w: World, o: Op, ch: Choice)
    requires Controlled(w, o) && SectionOf(o.pc).Reviving?
    ensures var (w', o') := ReviveStep(w, o, ch); Controlled(w', o')
  {
  }

  lemma RecoverKeepsControl(c: Config, w: World, o: Op, ch: Choice)
    requires Controlled(w, o) && SectionOf(o.pc).Recovering?
    ensures var (w', o') := RecoverStep(c, w, o, ch); Controlled(w', o')
  {
  }

  lemma FailKeepsControl(c: Config, w: World, o: Op, ch: Choice, stamp: nat)
    requires Controlled(w, o) && SectionOf(o.pc).Failing?
    ensures var (w', o') := FailStep(c, w, o, ch, stamp); Controlled(w', o')
  {
  }

  lemma CloseKeepsControl(w: World, o: Op)
    requires Controlled(w, o) && SectionOf(o.pc).Closing?
    ensures var (w', o') := CloseStep(w, o); Controlled(w', o')
  {
  }

  lemma EngineLeavesLauncherState(c: Config, w: World, p: nat, e: EngineEvent)
    ensures var w' := EngineStep(c, w, p, e);
      && w' == w.(disk := w.disk.(status := w'.disk.status), engines := w'.engines, past := w.past.(doneBy := w'.past.doneBy))
      && |w'.engines| == |w.engines|
  {
  }

  /** The four statements of the launcher that start or end a process. */
  predicate Spawning(pc: Pc) { pc.SDump? || pc.RCriu? || pc.FTerminate? || pc.FStart? }

  /** Between statements that start or end a process. */
  predicate LeavesEngines(pc: Pc, w: World, w': World) {
    && w'.past.doneBy == w.past.doneBy
    && (w'.disk.status == w.disk.status || w'.disk.status.NoStatus?)
    && w.past.epoch <= w'.past.epoch
    && (!Spawning(pc) ==> w'.engines == w.engines && w'.images == w.images)
  }

  lemma BodyLeavesEngines(c: Config, w: World, o: Op, ch: Choice, stamp: nat)
    ensures LeavesEngines(o.pc, w, BodyStep(c, w, o, ch, stamp).0)
  {
    match SectionOf(o.pc)
    case Suspending => SuspendLeavesEngines(w, o, ch);
    case Reviving => ReviveLeavesEngines(w, o, ch);
    case Recovering => RecoverLeavesEngines(c, w, o, ch);
    case Failing => FailLeavesEngines(c, w, o, ch, stamp);
    case Closing =>
  }

  lemma SuspendLeavesEngines(w: World, o: Op, ch: Choice)
    requires SectionOf(o.pc).Suspending?
    ensures LeavesEngines(o.pc, w, SuspendStep(w, o, ch).0)
  {
  }

  lemma ReviveLeavesEngines(w: World, o: Op, ch: Choice)
    requires SectionOf(o.pc).Reviving?
    ensures LeavesEngines(o.pc, w, ReviveStep(w, o, ch).0)
  {
  }

  lemma RecoverLeavesEngines(c: Config, w: World, o: Op, ch: Choice)
    requires SectionOf(o.pc).Recovering?
    ensures LeavesEngines(o.pc, w, RecoverStep(c, w, o, ch).0)
  {
  }

  lemma FailLeavesEngines(c: Config, w: World, o: Op, ch: Choice, stamp: nat)
    requires SectionOf(o.pc).Failing?
    ensures LeavesEngines(o.pc, w, FailStep(c, w, o, ch, stamp).0)
  {
  }

  // ----- Attempts and the status file ----------------------------------------------------------------------

  ghost predicate AllSound(c: Config, w: World) {
    && (forall p :: 0 <= p < |w.engines| ==> Sound(c, w.engines[p], w.past.epoch))
    && (forall k :: 0 <= k < |w.images| ==> Sound(c, w.images[k], w.past.epoch))
  }

  predicate FullyRun(c: Config, a: Attempt) { !a.Mid() && |a.log| == |c.Plan()| }

  predicate IsAttempt(w: World, a: Witness) {
    a.engine < |w.engines| && a.attempt < |w.engines[a.engine].attempts|
  }

  function AttemptAt(w: World, a: Witness): Attempt
    requires IsAttempt(w, a)
  {
    w.engines[a.engine].attempts[a.attempt]
  }

  ghost predicate DoneOwned(c: Config, w: World) {
    w.disk.status.DoneText? ==> IsAttempt(w, w.past.doneBy) && FullyRun(c, AttemptAt(w, w.past.doneBy))
  }

  /** Attempts that are over stay as they are, and no process comes back to life. */
  ghost predicate Settled(w: World, w': World) {
    && |w.engines| <= |w'.engines|
    && (forall p :: 0 <= p < |w.engines| && w'.engines[p].alive ==> w.engines[p].alive)
    && forall a: Witness :: IsAttempt(w, a) && !AttemptAt(w, a).Mid() ==>
         IsAttempt(w', a) && !AttemptAt(w', a).Mid() && AttemptAt(w', a).log == AttemptAt(w, a).log
  }

  lemma EngineSettles(c: Config, w: World, p: nat, e: EngineEvent)
    ensures Settled(w, EngineStep(c, w, p, e))
  {
    forall a: Witness | IsAttempt(w, a) && !AttemptAt(w, a).Mid()
      ensures var w' := EngineStep(c, w, p, e);
              IsAttempt(w', a) && !AttemptAt(w', a).Mid() && AttemptAt(w', a).log == AttemptAt(w, a).log
    {
      OverStaysOver(c, w, p, e, a);
    }
  }

  lemma OverStaysOver(c: Config, w: World, p: nat, e: EngineEvent, a: Witness)
    requires IsAttempt(w, a) && !AttemptAt(w, a).Mid()
    ensures var w' := EngineStep(c, w, p, e);
            IsAttempt(w', a) && !AttemptAt(w', a).Mid() && AttemptAt(w', a).log == AttemptAt(w, a).log
  {
  }

  lemma BodySettles(c: Config, w: World, o: Op, ch: Choice, stamp: nat)
    ensures Settled(w, BodyStep(c, w, o, ch, stamp).0)
  {
    BodyLeavesEngines(c, w, o, ch, stamp);
  }

  lemma EngineKeepsSound(c: Config, w: World, p: nat, e: EngineEvent)
    requires AllSound(c, w)
    ensures AllSound(c, EngineStep(c, w, p, e))
  {
    EngineLeavesLauncherState(c, w, p, e);
    if Live(w, p) {
      EngineLeavesOthers(c, w, p, e);
      StaysSound(c, w, p, e);
    }
  }

  lemma EngineLeavesOthers(c: Config, w: World, p: nat, e: EngineEvent)
    requires Live(w, p)
    ensures var w' := EngineStep(c, w, p, e); p < |w'.engines| && w'.engines == w.engines[p := w'.engines[p]]
  {
  }

  lemma StaysSound(c: Config, w: World, p: nat, e: EngineEvent)
    requires Live(w, p) && Sound(c, w.engines[p], w.past.epoch)
    ensures var w' := EngineStep(c, w, p, e); p < |w'.engines| && Sound(c, w'.engines[p], w.past.epoch)
  {
    var w' := EngineStep(c, w, p, e);
    forall i | 0 <= i < |w'.engines[p].attempts| ensures SoundAttempt(c, w'.engines[p].attempts[i], w.past.epoch) {
      assert i < |w.engines[p].attempts| ==> SoundAttempt(c, w.engines[p].attempts[i], w.past.epoch);
      AttemptStaysSound(c, w, p, e, i);
    }
  }

  lemma AttemptStaysSound(c: Config, w: World, p: nat, e: EngineEvent, i: nat)
    requires Live(w, p) && (i < |w.engines[p].attempts| ==> SoundAttempt(c, w.engines[p].attempts[i], w.past.epoch))
    ensures var w' := EngineStep(c, w, p, e);
            i < |w'.engines[p].attempts| ==> SoundAttempt(c, w'.engines[p].attempts[i], w.past.epoch)
  {
    if e.RunStage? && Has(w.engines[p], i, Working) && |w.engines[p].attempts[i].log| < |c.Plan()| {
      OneStageMore(c, w.engines[p].attempts[i], w.past.epoch);
    }
  }

  lemma OneStageMore(c: Config, a: Attempt, epoch: nat)
    requires SoundAttempt(c, a, epoch) && a.pc.Working? && |a.log| < |c.Plan()|
    ensures SoundAttempt(c, a.(log := a.log + [Entry(c.Plan()[|a.log|], epoch)]), epoch)
  {
  }

  lemma BodyKeepsSound(c: Config, w: World, o: Op, ch: Choice, stamp: nat)
    requires AllSound(c, w)
    ensures AllSound(c, BodyStep(c, w, o, ch, stamp).0)
  {
    var w' := BodyStep(c, w, o, ch, stamp).0;
    BodyLeavesEngines(c, w, o, ch, stamp);
    forall k | 0 <= k < |w'.images| ensures Sound(c, w'.images[k], w'.past.epoch) {
      var was := if k < |w.images| then w.images[k] else w.engines[w.vllm];
      assert Sound(c, was, w.past.epoch) && w'.images[k].attempts == was.attempts;
      SoundLater(c, was, w'.images[k], w.past.epoch, w'.past.epoch);
    }
    forall p | 0 <= p < |w'.engines| ensures Sound(c, w'.engines[p], w'.past.epoch) {
      if p < |w.engines| {
        assert Sound(c, w.engines[p], w.past.epoch) && w'.engines[p].attempts == w.engines[p].attempts;
        SoundLater(c, w.engines[p], w'.engines[p], w.past.epoch, w'.past.epoch);
      } else if o.pc.RCriu? {
        assert Sound(c, w.images[w.disk.slot.img], w.past.epoch);
      }
    }
  }

  lemma SoundLater(c: Config, g: Engine, g': Engine, epoch: nat, later: nat)
    requires Sound(c, g, epoch) && epoch <= later && g'.attempts == g.attempts
    ensures Sound(c, g', later)
  {
    forall i | 0 <= i < |g.attempts| ensures SoundAttempt(c, g'.attempts[i], later) {
      assert SoundAttempt(c, g.attempts[i], epoch);
    }
  }

  lemma EngineKeepsDone(c: Config, w: World, p: nat, e: EngineEvent)
    requires DoneOwned(c, w)
    ensures DoneOwned(c, EngineStep(c, w, p, e))
  {
  }

  lemma BodyKeepsDone(c: Config, w: World, o: Op, ch: Choice, stamp: nat)
    requires DoneOwned(c, w)
    ensures DoneOwned(c, BodyStep(c, w, o, ch, stamp).0)
  {
    BodyLeavesEngines(c, w, o, ch, stamp);
    BodySettles(c, w, o, ch, stamp);
  }

  // ----- What one restore may conclude from the status file -------------------------------------------------

  predicate AllAt(a: Attempt, epoch: nat) { forall j :: 0 <= j < |a.log| ==> a.log[j].epoch == epoch }

  /** The status file of earlier operations is gone. */
  predicate Cleared(pc: Pc) {
    match pc
    case RAnnounce | RPend | RCriu | RCuda | RTouch | RReady | RWait => true
    case _ => false
  }

  /** If the operation started clean, every attempt under way ran all its stages since the CUDA restore of this
      operation, and so did the one that wrote `done`. */
  ghost predicate Undisturbed(w: World, o: Op) {
    o.past.clean && InTry(o) ==>
      && (forall a: Witness :: IsAttempt(w, a) && w.engines[a.engine].alive && AttemptAt(w, a).Mid() ==>
            o.past.cudaDone && AllAt(AttemptAt(w, a), w.past.epoch))
      && (SectionOf(o.pc).Reviving? && w.disk.slot.Holds? && w.disk.slot.img < |w.images| ==>
            !w.images[w.disk.slot.img].HasMid())
      && (Cleared(o.pc) && w.disk.status.DoneText? ==>
            o.past.cudaDone && IsAttempt(w, w.past.doneBy) && AllAt(AttemptAt(w, w.past.doneBy), w.past.epoch))
  }

  lemma EngineKeepsUndisturbed(c: Config, w: World, o: Op, p: nat, e: EngineEvent)
    requires Undisturbed(w, o) && CudaOrdered(w, o)
    ensures Undisturbed(EngineStep(c, w, p, e), o)
  {
    var w' := EngineStep(c, w, p, e);
    EngineLeavesLauncherState(c, w, p, e);
    if o.past.clean && InTry(o) {
      forall a: Witness | IsAttempt(w', a) && w'.engines[a.engine].alive && AttemptAt(w', a).Mid()
        ensures o.past.cudaDone && AllAt(AttemptAt(w', a), w.past.epoch)
      {
        MidStaysFresh(c, w, o.past.cudaDone, p, e, a);
      }
      if Cleared(o.pc) {
        DoneStaysFresh(c, w, o.past.cudaDone, p, e);
      }
    }
  }

  /** Attempt `a`, if under way in a live process, logged only since the last CUDA restore. */
  predicate FreshIfMid(w: World, cudaDone: bool, a: Witness) {
    IsAttempt(w, a) && w.engines[a.engine].alive && AttemptAt(w, a).Mid() ==> cudaDone && AllAt(AttemptAt(w, a), w.past.epoch)
  }

  predicate FreshIfDone(w: World, cudaDone: bool) {
    w.disk.status.DoneText? ==>
      cudaDone && IsAttempt(w, w.past.doneBy) && AllAt(AttemptAt(w, w.past.doneBy), w.past.epoch)
  }

  lemma MidStaysFresh(c: Config, w: World, cudaDone: bool, p: nat, e: EngineEvent, a: Witness)
    requires FreshIfMid(w, cudaDone, a) && (w.disk.marker ==> cudaDone)
    ensures FreshIfMid(EngineStep(c, w, p, e), cudaDone, a)
  {
  }

  lemma DoneStaysFresh(c: Config, w: World, cudaDone: bool, p: nat, e: EngineEvent)
    requires FreshIfDone(w, cudaDone) && (forall a :: FreshIfMid(w, cudaDone, a))
    ensures FreshIfDone(EngineStep(c, w, p, e), cudaDone)
  {
    if e.Announce? {
      assert FreshIfMid(w, cudaDone, Witness(p, e.i));
    }
    assert FreshIfMid(w, cudaDone, w.past.doneBy);
  }

  lemma BodyKeepsUndisturbed(c: Config, w: World, o: Op, ch: Choice, stamp: nat)
    requires Undisturbed(w, o) && CudaOrdered(w, o) && Placed(w, o)
    ensures var (w', o') := BodyStep(c, w, o, ch, stamp); Undisturbed(w', o')
  {
    match SectionOf(o.pc) {
      case Reviving => ReviveKeepsUndisturbed(w, o, ch);
      case Recovering => RecoverKeepsUndisturbed(c, w, o, ch);
      case _ => NoWayBack(c, w, o, ch, stamp);
    }
  }

  /** No step leads from the end of an operation, or from a suspend, into the try block of a restore. */
  lemma NoWayBack(c: Config, w: World, o: Op, ch: Choice, stamp: nat)
    requires !InTry(o)
    ensures !InTry(BodyStep(c, w, o, ch, stamp).1)
  {
  }

  lemma RecoverKeepsUndisturbed(c: Config, w: World, o: Op, ch: Choice)
    requires Undisturbed(w, o) && CudaOrdered(w, o) && SectionOf(o.pc).Recovering?
    ensures var (w', o') := RecoverStep(c, w, o, ch); Undisturbed(w', o')
  {
    var (w', o') := RecoverStep(c, w, o, ch);
    assert w'.engines == w.engines && w'.past.epoch == w.past.epoch && w'.past.doneBy == w.past.doneBy;
    assert w'.disk.status == w.disk.status && (Cleared(o'.pc) ==> Cleared(o.pc));
  }

  lemma ReviveKeepsUndisturbed(w: World, o: Op, ch: Choice)
    requires Undisturbed(w, o) && CudaOrdered(w, o) && SectionOf(o.pc).Reviving?
    ensures var (w', o') := ReviveStep(w, o, ch); Undisturbed(w', o')
  {
    var (w', o') := ReviveStep(w, o, ch);
    if o.past.clean && InTry(o') {
      forall a: Witness | IsAttempt(w', a) && w'.engines[a.engine].alive ensures !AttemptAt(w', a).Mid() {
        if a.engine < |w.engines| {
          assert IsAttempt(w, a) && AttemptAt(w', a) == AttemptAt(w, a);
        } else {
          assert AttemptAt(w', a) == w.images[w.disk.slot.img].attempts[a.attempt];
        }
      }
    }
  }

  predicate Verified(o: Op) { o.pc.RAdopt? || o.pc.RConsume? || o.pc.RFinish? || o.outcome.Restored? }

  /** An operation past its wait saw a `done` written after a complete attempt, in the process it restored or in
      one that was there before. */
  ghost predicate Witnessed(c: Config, w: World, o: Op) {
    Verified(o) && c.sleepLevel != 0 ==>
      && IsAttempt(w, o.past.seen) && FullyRun(c, AttemptAt(w, o.past.seen))
      && o.past.seen.engine <= o.past.base == o.restored
      && (o.past.clean ==> AllAt(AttemptAt(w, o.past.seen), o.past.epoch))
  }

  lemma SettledKeepsWitness(c: Config, w: World, w': World, o: Op)
    requires Witnessed(c, w, o) && Settled(w, w')
    ensures Witnessed(c, w', o)
  {
  }

  lemma BodyKeepsWitness(c: Config, w: World, o: Op, ch: Choice, stamp: nat)
    requires Witnessed(c, w, o) && Undisturbed(w, o) && Controlled(w, o) && DoneOwned(c, w)
    ensures var (w', o') := BodyStep(c, w, o, ch, stamp); Witnessed(c, w', o')
  {
    var (w', o') := BodyStep(c, w, o, ch, stamp);
    BodySettles(c, w, o, ch, stamp);
    if o.pc.RWait? {
      assert w' == w;
    } else {
      SettledKeepsWitness(c, w, w', o);
      if c.sleepLevel != 0 {
        VerifiedOnlyByWaiting(c, w, o, ch, stamp);
      }
    }
  }

  lemma VerifiedOnlyByWaiting(c: Config, w: World, o: Op, ch: Choice, stamp: nat)
    requires c.sleepLevel != 0 && !o.pc.RWait? && ModeFits(w, o)
    ensures var o' := BodyStep(c, w, o, ch, stamp).1;
      Verified(o') ==> Verified(o) && o'.past == o.past && o'.restored == o.restored
  {
  }

  /** An operation that started without a rival can only have read the answer of the process it restored. */
  ghost predicate Solitary(c: Config, w: World, o: Op) {
    o.past.alone && c.sleepLevel != 0 ==>
      && (InTry(o) ==>
            && (forall p :: 0 <= p < |w.engines| && w.engines[p].alive && w.engines[p].CanAnswer() ==> p == o.past.base)
            && (Cleared(o.pc) && w.disk.status.DoneText? ==> w.past.doneBy.engine == o.past.base))
      && (Verified(o) ==> o.past.seen.engine == o.past.base)
  }

  lemma EngineKeepsSolitary(c: Config, w: World, o: Op, p: nat, e: EngineEvent)
    requires Solitary(c, w, o)
    ensures Solitary(c, EngineStep(c, w, p, e), o)
  {
    EngineLeavesLauncherState(c, w, p, e);
  }

  lemma BodyKeepsSolitary(c: Config, w: World, o: Op, ch: Choice, stamp: nat)
    requires Solitary(c, w, o) && Controlled(w, o)
    ensures var (w', o') := BodyStep(c, w, o, ch, stamp); Solitary(c, w', o')
  {
    match SectionOf(o.pc) {
      case Reviving => ReviveKeepsSolitary(c, w, o, ch);
      case Recovering => RecoverKeepsSolitary(c, w, o, ch);
      case _ =>
        NoWayBack(c, w, o, ch, stamp);
        if c.sleepLevel != 0 { VerifiedOnlyByWaiting(c, w, o, ch, stamp); }
        PastIsFixed(c, w, o, ch, stamp);
    }
  }

  lemma PastIsFixed(c: Config, w: World, o: Op, ch: Choice, stamp: nat)
    requires !InTry(o)
    ensures BodyStep(c, w, o, ch, stamp).1.past == o.past
  {
  }

  lemma ReviveKeepsSolitary(c: Config, w: World, o: Op, ch: Choice)
    requires Solitary(c, w, o) && Controlled(w, o) && SectionOf(o.pc).Reviving?
    ensures var (w', o') := ReviveStep(w, o, ch); Solitary(c, w', o')
  {
  }

  lemma RecoverKeepsSolitary(c: Config, w: World, o: Op, ch: Choice)
    requires Solitary(c, w, o) && SectionOf(o.pc).Recovering?
    ensures var (w', o') := RecoverStep(c, w, o, ch); Solitary(c, w', o')
  {
  }

  // ----- Why an image taken after a recovery cannot be recovered again ------------------------------------

  /** The operation restores an image of a process that can write `done` no more, and had no rival. */
  predicate Spent(w: World, o: Op) {
    && o.past.alone && o.past.slot0.Holds? && o.past.slot0.img < |w.images|
    && !w.images[o.past.slot0.img].CanAnswer()
  }

  ghost predicate Barren(c: Config, w: World, o: Op) {
    Spent(w, o) && c.sleepLevel != 0 ==>
      && !Verified(o)
      && (InTry(o) ==>
            && NoRival(w)
            && (Cleared(o.pc) ==> !w.disk.status.DoneText?))
  }

  lemma EngineKeepsBarren(c: Config, w: World, o: Op, p: nat, e: EngineEvent)
    requires Barren(c, w, o)
    ensures Barren(c, EngineStep(c, w, p, e), o)
  {
    EngineLeavesLauncherState(c, w, p, e);
    if Spent(w, o) && c.sleepLevel != 0 && InTry(o) && Live(w, p) {
      assert forall i :: 0 <= i < |w.engines[p].attempts| ==> !w.engines[p].attempts[i].Mid();
    }
  }

  lemma BodyKeepsBarren(c: Config, w: World, o: Op, ch: Choice, stamp: nat)
    requires Barren(c, w, o) && Undisturbed(w, o) && Controlled(w, o)
    requires o.past.slot0.Holds? ==> o.past.slot0.img < |w.images|
    ensures var (w', o') := BodyStep(c, w, o, ch, stamp); Barren(c, w', o')
  {
    var (w', o') := BodyStep(c, w, o, ch, stamp);
    if Spent(w', o') && c.sleepLevel != 0 {
      match SectionOf(o.pc) {
        case Reviving => ReviveKeepsBarren(c, w, o, ch);
        case Recovering => RecoverKeepsBarren(c, w, o, ch);
        case _ =>
          NoWayBack(c, w, o, ch, stamp);
          VerifiedOnlyByWaiting(c, w, o, ch, stamp);
          assert o'.past == o.past;
      }
    }
  }

  lemma ReviveKeepsBarren(c: Config, w: World, o: Op, ch: Choice)
    requires Barren(c, w, o) && Undisturbed(w, o) && Controlled(w, o) && SectionOf(o.pc).Reviving?
    ensures var (w', o') := ReviveStep(w, o, ch); Barren(c, w', o')
  {
  }

  lemma RecoverKeepsBarren(c: Config, w: World, o: Op, ch: Choice)
    requires Barren(c, w, o) && SectionOf(o.pc).Recovering?
    ensures var (w', o') := RecoverStep(c, w, o, ch); Barren(c, w', o')
  {
  }

  // ----- Where every image is -------------------------------------------------------------------------------

  /** Each image ever put into the slot is in exactly one place: used up, under one archive name, or in the slot. */
  ghost predicate Ledger(w: World) {
    && w.past.published == w.past.consumed + w.disk.archives.Values + InSlot(w)
    && w.past.consumed !! w.disk.archives.Values !! InSlot(w)
    && Injective(w.disk.archives)
    && (forall k :: k in w.past.published ==> k < |w.images|)
  }

  lemma ArchiveKeepsLedger(w: World, stamp: nat)
    requires Ledger(w)
    ensures Ledger(Archive(w, stamp))
  {
    if w.disk.slot.Holds? {
      var name := FirstFree(w.disk.archives, stamp);
      assert name !in w.disk.archives;
      var archives := w.disk.archives[name := w.disk.slot.img];
      assert archives.Values == w.disk.archives.Values + {w.disk.slot.img} by {
        assert archives[name] == w.disk.slot.img;
        assert forall n :: n in w.disk.archives ==> archives[n] == w.disk.archives[n];
      }
    }
  }

  lemma BodyKeepsLedger(c: Config, w: World, o: Op, ch: Choice, stamp: nat)
    requires Ledger(w) && Placed(w, o)
    ensures Ledger(BodyStep(c, w, o, ch, stamp).0)
  {
    if o.pc.FArchive? {
      ArchiveKeepsLedger(w, stamp);
    } else if !MovesImage(o.pc) {
      BodyMovesNoImage(c, w, o, ch, stamp);
    }
  }

  predicate MovesImage(pc: Pc) { pc.SRmdir? || pc.SRename? || pc.RConsume? || pc.FArchive? }

  predicate LeavesImages(w: World, w': World) {
    && w'.past.published == w.past.published && w'.past.consumed == w.past.consumed
    && w'.disk.archives == w.disk.archives && w'.disk.slot == w.disk.slot && |w.images| <= |w'.images|
  }

  lemma BodyMovesNoImage(c: Config, w: World, o: Op, ch: Choice, stamp: nat)
    requires !MovesImage(o.pc)
    ensures LeavesImages(w, BodyStep(c, w, o, ch, stamp).0)
  {
    match SectionOf(o.pc)
    case Suspending => SuspendMovesNoImage(w, o, ch);
    case Reviving => ReviveMovesNoImage(w, o, ch);
    case Recovering => RecoverMovesNoImage(c, w, o, ch);
    case Failing => FailMovesNoImage(c, w, o, ch, stamp);
    case Closing =>
  }

  lemma SuspendMovesNoImage(w: World, o: Op, ch: Choice)
    requires SectionOf(o.pc).Suspending? && !MovesImage(o.pc)
    ensures LeavesImages(w, SuspendStep(w, o, ch).0)
  {
  }

  lemma ReviveMovesNoImage(w: World, o: Op, ch: Choice)
    requires SectionOf(o.pc).Reviving?
    ensures LeavesImages(w, ReviveStep(w, o, ch).0)
  {
  }

  lemma RecoverMovesNoImage(c: Config, w: World, o: Op, ch: Choice)
    requires SectionOf(o.pc).Recovering? && !MovesImage(o.pc)
    ensures LeavesImages(w, RecoverStep(c, w, o, ch).0)
  {
  }

  lemma FailMovesNoImage(c: Config, w: World, o: Op, ch: Choice, stamp: nat)
    requires SectionOf(o.pc).Failing? && !MovesImage(o.pc)
    ensures LeavesImages(w, FailStep(c, w, o, ch, stamp).0)
  {
  }

  // ----- The invariant --------------------------------------------------------------------------------------

  ghost predicate OpInv(c: Config, w: World, o: Op) {
    && Controlled(w, o) && Undisturbed(w, o) && Witnessed(c, w, o) && Solitary(c, w, o) && Barren(c, w, o)
    && (o.past.slot0.Holds? ==> o.past.slot0.img < |w.images|)
  }

  ghost predicate WorldInv(c: Config, s: State) {
    && AllSound(c, s.w) && Ledger(s.w)
    && (s.boot !in {BUnlinkMarker, BUnlinkStatus} ==> DoneOwned(c, s.w))
    && (s.threads == map[] ==>
          && (s.w.disk.marker ==> s.boot.BUnlinkMarker?)
          && !s.w.mode.Restoring? && (s.w.mode.Checkpointing? ==> s.w.past.stranded))
    && (s.w.past.stranded ==> s.w.mode.Checkpointing?)
  }

  ghost predicate Inv(c: Config, s: State) {
    && Exclusive(s) && BootOrdered(s) && WorldInv(c, s)
    && (forall t :: t in s.threads ==> OpInv(c, s.w, s.threads[t]))
  }

  lemma EntryKeepsInv(c: Config, w: World, kind: Kind)
    requires AllSound(c, w) && Ledger(w) && !w.disk.marker && !w.mode.Restoring?
    requires w.mode.Checkpointing? ==> w.past.stranded
    ensures OpInv(c, w, NewOp(w, kind))
  {
  }

  lemma OpKept(c: Config, w: World, o: Op, ch: Choice, stamp: nat)
    requires OpInv(c, w, o) && AllSound(c, w) && Ledger(w) && DoneOwned(c, w) && !o.pc.SRelease? && !o.pc.ZRelease?
    ensures var (w', o') := BodyStep(c, w, o, ch, stamp);
      OpInv(c, w', o') && AllSound(c, w') && Ledger(w') && DoneOwned(c, w')
  {
    var (w', o') := BodyStep(c, w, o, ch, stamp);
    BodyKeepsSound(c, w, o, ch, stamp);
    BodyKeepsLedger(c, w, o, ch, stamp);
    BodyKeepsDone(c, w, o, ch, stamp);
    BodyKeepsUndisturbed(c, w, o, ch, stamp);
    BodyKeepsWitness(c, w, o, ch, stamp);
    BodyKeepsSolitary(c, w, o, ch, stamp);
    BodyKeepsBarren(c, w, o, ch, stamp);
    BodyGrowsImages(c, w, o, ch, stamp);
    assert Controlled(w', o') by {
      match SectionOf(o.pc) {
        case Suspending => SuspendKeepsControl(w, o, ch);
        case Reviving => ReviveKeepsControl(w, o, ch);
        case Recovering => RecoverKeepsControl(c, w, o, ch);
        case Failing => FailKeepsControl(c, w, o, ch, stamp);
        case Closing => CloseKeepsControl(w, o);
      }
    }
  }

  lemma BodyGrowsImages(c: Config, w: World, o: Op, ch: Choice, stamp: nat)
    ensures var (w', o') := BodyStep(c, w, o, ch, stamp);
      |w.images| <= |w'.images| && o'.past.slot0 == o.past.slot0
  {
  }

  lemma EngineKeepsOp(c: Config, w: World, o: Op, p: nat, e: EngineEvent)
    requires OpInv(c, w, o)
    ensures OpInv(c, EngineStep(c, w, p, e), o)
  {
    EngineLeavesLauncherState(c, w, p, e);
    EngineKeepsUndisturbed(c, w, o, p, e);
    EngineKeepsSolitary(c, w, o, p, e);
    EngineKeepsBarren(c, w, o, p, e);
    EngineSettles(c, w, p, e);
    SettledKeepsWitness(c, w, EngineStep(c, w, p, e), o);
  }

  lemma ReaperKeepsOp(c: Config, w: World, o: Op, code: bool)
    requires OpInv(c, w, o)
    ensures OpInv(c, WithMode(w, if code then Failed else Stopped), o)
  {
  }

  lemma ThreadKeepsInv(c: Config, s: State, t: nat, ch: Choice, stamp: nat)
    requires Inv(c, s) && t in s.threads
    ensures Inv(c, ThreadStep(c, s, t, ch, stamp))
  {
    ExclusiveKept(c, s, Step(t, ch, stamp));
    assert s.threads.Keys == {t};
    assert OpInv(c, s.w, s.threads[t]);
    if s.threads[t].pc in {SRelease, ZRelease} {
      assert ThreadStep(c, s, t, ch, stamp).threads == map[];
    } else {
      BodyKeepsInv(c, s, t, ch, stamp);
    }
  }

  lemma BodyKeepsInv(c: Config, s: State, t: nat, ch: Choice, stamp: nat)
    requires WorldInv(c, s) && s.threads.Keys == {t} && OpInv(c, s.w, s.threads[t])
    requires s.threads[t].pc !in {SRelease, ZRelease} && s.boot !in {BUnlinkMarker, BUnlinkStatus}
    ensures var s' := ThreadStep(c, s, t, ch, stamp); WorldInv(c, s') && s'.threads.Keys == {t} && OpInv(c, s'.w, s'.threads[t])
  {
    var (w', o') := BodyStep(c, s.w, s.threads[t], ch, stamp);
    OpKept(c, s.w, s.threads[t], ch, stamp);
    StrandedShows(c, s.w, s.threads[t], ch, stamp);
    BodyIsStep(c, s, t, ch, stamp, w', o');
  }

  lemma BodyIsStep(c: Config, s: State, t: nat, ch: Choice, stamp: nat, w': World, o': Op)
    requires s.threads.Keys == {t} && s.threads[t].pc !in {SRelease, ZRelease}
    requires (w', o') == BodyStep(c, s.w, s.threads[t], ch, stamp)
    ensures var s' := ThreadStep(c, s, t, ch, stamp);
            s' == s.(w := w', threads := s'.threads) && s'.threads.Keys == {t} && s'.threads[t] == o'
  {
  }

  lemma StrandedShows(c: Config, w: World, o: Op, ch: Choice, stamp: nat)
    requires w.past.stranded ==> w.mode.Checkpointing?
    ensures var w' := BodyStep(c, w, o, ch, stamp).0; w'.past.stranded ==> w'.mode.Checkpointing?
  {
  }

  lemma BootKeepsInv(c: Config, s: State, go: bool)
    requires Inv(c, s)
    ensures Inv(c, ApplyBoot(c, s, go))
  {
    ExclusiveKept(c, s, BootStep(go));
    var s' := ApplyBoot(c, s, go);
    match s.boot {
      case BDecide =>
        var w := WithMode(s.w, Checkpointed);
        assert s.threads == map[];
        if s'.lock { EntryKeepsInv(c, w, Resume); }
      case BStart => assert s.threads == map[]; CrashKeepsInv(c, s);
      case _ =>
    }
  }

  lemma CrashKeepsInv(c: Config, s: State)
    requires Inv(c, s)
    ensures Inv(c, ApplyCrash(s))
  {
    var s' := ApplyCrash(s);
    forall p | 0 <= p < |s'.w.engines| ensures Sound(c, s'.w.engines[p], s'.w.past.epoch) {
      assert Sound(c, s.w.engines[p], s.w.past.epoch);
      SoundLater(c, s.w.engines[p], s'.w.engines[p], s.w.past.epoch, s.w.past.epoch);
    }
  }

  lemma InsideKeepsInv(c: Config, s: State, p: nat, e: EngineEvent)
    requires Inv(c, s)
    ensures Inv(c, Apply(c, s, Inside(p, e)))
  {
    ExclusiveKept(c, s, Inside(p, e));
    EngineLeavesLauncherState(c, s.w, p, e);
    EngineKeepsSound(c, s.w, p, e);
    if Deserted(s.w) { EngineKeepsDeserted(c, s.w, p, e); }
    if DoneOwned(c, s.w) { EngineKeepsDone(c, s.w, p, e); }
    forall t | t in s.threads ensures OpInv(c, EngineStep(c, s.w, p, e), s.threads[t]) {
      EngineKeepsOp(c, s.w, s.threads[t], p, e);
    }
  }

  lemma InvKept(c: Config, s: State, e: Event)
    requires Inv(c, s)
    ensures Inv(c, Apply(c, s, e))
  {
    match e {
      case Crash => CrashKeepsInv(c, s);
      case BootStep(go) => BootKeepsInv(c, s, go);
      case Begin(t, kind) =>
        ExclusiveKept(c, s, e);
        if s.boot.Serving? && !s.lock { EntryKeepsInv(c, s.w, kind); }
      case Step(t, ch, stamp) => if t in s.threads { ThreadKeepsInv(c, s, t, ch, stamp); }
      case ReapRead(r) =>
      case ReapWrite(r, code) =>
        forall t | t in s.threads ensures OpInv(c, WithMode(s.w, if code then Failed else Stopped), s.threads[t]) {
          ReaperKeepsOp(c, s.w, s.threads[t], code);
        }
      case Inside(p, ee) => InsideKeepsInv(c, s, p, ee);
    }
  }

  lemma InitHolds(c: Config, s: State)
    requires Init(c, s)
    ensures Inv(c, s)
  {
  }

  /** The invariant holds in every state of every run. */
  lemma {:induction false} Invariant(c: Config, s: State, es: seq<Event>)
    requires Init(c, s)
    ensures Inv(c, Run(c, s, es))
  {
    if es == [] {
      InitHolds(c, s);
    } else {
      Invariant(c, s, es[..|es| - 1]);
      InvKept(c, Run(c, s, es[..|es| - 1]), es[|es| - 1]);
    }
  }
}
