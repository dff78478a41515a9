/** The launcher's two operations as imperative code.  Every statement that the protocol can see is also a step
    of `Protocol`, and between any two of them other threads and processes may move (`Yield`), so every theorem
    about runs of the protocol holds of these methods. */
module Launcher {
  import opened Commands
  import opened Protocol
  import opened ProtocolInvariant
  import opened Recording

  /** The local variable `staging_dir`. */
  datatype Staging = NoStaging | At(name: nat)

  /** How `checkpoint_vllm` ends.  `locked` and `checkpointed`: those CUDA commands had succeeded; `cleaned`: no
      staging directory is left; `rolledBack`: every rollback command was issued and succeeded. */
  datatype SuspendReply =
    | SuspendBusy
    | SuspendRefused
    | Suspended(image: nat)
    | SuspendFailed(locked: bool, checkpointed: bool, cleaned: bool, rolledBack: bool)

  predicate Gone(engines: seq<Engine>, p: int) { !(0 <= p < |engines| && engines[p].alive) }

  datatype ResumeReply = ResumeBusy | Resumed(pid: int) | FellBack(pid: int) | ResumeFailed

  /** What `set_state` is called with in `restore_vllm`, and how the operation then stands. */
  function RestoreMode(pc: Pc): Mode {
    match pc
    case RAnnounce => Restoring
    case FGiveUp => Checkpointed
    case _ => Running
  }

  function AfterSetState(o: Op): Op {
    match o.pc
    case RAnnounce => o.(pc := RPend)
    case FGiveUp => o.(pc := ZMarker, outcome := Raised)
    case FReady => o.(pc := ZMarker, outcome := Fallback)
    case _ => o.(pc := ZMarker, outcome := Restored)
  }

  lemma SetsMode(c: Config, w: World, o: Op)
    requires o.pc.RAnnounce? || o.pc.RFinish? || o.pc.FReady? || o.pc.FGiveUp?
    ensures BodyStep(c, w, o, Go, 0) == (WithMode(w, RestoreMode(o.pc)), AfterSetState(o))
  {
  }

  lemma StartsVllm(c: Config, w: World, o: Op)
    requires o.pc.FStart?
    ensures BodyStep(c, w, o, Go, 0) == (StartVllm(w), o.(pc := FReady))
  {
  }

  lemma UnlinksMarker(c: Config, w: World, o: Op)
    requires o.pc.RUnlinkMarker? || o.pc.FUnlinkMarker? || o.pc.ZMarker?
    ensures BodyStep(c, w, o, Go, 0) == (WithMarker(w, false), o.(pc := AfterUnlink(o.pc)))
  {
  }

  lemma UnlinksPending(c: Config, w: World, o: Op)
    requires o.pc.RUnlinkPending? || o.pc.ZPending?
    ensures BodyStep(c, w, o, Go, 0) == (WithPending(w, false), o.(pc := AfterUnlink(o.pc)))
  {
  }

  function AfterUnlink(pc: Pc): Pc {
    match pc
    case RUnlinkMarker => RUnlinkPending
    case RUnlinkPending => RUnlinkStatus
    case RUnlinkStatus => RAnnounce
    case FUnlinkMarker => FUnlinkStatus
    case FUnlinkStatus => FArchive
    case ZMarker => ZPending
    case _ => ZRelease
  }

  lemma UnlinksStatus(c: Config, w: World, o: Op)
    requires o.pc.RUnlinkStatus? || o.pc.FUnlinkStatus?
    ensures BodyStep(c, w, o, Go, 0) == (WithStatus(w, NoStatus), o.(pc := AfterUnlink(o.pc)))
  {
  }

  lemma JoinsAtStart(c: Config, s: State)
    requires s.boot.BDecide? && !s.lock && s.threads == map[] && c.resumeOnStart && s.w.disk.slot.Holds?
    ensures var w := WithMode(s.w, Checkpointed);
            Apply(c, s, BootStep(true)) == State(w, BJoin, true, Only(MAIN, NewOp(w, Resume)), s.reapers)
  {
    var o := NewOp(WithMode(s.w, Checkpointed), Resume);
    assert map[][MAIN := o] == Only(MAIN, o);
  }

  lemma NobodyRevives(c: Config, w: World, p: nat, e: EngineEvent)
    ensures forall q :: Gone(w.engines, q) ==> Gone(EngineStep(c, w, p, e).engines, q)
  {
  }

  /** `main` before its first statement. */
  function Started(disk: Disk, images: seq<Engine>): State {
    var published := disk.archives.Values + (if disk.slot.Holds? then {disk.slot.img} else {});
    State(Protocol.World(disk, Starting, -1, [], images, Past(published, {}, 0, Witness(0, 0), false)),
          BUnlinkMarker, false, map[], {})
  }

  predicate IsLocked(cuda: seq<Cuda>, p: int) { 0 <= p < |cuda| && !cuda[p].CudaRunning? }

  /** What a suspend is about. */
  datatype Shot = Shot(mode: Mode, vllm: int, slot: Slot, stagings: set<nat>, engines: seq<Engine>, images: seq<Engine>,
                       cuda: seq<Cuda>, memory: seq<Memory>, calls: seq<Call>, faults: nat)
  {
    /** Process `p` runs, with everything on the GPU. */
    predicate Fine(p: int) { 0 <= p < |cuda| && |memory| == |cuda| && Gpu(cuda[p], memory[p]) == FINE }

    predicate Locked(p: int) { IsLocked(cuda, p) }
  }

  /** What was issued in between. */
  function Since(s: Shot, s': Shot): seq<Call>
    requires s.calls <= s'.calls
  {
    s'.calls[|s.calls|..]
  }

  /** It is refused, without effect, if the slot is taken, and otherwise only if vLLM is gone. */
  predicate Refuses(r: SuspendReply, s: Shot, s': Shot) {
    && (s.slot.Holds? ==> r.SuspendRefused?)
    && (r.SuspendRefused? ==>
          && (s.slot.Holds? || Gone(s'.engines, s.vllm)) && s'.mode.Running?
          && s'.slot == s.slot && s'.stagings == s.stagings && s'.calls == s.calls && s'.images == s.images)
  }

  /** A success publishes the image just dumped, by exactly the commands of a suspend. */
  predicate Publishes(c: Config, r: SuspendReply, s: Shot, s': Shot) {
    r.Suspended? ==>
      && s'.mode.Checkpointed? && s'.slot == Holds(r.image) && r.image == |s.images| && |s'.images| == r.image + 1
      && s'.stagings == s.stagings
      && Issued(s.calls, s'.calls, if c.sleepLevel != 0 then [SleepLevel, Prepare, Lock, Checkpoint, Dump]
                                   else [Prepare, Lock, Checkpoint, Dump], s.vllm)
  }

  /** It fails only if something fails.  The slot is as it was, or an empty one removed; no staging directory is left,
      unless its removal failed; a dump that succeeded has ended the process. */
  predicate Fails(r: SuspendReply, s: Shot, s': Shot) {
    r.SuspendFailed? ==>
      && s'.faults > s.faults && !s'.slot.Holds? && (s'.slot == s.slot || s'.slot.Absent?)
      && (r.cleaned ==> s'.mode.Running? && s'.stagings == s.stagings)
      && (!(r.cleaned && (r.checkpointed ==> r.rolledBack)) ==> s'.faults >= s.faults + 2 || Gone(s'.engines, s.vllm))
      && s.calls <= s'.calls
      && |s'.images| == |s.images| + (if Succeeds(Since(s, s'), Dump) then 1 else 0)
      && (Succeeds(Since(s, s'), Dump) ==> Gone(s'.engines, s.vllm))
  }

  /** What a failure leaves of the process. */
  ghost predicate Leaves(c: Config, r: SuspendReply, s: Shot, s': Shot) {
    r.SuspendFailed? ==>
      && 0 <= s.vllm && s.calls <= s'.calls && FailedTrail(c, Since(s, s'), s.vllm, r.checkpointed)
      && (s.Fine(s.vllm) ==> (s'.Fine(s.vllm) <==> Recovered(Since(s, s'))))
      && (r.checkpointed && r.rolledBack ==> s'.Fine(s.vllm) && RolledBack(s'.calls, s.vllm))
      && (r.locked && !r.checkpointed ==> s'.Locked(s.vllm))
  }

  /** A process left locked fails every later suspend at its lock, and stays locked. */
  predicate StaysLocked(r: SuspendReply, s: Shot, s': Shot) {
    s.Locked(s.vllm) ==> !r.Suspended? && s'.cuda == s.cuda && (r.SuspendFailed? ==> !r.locked && !r.checkpointed)
  }

  /** A try block that began at `s` has raised, or was refused: so things are at `m`. */
  predicate HasRaised(c: Config, s: Shot, m: Shot, refused: bool, checkpointed: bool, locked: bool, staging: Staging,
                    frozen: seq<Call>)
  {
    && m.faults >= s.faults && (refused ==> !checkpointed && !locked) && (s.slot.Holds? ==> refused)
    && (m.slot == s.slot || (s.slot.Empty? && m.slot.Absent?)) && (!refused ==> !m.slot.Holds? && m.faults > s.faults)
    && (if staging.At? then staging.name !in s.stagings && m.stagings == s.stagings + {staging.name}
        else m.stagings == s.stagings && !checkpointed)
    && (refused ==>
          && staging.NoStaging? && m.calls == s.calls && m.slot == s.slot && m.images == s.images
          && (m.slot.Holds? || Gone(m.engines, m.vllm)))
    && (!refused ==> 0 <= m.vllm < |m.cuda|)
    && (checkpointed ==> 0 <= m.vllm < |m.cuda| && m.cuda[m.vllm].CudaCheckpointed? && locked)
    && (locked ==> m.Locked(m.vllm)) && (s.Locked(m.vllm) ==> !checkpointed && !locked && m.cuda == s.cuda)
    && Froze(c, s.calls, frozen, m.vllm, checkpointed) && Dumped(frozen, m.calls, m.vllm, checkpointed)
    && |m.images| == |s.images| + (if checkpointed && m.calls[|frozen|].end.Done? then 1 else 0)
    && (checkpointed && m.calls[|frozen|].end.Done? ==> Gone(m.engines, m.vllm))
  }

  ghost predicate Suspends(c: Config, r: SuspendReply, s: Shot, s': Shot) {
    Refuses(r, s, s') && Publishes(c, r, s, s') && Fails(r, s, s') && Leaves(c, r, s, s') && StaysLocked(r, s, s')
  }

  ghost function Only(t: nat, o: Op): map<nat, Op> { map[t := o] }

  class Launcher {
    const c: Config

    // module globals
    var mode: Mode
    var vllm: int
    var lock: bool
    var reapers: set<nat>

    // the checkpoint directory and its siblings
    var slot: Slot
    var archives: map<Name, nat>
    var marker: bool
    var pending: bool
    var status: Status
    var stagings: set<nat>

    // processes and dumps
    var engines: seq<Engine>
    var cuda: seq<Cuda>
    var memory: seq<Memory>
    var images: seq<Engine>

    // history
    var past: Past
    ghost var calls: seq<Call>
    ghost var faults: nat     // commands, file operations and waits that failed
    ghost var boot: Boot      // how far `main` is
    ghost var sys: State
    ghost var trail: seq<(State, Event)>
    ghost var since: nat      // when the operation began: how many calls had been made,
    ghost var base: seq<Gpu>  // and what each process had on the GPU
    ghost var me: nat
    ghost var op: Op

    function World(): World
      reads this
    {
      Protocol.World(Disk(slot, archives, marker, pending, status), mode, vllm, engines, images, past)
    }

    /** The protocol is at `w` after `trail`, with thread `me` at `op` if the lock is held. */
    ghost predicate Stands(w: World)
      reads this`trail, this`sys, this`boot, this`lock, this`me, this`op, this`reapers, this`calls
    {
      && Recorded(c, trail, sys)
      && sys == State(w, boot, lock, if lock then Only(me, op) else map[], reapers)
      && SafeDumps(calls) && Honest(calls)
    }

    /** What the processes have on the GPU is what the calls since then have left of it. */
    ghost predicate Kept()
      reads this`since, this`base, this`calls, this`cuda, this`memory
    {
      |cuda| == |memory| && forall g :: g == Gpus(cuda, memory) ==> KeptAs(g)
    }

    ghost predicate KeptAs(g: seq<Gpu>)
      reads this`since, this`base, this`calls
    {
      since <= |calls| && |base| <= |g| && forall p :: 0 <= p < |base| ==> g[p] == Replay(calls[since..], p, base[p])
    }

    ghost function Picture(): Shot
      reads this`mode, this`vllm, this`slot, this`stagings, this`engines, this`images, this`cuda, this`memory
      reads this`calls, this`faults
    {
      Shot(mode, vllm, slot, stagings, engines, images, cuda, memory, calls, faults)
    }

    /** The fields are the state the protocol has reached. */
    ghost predicate Valid()
      reads this
    {
      (forall w :: w == World() ==> Stands(w)) && |cuda| == |engines| == |memory|
    }

    /** Thread `me` is inside a body, at `op`. */
    ghost predicate Inside()
      reads this
    {
      Valid() && lock
    }

    /** The launcher starts on a directory left by anyone. */
    constructor (c: Config, disk: Disk, images: seq<Engine>)
      requires Init(c, Started(disk, images))
      ensures Valid() && this.c == c && sys == Started(disk, images) && boot.BUnlinkMarker? && !lock && calls == []
      ensures slot == disk.slot && archives == disk.archives && this.images == images
    {
      this.c := c;
      mode, vllm, lock, reapers, stagings := Starting, -1, false, {}, {};
      slot, archives, marker, pending, status := disk.slot, disk.archives, disk.marker, disk.pending, disk.status;
      engines, cuda, memory, this.images, past := [], [], [], images, Started(disk, images).w.past;
      calls, faults, boot, sys, trail, since, base := [], 0, BUnlinkMarker, Started(disk, images), [], 0, [];
    }

    // ----- Ghost bookkeeping -------------------------------------------------------------------------------

    ghost method Did(e: Event)
      requires Recorded(c, trail, sys)
      modifies this`sys, this`trail
      ensures sys == Apply(c, old(sys), e) && Recorded(c, trail, sys)
    {
      RecordOne(c, trail, sys, e);
      trail := trail + [(sys, e)];
      sys := Apply(c, sys, e);
    }

    /** The statement just executed was the next step of `op`, from the world `w`. */
    ghost method Moved(w: World, ch: Choice, stamp: nat)
      requires Stands(w) && lock && !op.pc.SRelease? && !op.pc.ZRelease?
      requires World() == BodyStep(c, w, op, ch, stamp).0 && |cuda| == |engines| == |memory|
      modifies this`sys, this`trail, this`op
      ensures Inside() && op == BodyStep(c, w, old(op), ch, stamp).1
    {
      op := BodyStep(c, w, op, ch, stamp).1;
      Did(Step(me, ch, stamp));
      assert Only(me, old(op))[me := op] == Only(me, op);
    }

    /** A statement of `checkpoint_vllm` before the publication raises. */
    ghost method RaisedInSuspend()
      requires Inside() && (op.pc.SWork? || op.pc.SDump? || op.pc.SRmdir? || op.pc.SRename?)
      modifies this`sys, this`trail, this`op
      ensures Inside() && op == old(op).(pc := SFail)
    {
      assert Stands(World());
      Moved(World(), Fault, 0);
    }

    /** A statement of `restore_vllm` raises: in the try block, or in `_archive_failed_checkpoint` and after. */
    ghost method RaisedInRestore()
      requires Inside()
      requires op.pc in {RPend, RCriu, RCuda, RReady, RWait, RConsume, FArchive, FStart, FReady}
      modifies this`sys, this`trail, this`op
      ensures Inside()
      ensures op == old(op).(pc := if old(op).pc in {FArchive, FStart, FReady} then FGiveUp else FTerminate)
    {
      assert Stands(World());
      Moved(World(), Fault, 0);
    }

    // ----- The others --------------------------------------------------------------------------------------

    /** One move of an EngineCore thread, or a process dies. */
    method EngineMoves()
      requires Valid()
      modifies this`status, this`engines, this`past, this`sys, this`trail
      ensures Valid() && |engines| == |old(engines)|
      ensures forall p :: Gone(old(engines), p) ==> Gone(engines, p)
      ensures past == old(past).(doneBy := past.doneBy)
    {
      var who: nat :| true;
      var e: EngineEvent := *;
      assert Stands(World());
      var w' := EngineStep(c, World(), who, e);
      EngineLeavesLauncherState(c, World(), who, e);
      NobodyRevives(c, World(), who, e);
      status, engines, past := w'.disk.status, w'.engines, w'.past;
      Did(Event.Inside(who, e));
    }

    /** One move of somebody else: a process, a reaper, or a request that finds the lock taken. */
    method Interfere()
      requires Valid() && (lock || !boot.Serving?)
      modifies this`mode, this`reapers, this`status, this`engines, this`past, this`sys, this`trail
      ensures Valid() && |engines| == |old(engines)|
      ensures forall p :: Gone(old(engines), p) ==> Gone(engines, p)
      ensures past == old(past).(doneBy := past.doneBy, stranded := past.stranded)
    {
      var who: nat :| true;
      if * {
        EngineMoves();
      } else if * {
        ReaperMoves(who);
      } else {
        assert Stands(World());
        Did(Begin(who, Suspend));
      }
    }

    /** `reap_vllm` after its process ended: it tests `state`, and later, maybe, writes it. */
    method ReaperMoves(who: nat)
      requires Valid()
      modifies this`mode, this`reapers, this`past, this`sys, this`trail
      ensures Valid() && sys.w == old(sys.w).(mode := mode, past := past)
      ensures past == old(past).(stranded := past.stranded)
    {
      assert Stands(World());
      if * {
        ReaperTests(who);
      } else {
        var _ := ReaperWrites(who);
      }
    }

    method ReaperTests(who: nat)
      requires Valid()
      modifies this`reapers, this`sys, this`trail
      ensures Valid() && sys.w == old(sys.w)
      ensures reapers == if mode in {Checkpointing, Checkpointed, Restoring} then old(reapers) else old(reapers) + {who}
    {
      assert Stands(World());
      if mode !in {Checkpointing, Checkpointed, Restoring} {
        reapers := reapers + {who};
      }
      Did(ReapRead(who));
    }

    method ReaperWrites(who: nat) returns (code: bool)
      requires Valid()
      modifies this`mode, this`reapers, this`past, this`sys, this`trail
      ensures Valid() && sys.w == old(sys.w).(mode := mode, past := past)
      ensures who in old(reapers) ==> mode == (if code then Failed else Stopped) && reapers == old(reapers) - {who}
      ensures who !in old(reapers) ==> mode == old(mode) && reapers == old(reapers)
      ensures past == old(past).(stranded := past.stranded)
    {
      assert Stands(World());
      code := *;
      if who in reapers {
        reapers, mode, past := reapers - {who}, if code then Failed else Stopped, past.(stranded := false);
      }
      Did(ReapWrite(who, code));
    }

    /** What happens between two statements: any number of such moves. */
    method Yield()
      requires Valid() && (lock || !boot.Serving?)
      modifies this`mode, this`reapers, this`status, this`engines, this`past, this`sys, this`trail
      ensures Valid() && |engines| == |old(engines)|
      ensures forall p :: Gone(old(engines), p) ==> Gone(engines, p)
      ensures past == old(past).(doneBy := past.doneBy, stranded := past.stranded)
    {
      var n: nat :| true;
      while n > 0
        invariant Valid() && |engines| == |old(engines)|
        invariant forall p :: Gone(old(engines), p) ==> Gone(engines, p)
        invariant past == old(past).(doneBy := past.doneBy, stranded := past.stranded)
      {
        Interfere();
        n := n - 1;
      }
    }

    /** A command has ended. */
    method Note(call: Call)
      requires Inside() && call.pid < |engines| && HonestCall(call) && (call.cmd.Dump? ==> call.at.CudaCheckpointed?)
      modifies this`calls, this`cuda, this`memory
      ensures Inside() && (old(Kept()) ==> Kept()) && calls == old(calls) + [call]
      ensures cuda == if call.took then old(cuda)[call.pid := CudaAfter(call.cmd, old(cuda[call.pid]))] else old(cuda)
      ensures memory == if call.took then old(memory)[call.pid := MemoryAfter(call.cmd, old(memory[call.pid]))] else old(memory)
    {
      assert Stands(World());
      ghost var g := Gpus(cuda, memory);
      assert Kept() ==> KeptAs(g);
      calls := calls + [call];
      if call.took {
        cuda := cuda[call.pid := CudaAfter(call.cmd, cuda[call.pid])];
        memory := memory[call.pid := MemoryAfter(call.cmd, memory[call.pid])];
      }
      if old(Kept()) {
        ReplayedOn(old(calls), since, call, base, g);
      }
      assert Gpus(cuda, memory) == seq(|g|, p requires 0 <= p < |g| => After(call, p, g[p]));
    }

    /** Wait for the others to let us run `cmd` on process `pid`, and for it to end. */
    method Issue(cmd: Command, pid: nat) returns (end: End)
      requires Inside() && pid < |engines|
      requires cmd.Dump? ==> cuda[pid].CudaCheckpointed?
      modifies this`mode, this`reapers, this`status, this`engines, this`past, this`sys, this`trail
      modifies this`cuda, this`memory, this`calls, this`faults
      ensures Inside() && (old(Kept()) ==> Kept()) && |engines| == |old(engines)|
      ensures forall p :: Gone(old(engines), p) ==> Gone(engines, p)
      ensures past == old(past).(doneBy := past.doneBy, stranded := past.stranded)
      ensures faults == old(faults) + (if end.Done? then 0 else 1)
      ensures calls == old(calls) + [Call(cmd, pid, old(cuda[pid]), end, LastTook(calls))]
      ensures end.Done? ==>
        && engines[pid].alive && Ready(cmd, old(cuda[pid]))
        && cuda == old(cuda)[pid := CudaAfter(cmd, old(cuda[pid]))]
        && memory == old(memory)[pid := MemoryAfter(cmd, old(memory[pid]))]
      ensures !Ready(cmd, old(cuda[pid])) ==> end.Rejected?
      ensures !end.Done? && (end.Rejected? || cmd.Dump?) ==> cuda == old(cuda) && memory == old(memory)
      ensures end.TimedOut? ==> cuda == old(cuda) || cuda == old(cuda)[pid := CudaAfter(cmd, old(cuda[pid]))]
    {
      Yield();
      end := *;
      var effect: bool := *;
      if !engines[pid].alive || !Ready(cmd, cuda[pid]) {
        end := Rejected;
      }
      faults := faults + (if end.Done? then 0 else 1);
      Note(Call(cmd, pid, cuda[pid], end, end.Done? || (end.TimedOut? && effect && !cmd.Dump?)));
    }

    /** Something else that may fail: a file operation, a search, a wait. */
    method Try() returns (ok: bool)
      requires Valid()
      modifies this`faults
      ensures Valid() && faults == old(faults) + (if ok then 0 else 1)
    {
      ok := *;
      faults := faults + (if ok then 0 else 1);
    }

    /** `set_state`, where `checkpoint_vllm` calls it. */
    method SetState(m: Mode)
      requires Inside()
      requires (op.pc.SWork? && m.Checkpointing?) || (op.pc.SFinish? && m.Checkpointed?) || (op.pc.SFail? && m.Running?)
      modifies this`mode, this`reapers, this`status, this`engines, this`past, this`sys, this`trail, this`op
      ensures Inside() && mode == m && |engines| == |old(engines)| && past.published == old(past.published)
      ensures forall p :: Gone(old(engines), p) ==> Gone(engines, p)
      ensures op == old(op).(pc := if m.Checkpointing? then SDump else SRelease)
    {
      Yield();
      ghost var w := World();
      assert Stands(w);
      mode, past := m, past.(stranded := false);
      Moved(w, Go, 0);
    }

    // ----- checkpoint_vllm ---------------------------------------------------------------------------------

    method CheckpointVllm(t: nat) returns (r: SuspendReply)
      requires Valid() && boot.Serving?
      modifies this
      ensures Valid() && boot.Serving?
      // Exclusion: a loser changes nothing, and every exit gives the lock back.
      ensures r.SuspendBusy? <==> old(lock)
      ensures r.SuspendBusy? ==> lock && sys == old(sys) && Picture() == old(Picture())
      ensures !r.SuspendBusy? ==> !lock && sys.threads == map[] && Suspends(c, r, old(Picture()), Picture())
      ensures archives == old(archives)
    {
      ghost var s := Picture();
      var acquired := TryAcquire(t, Suspend);
      r := SuspendBusy;
      if acquired {
        assert Picture() == s;
        r := SuspendLocked();
        ghost var s' := Picture();
        assert Suspends(c, r, s, s');
        Release();
        assert Picture() == s';
      }
    }

    /** `operation_lock.acquire(blocking=False)`. */
    method TryAcquire(t: nat, kind: Kind) returns (ok: bool)
      requires Valid() && boot.Serving?
      modifies this`lock, this`me, this`op, this`sys, this`trail
      ensures Inside() && (ok <==> !old(lock))
      ensures ok ==> op == NewOp(World(), kind)
      ensures !ok ==> sys == old(sys)
    {
      ok := !lock;
      if ok {
        assert Stands(World());
        lock, me, op := true, t, NewOp(World(), kind);
        Did(Begin(t, kind));
        assert map[][t := op] == Only(me, op);
      }
    }

    method Release()
      requires Inside() && (op.pc.SRelease? || op.pc.ZRelease?)
      modifies this`lock, this`boot, this`sys, this`trail
      ensures Valid() && !lock && sys.threads == map[] && sys.w == old(sys.w)
      ensures boot == if !old(boot).BJoin? then old(boot) else if op.outcome.Raised? then BStart else Serving
    {
      assert Stands(World());
      assert sys.threads - {me} == map[];
      lock := false;
      boot := if !boot.BJoin? then boot else if op.outcome.Raised? then BStart else Serving;
      Did(Step(me, Go, 0));
    }

    /** The process runs again, with everything on the GPU, after a complete rollback. */
    ghost predicate Thawed(pid: int)
      reads this`cuda, this`memory, this`calls
    {
      0 <= pid < |cuda| && |cuda| == |memory| && cuda[pid].CudaRunning? && memory[pid] == RESIDENT && RolledBack(calls, pid)
    }

    /** The body of `checkpoint_vllm` between acquire and release. */
    method SuspendLocked() returns (r: SuspendReply)
      requires Inside() && op.pc.SCheck?
      modifies this`mode, this`reapers, this`status, this`engines, this`past, this`sys, this`trail
      modifies this`op, this`stagings, this`calls, this`faults, this`images, this`slot, this`cuda, this`memory
      modifies this`since, this`base
      ensures Inside() && op.pc.SRelease? && !r.SuspendBusy? && archives == old(archives)
      ensures Suspends(c, r, old(Picture()), Picture())
    {
      ghost var s := Picture();
      ghost var frozen;
      var published, refused, checkpointed, locked, staging;
      published, refused, checkpointed, locked, staging, frozen := SuspendTry();
      if published {
        r := Suspended(slot.img);
      } else {
        r := SuspendExcept(s, refused, checkpointed, locked, staging, frozen);
      }
    }

    /** The try block. */
    method SuspendTry()
      returns (published: bool, refused: bool, checkpointed: bool, locked: bool, staging: Staging, ghost frozen: seq<Call>)
      requires Inside() && op.pc.SCheck?
      modifies this`mode, this`reapers, this`status, this`engines, this`past, this`sys, this`trail
      modifies this`op, this`stagings, this`calls, this`faults, this`images, this`slot, this`cuda, this`memory
      modifies this`since, this`base
      ensures Inside() && Kept() && op.pc == (if published then SRelease else SFail)
      ensures since == |old(calls)| && base == old(Gpus(cuda, memory)) && |engines| == |old(engines)|
      ensures published ==> !old(slot).Holds? && !IsLocked(old(cuda), vllm)
      ensures published ==> slot.Holds? && Publishes(c, Suspended(slot.img), old(Picture()), Picture())
      ensures !published ==> HasRaised(c, old(Picture()), Picture(), refused, checkpointed, locked, staging, frozen)
    {
      Mark();
      published := false;
      checkpointed, refused, staging, locked := FreezeProcess();
      frozen := calls;
      if checkpointed {
        published := DumpAndPublish(staging.name);
        if published {
          WholeSuspend(c, old(calls), frozen, calls, vllm);
        }
      }
    }

    /** The except block, after the try block that began at `s`. */
    method SuspendExcept(ghost s: Shot, refused: bool, checkpointed: bool, locked: bool, staging: Staging,
                         ghost frozen: seq<Call>)
      returns (r: SuspendReply)
      requires Inside() && Kept() && op.pc.SFail? && since == |s.calls| && |s.cuda| == |s.memory|
      requires base == Gpus(s.cuda, s.memory) && s.vllm == vllm
      requires HasRaised(c, s, Picture(), refused, checkpointed, locked, staging, frozen)
      modifies this`mode, this`reapers, this`status, this`engines, this`past, this`sys, this`trail
      modifies this`op, this`stagings, this`calls, this`faults, this`cuda, this`memory
      ensures Inside() && op.pc.SRelease? && !r.SuspendBusy? && Suspends(c, r, s, Picture())
    {
      ghost var dumped := calls;
      ghost var thaw, wake;
      var cleaned, rolledBack;
      cleaned, rolledBack, thaw, wake := CleanUp(staging, checkpointed);
      r := if refused then SuspendRefused else SuspendFailed(locked, checkpointed, cleaned, rolledBack);
      if !refused {
        LeavesThis(r, s, frozen, dumped, thaw, wake);
      }
    }

    /** From here on we look at what the calls leave. */
    ghost method Mark()
      requires Inside()
      modifies this`since, this`base
      ensures Inside() && Kept() && since == |calls| && base == Gpus(cuda, memory)
    {
      since, base := |calls|, Gpus(cuda, memory);
    }

    /** What a suspend that failed leaves, from its calls part by part. */
    lemma LeavesThis(r: SuspendReply, s: Shot, frozen: seq<Call>, dumped: seq<Call>, thaw: seq<Call>, wake: seq<Call>)
      requires Inside() && Kept() && r.SuspendFailed? && since == |s.calls| && |s.cuda| == |s.memory|
      requires base == Gpus(s.cuda, s.memory) && s.vllm == vllm && 0 <= vllm < |cuda|
      requires Froze(c, s.calls, frozen, vllm, r.checkpointed) && calls == dumped + thaw + wake
      requires Dumped(frozen, dumped, vllm, r.checkpointed)
      requires InOrder([], thaw, THAW, vllm) && InOrder([], wake, WAKE, vllm) && (!r.checkpointed ==> thaw == wake == [])
      requires r.checkpointed && r.rolledBack ==> Thawed(vllm)
      requires r.locked && !r.checkpointed ==> IsLocked(cuda, vllm)
      ensures Leaves(c, r, s, Picture())
      ensures s.calls <= calls && (Succeeds(Since(s, Picture()), Dump) <==> r.checkpointed && dumped[|frozen|].end.Done?)
    {
      FailedParts(c, s.calls, frozen, dumped, thaw, wake, vllm, r.checkpointed);
      if s.Fine(vllm) {
        assert KeptAs(Gpus(cuda, memory));
        WhatIsLeft(s.calls, vllm, r.checkpointed);
      }
    }

    /** Hence what it leaves of a process that was fine. */
    lemma WhatIsLeft(before: seq<Call>, pid: nat, checkpointed: bool)
      requires Inside() && Kept() && before <= calls && since == |before|
      requires pid < |base| <= |cuda| && base[pid] == FINE
      requires FailedTrail(c, calls[|before|..], pid, checkpointed)
      ensures Gpu(cuda[pid], memory[pid]) == FINE <==> Recovered(calls[|before|..])
    {
      assert Stands(World());
      var t: Trail :| t.All() == calls[|before|..] && Fits(c, t, pid, checkpointed);
      assert Honest(calls[|before|..]) by {
        assert forall k :: 0 <= k < |calls| - |before| ==> calls[|before|..][k] == calls[|before| + k];
        assert Honest(calls);
      }
      WhatFailureLeaves(c, t, pid, checkpointed);
      assert KeptAs(Gpus(cuda, memory));
    }

    /** Lines up to `set_state("checkpointing")`: check, make the staging directory, put the model to sleep, lock
        and checkpoint CUDA. */
    method FreezeProcess() returns (ok: bool, refused: bool, staging: Staging, locked: bool)
      requires Inside() && Kept() && op.pc.SCheck?
      modifies this`mode, this`reapers, this`status, this`engines, this`past, this`sys, this`trail
      modifies this`op, this`stagings, this`cuda, this`memory, this`calls, this`faults
      ensures Inside() && Kept() && op.pc == (if ok then SDump else SFail) && |engines| == |old(engines)|
      ensures past.published == old(past.published)
      ensures Froze(c, old(calls), calls, vllm, ok) && faults >= old(faults)
      ensures refused ==> !ok && !locked && staging.NoStaging? && calls == old(calls) && (slot.Holds? || Gone(engines, vllm))
      ensures (slot.Holds? ==> refused) && (!ok && !refused ==> faults > old(faults))
      ensures staging.NoStaging? ==> stagings == old(stagings)
      ensures staging.At? ==> staging.name !in old(stagings) && stagings == old(stagings) + {staging.name}
      ensures ok ==> staging.At? && !slot.Holds? && locked && 0 <= vllm < |cuda| && cuda[vllm].CudaCheckpointed?
      ensures locked ==> IsLocked(cuda, vllm)
      ensures !refused ==> 0 <= vllm < |cuda|
      ensures IsLocked(old(cuda), vllm) ==> !ok && !locked && cuda == old(cuda)
    {
      ok, staging, locked := false, NoStaging, false;
      var usable := IsUsable();
      refused := !usable;
      if refused {
        return;
      }
      ok, staging, locked := PrepareProcess(vllm);
      Announce(ok);
    }

    /** `set_state("checkpointing")`, if nothing has raised. */
    method Announce(ok: bool)
      requires Inside() && op.pc.SWork?
      modifies this`mode, this`reapers, this`status, this`engines, this`past, this`sys, this`trail, this`op
      ensures Inside() && op.pc == (if ok then SDump else SFail) && |engines| == |old(engines)|
      ensures past.published == old(past.published)
    {
      if ok {
        SetState(Checkpointing);
      } else {
        RaisedInSuspend();
      }
    }

    /** vLLM runs and the slot is free. */
    method IsUsable() returns (ok: bool)
      requires Inside() && op.pc.SCheck?
      modifies this`mode, this`reapers, this`status, this`engines, this`past, this`sys, this`trail, this`op
      ensures Inside() && op == old(op).(pc := if ok then SWork else SFail) && |engines| == |old(engines)|
      ensures past.published == old(past.published) && (ok ==> 0 <= vllm < |engines|)
      ensures ok <==> !slot.Holds? && !Gone(engines, vllm)
    {
      Yield();
      ghost var w := World();
      assert Stands(w);
      ok := 0 <= vllm < |engines| && engines[vllm].alive && !slot.Holds?;
      Moved(w, Go, 0);
    }

    method PrepareProcess(pid: nat) returns (ok: bool, staging: Staging, locked: bool)
      requires Inside() && Kept() && op.pc.SWork? && pid < |engines|
      modifies this`mode, this`reapers, this`status, this`engines, this`past, this`sys, this`trail
      modifies this`stagings, this`cuda, this`memory, this`calls, this`faults
      ensures Inside() && Kept() && |engines| == |old(engines)| && past.published == old(past.published)
      ensures Froze(c, old(calls), calls, pid, ok) && faults >= old(faults) && (!ok ==> faults > old(faults))
      ensures staging.NoStaging? ==> stagings == old(stagings)
      ensures staging.At? ==> staging.name !in old(stagings) && stagings == old(stagings) + {staging.name}
      ensures ok ==> staging.At? && locked && cuda[pid].CudaCheckpointed?
      ensures locked ==> IsLocked(cuda, pid)
      ensures IsLocked(old(cuda), pid) ==> !ok && !locked && cuda == old(cuda)
    {
      var name: nat :| true;
      staging, locked := NoStaging, false;
      ok := Try();
      if name in stagings {
        ok, faults := false, faults + 1;
      }
      if ok {
        stagings, staging := stagings + {name}, At(name);
        ok := Try();  // find_engine
      }
      if ok {
        ok := Quiesce(pid);
        InOrderGoesOn(old(calls), calls, QuiesceCommands(c), [Lock, Checkpoint], pid);
      }
      if ok {
        ok := Try();  // checkpoint_tools
      }
      if ok {
        ghost var quiet := calls;
        ok, locked := LockAndSave(pid);
        InOrderJoins(old(calls), quiet, calls, QuiesceCommands(c), [Lock, Checkpoint], pid);
        if ok {
          IssuedJoins(old(calls), quiet, calls, QuiesceCommands(c), [Lock, Checkpoint], pid);
        } else if Issued(old(calls), calls, FreezeCommands(c), pid) {
          IssuedSplits(old(calls), quiet, calls, QuiesceCommands(c), [Lock, Checkpoint], pid);
        }
      }
    }

    /** The sleep and prepare requests. */
    method Quiesce(pid: nat) returns (ok: bool)
      requires Inside() && Kept() && pid < |engines|
      modifies this`mode, this`reapers, this`status, this`engines, this`past, this`sys, this`trail
      modifies this`cuda, this`memory, this`calls, this`faults
      ensures Inside() && Kept() && |engines| == |old(engines)| && past.published == old(past.published)
      ensures ok ==> Issued(old(calls), calls, QuiesceCommands(c), pid)
      ensures InOrder(old(calls), calls, QuiesceCommands(c), pid)
      ensures |old(calls)| <= |calls| && faults >= old(faults) && (!ok ==> faults > old(faults))
      ensures ok ==> Issued(old(calls), calls, if c.sleepLevel != 0 then [SleepLevel, Prepare] else [Prepare], pid)
      ensures cuda == old(cuda)
    {
      ok := true;
      if c.sleepLevel != 0 {
        var slept := Issue(SleepLevel, pid);
        ok := slept.Done?;
      }
      if ok {
        var prepared := Issue(Prepare, pid);
        ok := prepared.Done?;
      }
    }

    /** `cuda.lock` and `cuda.checkpoint`. */
    method LockAndSave(pid: nat) returns (ok: bool, locked: bool)
      requires Inside() && Kept() && pid < |engines|
      modifies this`mode, this`reapers, this`status, this`engines, this`past, this`sys, this`trail
      modifies this`cuda, this`memory, this`calls, this`faults
      ensures Inside() && Kept() && |engines| == |old(engines)| && past.published == old(past.published)
      ensures ok ==> Issued(old(calls), calls, [Lock, Checkpoint], pid)
      ensures InOrder(old(calls), calls, [Lock, Checkpoint], pid)
      ensures |old(calls)| <= |calls| && faults >= old(faults) && (!ok ==> faults > old(faults))
      ensures ok ==> locked && cuda[pid].CudaCheckpointed?
      ensures locked ==> IsLocked(cuda, pid)
      ensures !ok ==> !Issued(old(calls), calls, [Lock, Checkpoint], pid)
      ensures IsLocked(old(cuda), pid) ==> !ok && !locked && cuda == old(cuda)
    {
      ok := false;
      var lockEnd := Issue(Lock, pid);
      locked := lockEnd.Done?;
      if locked {
        var saved := Issue(Checkpoint, pid);
        ok := saved.Done?;
        assert !ok ==> !Succeeded(calls[|old(calls)| + 1], [Lock, Checkpoint][1], pid);
      }
    }

    /** `criu dump`; it ends the process it dumps. */
    method DumpTree() returns (ok: bool)
      requires Inside() && Kept() && op.pc.SDump? && 0 <= vllm < |cuda| && cuda[vllm].CudaCheckpointed?
      modifies this`mode, this`reapers, this`status, this`engines, this`past, this`sys, this`trail
      modifies this`op, this`calls, this`faults, this`images, this`cuda, this`memory
      ensures Inside() && Kept()
      ensures op == old(op).(pc := if ok then SRmdir else SFail, image := if ok then |old(images)| else old(op).image)
      ensures |engines| == |old(engines)| && past.published == old(past.published)
      ensures cuda == old(cuda) && memory == old(memory)
      ensures |calls| == |old(calls)| + 1 && faults >= old(faults) && (!ok ==> faults > old(faults))
      ensures ok ==> |images| == |old(images)| + 1 && Issued(old(calls), calls, [Dump], vllm)
      ensures ok ==> !engines[vllm].alive
      ensures InOrder(old(calls), calls, [Dump], vllm) && (ok <==> calls[|old(calls)|].end.Done?)
      ensures |images| == |old(images)| + (if ok then 1 else 0)
      ensures forall p :: Gone(old(engines), p) ==> Gone(engines, p)
    {
      var dumped := Issue(Dump, vllm);
      ok := dumped.Done?;
      if ok {
        KeepTree();
      } else {
        RaisedInSuspend();
      }
    }

    method KeepTree()
      requires Inside() && op.pc.SDump? && 0 <= vllm < |engines| && engines[vllm].alive
      modifies this`engines, this`images, this`sys, this`trail, this`op
      ensures Inside() && op == old(op).(pc := SRmdir, image := |old(images)|)
      ensures images == old(images) + [engines[vllm]] && engines == old(engines)[vllm := engines[vllm]]
      ensures !engines[vllm].alive
      ensures forall p :: Gone(old(engines), p) ==> Gone(engines, p)
    {
      ghost var w := World();
      assert Stands(w);
      var dead := engines[vllm].(alive := false);
      images, engines := images + [dead], engines[vllm := dead];
      Moved(w, Go, 0);
    }

    /** `checkpoint_dir.rmdir()`, if there is such a directory. */
    method RemoveEmptySlot() returns (ok: bool)
      requires Inside() && op.pc.SRmdir? && !slot.Holds?
      modifies this`mode, this`reapers, this`status, this`engines, this`past, this`sys, this`trail
      modifies this`op, this`slot, this`faults
      ensures Inside() && op == old(op).(pc := if ok then SRename else SFail) && |engines| == |old(engines)|
      ensures faults >= old(faults) && (!ok ==> faults > old(faults))
      ensures slot == (if ok then Absent else old(slot))
      ensures forall p :: Gone(old(engines), p) ==> Gone(engines, p)
    {
      Yield();
      ghost var w := World();
      assert Stands(w);
      ok := slot.Absent?;
      if !ok {
        ok := Try();
      }
      if ok {
        slot := Absent;
        Moved(w, Go, 0);
      } else {
        RaisedInSuspend();
      }
    }

    /** `staging_dir.replace(checkpoint_dir)`. */
    method RenameStaging(staging: nat, image: nat) returns (ok: bool)
      requires Inside() && op.pc.SRename? && op.image == image
      modifies this`mode, this`reapers, this`status, this`engines, this`past, this`sys, this`trail
      modifies this`op, this`slot, this`stagings, this`faults
      ensures Inside() && op == old(op).(pc := if ok then SFinish else SFail) && |engines| == |old(engines)|
      ensures faults >= old(faults) && (!ok ==> faults > old(faults))
      ensures ok ==> slot == Holds(image) && stagings == old(stagings) - {staging}
      ensures !ok ==> slot == old(slot) && stagings == old(stagings)
      ensures forall p :: Gone(old(engines), p) ==> Gone(engines, p)
    {
      Yield();
      ok := Try();
      if ok {
        Publish(staging, image);
      } else {
        RaisedInSuspend();
      }
    }

    method Publish(staging: nat, image: nat)
      requires Inside() && op.pc.SRename? && op.image == image
      modifies this`past, this`sys, this`trail, this`op, this`slot, this`stagings
      ensures Inside() && op == old(op).(pc := SFinish)
      ensures slot == Holds(image) && stagings == old(stagings) - {staging}
    {
      ghost var w := World();
      assert Stands(w);
      slot, stagings, past := Holds(image), stagings - {staging}, past.(published := past.published + {image});
      Moved(w, Go, 0);
    }

    /** From `criu dump` to `set_state("checkpointed")`. */
    method DumpAndPublish(staging: nat) returns (ok: bool)
      requires Inside() && Kept() && op.pc.SDump? && !slot.Holds?
      requires 0 <= vllm < |cuda| && cuda[vllm].CudaCheckpointed?
      modifies this`mode, this`reapers, this`status, this`engines, this`past, this`sys, this`trail
      modifies this`op, this`stagings, this`calls, this`faults, this`images, this`slot, this`cuda, this`memory
      ensures Inside() && Kept() && op.pc == (if ok then SRelease else SFail) && |engines| == |old(engines)|
      ensures cuda == old(cuda) && memory == old(memory)
      ensures |calls| == |old(calls)| + 1 && faults >= old(faults) && (!ok ==> faults > old(faults))
      ensures ok ==>
        && mode.Checkpointed? && slot == Holds(|old(images)|) && |images| == |old(images)| + 1
        && stagings == old(stagings) - {staging}
        && Issued(old(calls), calls, [Dump], vllm)
      ensures !ok ==> stagings == old(stagings) && (slot == old(slot) || (old(slot).Empty? && slot.Absent?))
      ensures InOrder(old(calls), calls, [Dump], vllm)
      ensures |images| == |old(images)| + (if calls[|old(calls)|].end.Done? then 1 else 0)
      ensures calls[|old(calls)|].end.Done? ==> Gone(engines, vllm)
      ensures forall p :: Gone(old(engines), p) ==> Gone(engines, p)
    {
      ok := DumpTree();
      if ok {
        ok := PutInPlace(staging, |images| - 1);
      }
    }

    method PutInPlace(staging: nat, image: nat) returns (ok: bool)
      requires Inside() && op.pc.SRmdir? && op.image == image && !slot.Holds?
      modifies this`mode, this`reapers, this`status, this`engines, this`past, this`sys, this`trail
      modifies this`op, this`stagings, this`faults, this`slot
      ensures Inside() && op.pc == (if ok then SRelease else SFail) && |engines| == |old(engines)|
      ensures faults >= old(faults) && (!ok ==> faults > old(faults))
      ensures ok ==> mode.Checkpointed? && slot == Holds(image) && stagings == old(stagings) - {staging}
      ensures !ok ==> stagings == old(stagings) && (slot == old(slot) || (old(slot).Empty? && slot.Absent?))
      ensures forall p :: Gone(old(engines), p) ==> Gone(engines, p)
    {
      ok := RemoveEmptySlot();
      if ok {
        ok := RenameStaging(staging, image);
      }
      if ok {
        SetState(Checkpointed);
      }
    }

    /** What the except block does. */
    method CleanUp(staging: Staging, checkpointed: bool)
      returns (cleaned: bool, rolledBack: bool, ghost thaw: seq<Call>, ghost wake: seq<Call>)
      requires Inside() && Kept() && op.pc.SFail?
      requires staging.At? ==> staging.name in stagings
      requires checkpointed ==> 0 <= vllm < |cuda| && cuda[vllm].CudaCheckpointed?
      modifies this`mode, this`reapers, this`status, this`engines, this`past, this`sys, this`trail
      modifies this`op, this`stagings, this`calls, this`faults, this`cuda, this`memory
      ensures Inside() && Kept() && op.pc.SRelease? && |engines| == |old(engines)| && (cleaned ==> mode.Running?)
      ensures !cleaned ==> !rolledBack && calls == old(calls) && cuda == old(cuda) && memory == old(memory)
      ensures cleaned ==> stagings == (if staging.At? then old(stagings) - {staging.name} else old(stagings))
      ensures faults >= old(faults) && (!cleaned ==> faults > old(faults))
      ensures cleaned && checkpointed && !rolledBack ==> faults > old(faults) || Gone(engines, vllm)
      ensures staging.NoStaging? && !checkpointed ==> cleaned
      ensures !checkpointed ==> cuda == old(cuda) && memory == old(memory) && thaw == wake == []
      ensures calls == old(calls) + thaw + wake && InOrder([], thaw, THAW, vllm) && InOrder([], wake, WAKE, vllm)
      ensures checkpointed && rolledBack ==> Thawed(vllm)
      ensures forall p :: Gone(old(engines), p) ==> Gone(engines, p)
    {
      cleaned, rolledBack, thaw, wake := true, false, [], [];
      if staging.At? {
        cleaned := RemoveStaging(staging.name);
      }
      if cleaned && checkpointed {
        rolledBack, thaw, wake := Rollback(vllm);
      }
      if cleaned {
        SetState(Running);
      }
    }

    /** `shutil.rmtree(staging_dir)`; if it raises, the rest of the except block is skipped. */
    method RemoveStaging(name: nat) returns (ok: bool)
      requires Inside() && op.pc.SFail?
      modifies this`mode, this`reapers, this`status, this`engines, this`past, this`sys, this`trail
      modifies this`op, this`stagings, this`faults
      ensures Inside() && op == old(op).(pc := if ok then SFail else SRelease) && |engines| == |old(engines)|
      ensures faults >= old(faults) && (!ok ==> faults > old(faults))
      ensures ok ==> stagings == old(stagings) - {name}
      ensures forall p :: Gone(old(engines), p) ==> Gone(engines, p)
    {
      Yield();
      ok := Try();
      if ok {
        stagings := stagings - {name};
      } else {
        CleanupRaises();
      }
    }

    method CleanupRaises()
      requires Inside() && op.pc.SFail?
      modifies this`past, this`sys, this`trail, this`op
      ensures Inside() && op == old(op).(pc := SRelease) && past.stranded == mode.Checkpointing?
    {
      ghost var w := World();
      assert Stands(w);
      past := past.(stranded := mode.Checkpointing?);
      Moved(w, Fault, 0);
    }

    /** `cuda.rollback` and `api.wake_level2`; neither lets an exception out. */
    method Rollback(pid: nat) returns (all: bool, ghost thaw: seq<Call>, ghost wake: seq<Call>)
      requires Inside() && Kept() && pid < |engines| && cuda[pid].CudaCheckpointed?
      modifies this`mode, this`reapers, this`status, this`engines, this`past, this`sys, this`trail
      modifies this`calls, this`faults, this`cuda, this`memory
      ensures Inside() && Kept() && |engines| == |old(engines)|
      ensures calls == old(calls) + thaw + wake && InOrder([], thaw, THAW, pid) && InOrder([], wake, WAKE, pid)
      ensures faults >= old(faults) && (!all ==> faults > old(faults) || Gone(engines, pid))
      ensures all ==> Thawed(pid)
      ensures forall p :: Gone(old(engines), p) ==> Gone(engines, p)
    {
      var tools := Try();
      all, thaw, wake := false, [], [];
      if tools {
        var thawed := ThawCuda(pid);
        ghost var between := calls;
        Added(old(calls), between, THAW, pid);
        var woken := WakeLevel2(pid);
        Added(between, calls, WAKE, pid);
        thaw, wake := between[|old(calls)|..], calls[|between|..];
        all := thawed && woken;
        if all {
          IssuedJoins(old(calls), between, calls, THAW, WAKE, pid);
          assert calls[..|calls| - 5] == old(calls);
        }
      }
    }

    method ThawCuda(pid: nat) returns (all: bool)
      requires Inside() && Kept() && pid < |engines| && cuda[pid].CudaCheckpointed?
      modifies this`mode, this`reapers, this`status, this`engines, this`past, this`sys, this`trail
      modifies this`calls, this`faults, this`cuda, this`memory
      ensures Inside() && Kept() && |engines| == |old(engines)| && |old(calls)| <= |calls|
      ensures faults >= old(faults) && (!all ==> faults > old(faults) || Gone(engines, pid))
      ensures all ==> cuda[pid].CudaRunning? && Issued(old(calls), calls, [RestoreCuda, Unlock], pid)
      ensures InOrder(old(calls), calls, THAW, pid)
      ensures forall p :: Gone(old(engines), p) ==> Gone(engines, p)
    {
      all := false;
      Yield();
      if engines[pid].alive {
        var restored := Issue(RestoreCuda, pid);
        if restored.Done? {
          var unlocked := Issue(Unlock, pid);
          all := unlocked.Done?;
        }
      }
    }

    method WakeLevel2(pid: nat) returns (all: bool)
      requires Inside() && Kept() && pid < |engines|
      modifies this`mode, this`reapers, this`status, this`engines, this`past, this`sys, this`trail
      modifies this`calls, this`faults, this`cuda, this`memory
      ensures Inside() && Kept() && |engines| == |old(engines)| && |old(calls)| <= |calls|
      ensures faults >= old(faults) && (!all ==> faults > old(faults)) && forall p :: Gone(old(engines), p) ==> Gone(engines, p)
      ensures all ==>
        && memory[pid] == RESIDENT && cuda == old(cuda)
        && Issued(old(calls), calls, [WakeWeights, LoadWeights, WakeKv], pid)
      ensures InOrder(old(calls), calls, WAKE, pid)
    {
      all := false;
      var weights := Issue(WakeWeights, pid);
      if weights.Done? {
        var loaded := Issue(LoadWeights, pid);
        if loaded.Done? {
          var kv := Issue(WakeKv, pid);
          all := kv.Done?;
        }
      }
    }

    // ----- restore_vllm ------------------------------------------------------------------------------------

    method RestoreVllm(t: nat, stamp: nat) returns (r: ResumeReply)
      requires Valid() && boot.Serving?
      modifies this
      ensures Valid() && boot.Serving?
      ensures r.ResumeBusy? <==> old(lock)
      ensures r.ResumeBusy? ==> lock && sys == old(sys) && calls == old(calls)
      ensures !r.ResumeBusy? ==> !lock && sys.threads == map[] && !marker && !pending
      // It fails only for want of an image or because something fails; so does the fallback, if there is one.
      ensures r.Resumed? || r.FellBack? ==> r.pid == vllm
      // What `state` then says, unless a reaper has written to it.
      ensures r.Resumed? || r.FellBack? ==> mode in {Running, Failed, Stopped}
      ensures r.ResumeFailed? ==> mode in {Checkpointed, Failed, Stopped}
      ensures r.Resumed? ==> r.pid == |old(engines)| == |engines| - 1
      ensures r.FellBack? ==> |old(engines)| <= r.pid == |engines| - 1 && cuda[r.pid].CudaRunning? && memory[r.pid] == RESIDENT
      ensures r.FellBack? || r.ResumeFailed? ==> !old(slot).Holds? || faults > old(faults)
      ensures r.FellBack? ==> c.fallback
      ensures r.ResumeFailed? && c.fallback ==> faults >= old(faults) + if old(slot).Holds? then 2 else 1
      // The image: used up by a success, otherwise where it was or archived under a new name.
      ensures r.Resumed? ==>
        old(slot).Holds? && slot.Absent? && archives == old(archives)
        && past.consumed == old(past.consumed) + {old(slot).img}
      ensures !r.Resumed? ==>
        past.consumed == old(past.consumed) && SameOrArchived(old(slot), old(archives), stamp)
      // A success went through the CUDA handshake, and with a sleep level rests on a complete local restore.
      ensures r.Resumed? ==>
        && old(calls) <= calls && |old(calls)| + 2 <= |calls| <= |old(calls)| + 3
        && calls[|old(calls)|].cmd.QueryState? && calls[|old(calls)|].end.Done? && calls[|old(calls)|].pid == r.pid
        && calls[|old(calls)| + 1].cmd.RestoreCuda? && calls[|old(calls)| + 1].pid == r.pid
        && (|calls| == |old(calls)| + 3 <==> calls[|old(calls)| + 1].end.Done?)
        && (|calls| == |old(calls)| + 3 ==> calls[|old(calls)| + 2].cmd.Unlock? && calls[|old(calls)| + 2].pid == r.pid)
      ensures r.Resumed? && c.sleepLevel != 0 ==> IsAttempt(sys.w, op.past.seen) && FullyRun(c, AttemptAt(sys.w, op.past.seen))
    {
      var acquired := TryAcquire(t, Resume);
      r := ResumeBusy;
      if acquired {
        r := RestoreLocked(stamp);
        Release();
      }
    }

    /** The body of `restore_vllm` between acquire and release. */
    method RestoreLocked(stamp: nat) returns (r: ResumeReply)
      requires Inside() && op.pc.RCheck? && op.restored == -1 && !op.outcome.Restored?
      modifies this`mode, this`reapers, this`status, this`engines, this`past, this`sys, this`trail
      modifies this`op, this`marker, this`pending, this`slot, this`archives, this`vllm, this`cuda, this`memory
      modifies this`calls, this`faults
      ensures Inside() && op.pc.ZRelease? && !marker && !pending && !r.ResumeBusy? && faults >= old(faults)
      ensures r.Resumed? || r.FellBack? ==> r.pid == vllm
      ensures r.Resumed? || r.FellBack? ==> mode in {Running, Failed, Stopped}
      ensures r.ResumeFailed? ==> mode in {Checkpointed, Failed, Stopped}
      ensures r.Resumed? ==> r.pid == |old(engines)| == |engines| - 1
      ensures r.FellBack? ==> |old(engines)| <= r.pid == |engines| - 1 && cuda[r.pid].CudaRunning? && memory[r.pid] == RESIDENT
      ensures r.FellBack? || r.ResumeFailed? ==> !old(slot).Holds? || faults > old(faults)
      ensures r.FellBack? ==> c.fallback
      ensures r.ResumeFailed? && c.fallback ==> faults >= old(faults) + if old(slot).Holds? then 2 else 1
      ensures r.Resumed? ==>
        old(slot).Holds? && slot.Absent? && archives == old(archives)
        && past.consumed == old(past.consumed) + {old(slot).img}
      ensures !r.Resumed? ==>
        past.consumed == old(past.consumed) && SameOrArchived(old(slot), old(archives), stamp)
      ensures r.Resumed? ==> RevivedBy(old(calls), calls, r.pid)
      ensures r.Resumed? && c.sleepLevel != 0 ==> IsAttempt(sys.w, op.past.seen) && FullyRun(c, AttemptAt(sys.w, op.past.seen))
      ensures op.outcome == if r.Resumed? then Restored else if r.FellBack? then Fallback else Raised
    {
      var ok, pid := RestoreTry();
      if ok {
        r := Resumed(pid);
      } else {
        r := RestoreExcept(pid, stamp);
      }
      Finally();
    }

    method Finally()
      requires Inside() && op.pc.ZMarker?
      modifies this`mode, this`reapers, this`status, this`engines, this`past, this`sys, this`trail
      modifies this`op, this`marker, this`pending
      ensures Inside() && op == old(op).(pc := ZRelease) && !marker && !pending && past.consumed == old(past.consumed)
      ensures op.outcome.Restored? && c.sleepLevel != 0 ==>
        IsAttempt(sys.w, op.past.seen) && FullyRun(c, AttemptAt(sys.w, op.past.seen))
      ensures op.outcome.Restored? || op.outcome.Fallback? ==> mode in {Running, Failed, Stopped}
      ensures op.outcome.Raised? ==> mode in {Checkpointed, Failed, Stopped}
      ensures |engines| == |old(engines)|
    {
      UnlinkMarker();
      UnlinkPending();
      OutcomeTells();
    }

    lemma OutcomeTells()
      requires Inside() && op.pc.ZRelease?
      ensures op.outcome.Restored? && c.sleepLevel != 0 ==>
        IsAttempt(sys.w, op.past.seen) && FullyRun(c, AttemptAt(sys.w, op.past.seen))
      ensures op.outcome.Restored? || op.outcome.Fallback? ==> mode in {Running, Failed, Stopped}
      ensures op.outcome.Raised? ==> mode in {Checkpointed, Failed, Stopped}
    {
      assert Stands(World());
      RecordedIsRun(c, trail, sys);
      Invariant(c, StateAt(trail, sys, 0), Events(trail));
      assert me in sys.threads;
    }

    /** The slot and the archives after an operation that used no image. */
    ghost predicate SameOrArchived(slot0: Slot, archives0: map<Name, nat>, stamp: nat)
      reads this`slot, this`archives
    {
      || (slot == slot0 && archives == archives0)
      || (slot.Absent? && !slot0.Holds? && archives == archives0)
      || (slot.Absent? && slot0.Holds? && archives == archives0[FirstFree(archives0, stamp) := slot0.img])
    }

    /** The try block. */
    method RestoreTry() returns (ok: bool, pid: int)
      requires Inside() && op.pc.RCheck? && op.restored == -1 && !op.outcome.Restored?
      modifies this`mode, this`reapers, this`status, this`engines, this`past, this`sys, this`trail
      modifies this`op, this`marker, this`pending, this`slot, this`vllm, this`cuda, this`memory, this`calls, this`faults
      ensures |engines| >= |old(engines)| && (ok ==> |engines| == |old(engines)| + 1 && pid == |old(engines)|)
      ensures Inside() && op.pc == (if ok then ZMarker else FTerminate) && (op.outcome.Restored? <==> ok)
      ensures op.restored == pid
      ensures faults >= old(faults) && (!ok ==> !old(slot).Holds? || faults > old(faults))
      ensures ok ==> RevivedBy(old(calls), calls, pid)
      ensures ok ==> pid == vllm && old(slot).Holds? && slot.Absent? && past.consumed == old(past.consumed) + {old(slot).img}
      ensures !ok ==> slot == old(slot) && past.consumed == old(past.consumed)
    {
      ok, pid := ReviveTree();
      if ok {
        ok := Recover();
      }
      if ok {
        ok := ConsumeImage(pid);
      }
    }

    /** From the check of the slot to the return of `cuda.restore_if_needed`. */
    method ReviveTree() returns (ok: bool, pid: int)
      requires Inside() && op.pc.RCheck? && op.restored == -1
      modifies this`mode, this`reapers, this`status, this`engines, this`past, this`sys, this`trail
      modifies this`op, this`marker, this`pending, this`cuda, this`memory, this`calls, this`faults
      ensures ok ==> |engines| == |old(engines)| + 1 && pid == |old(engines)|
      ensures |engines| >= |old(engines)|
      ensures Inside() && op.pc == (if ok then RTouch else FTerminate) && op.outcome == old(op).outcome
      ensures op.restored == pid && (ok ==> slot.Holds?)
      ensures faults >= old(faults) && (!ok ==> !slot.Holds? || faults > old(faults))
      ensures ok ==> RevivedBy(old(calls), calls, pid)
      ensures past.consumed == old(past.consumed)
    {
      pid := -1;
      ok := PrepareFiles();
      if ok {
        ok, pid := CriuRestore();
        if ok {
          ok := ReviveCuda(pid);
        }
      }
    }

    method PrepareFiles() returns (ok: bool)
      requires Inside() && op.pc.RCheck?
      modifies this`mode, this`reapers, this`status, this`engines, this`past, this`sys, this`trail
      modifies this`op, this`marker, this`pending, this`faults
      ensures Inside() && |engines| == |old(engines)| && op == old(op).(pc := if ok then RCriu else FTerminate)
      ensures ok ==> slot.Holds?
      ensures faults >= old(faults) && (!ok ==> !slot.Holds? || faults > old(faults))
      ensures past.consumed == old(past.consumed)
    {
      ok := HasImage();
      if ok {
        ok := ClearFiles();
      }
    }

    method HasImage() returns (ok: bool)
      requires Inside() && op.pc.RCheck?
      modifies this`mode, this`reapers, this`status, this`engines, this`past, this`sys, this`trail, this`op
      ensures Inside() && |engines| == |old(engines)|
      ensures op == old(op).(pc := if ok then RUnlinkMarker else FTerminate) && ok == slot.Holds?
      ensures past.consumed == old(past.consumed)
    {
      Yield();
      ghost var w := World();
      assert Stands(w);
      ok := slot.Holds?;
      Moved(w, Go, 0);
    }

    method ClearFiles() returns (ok: bool)
      requires Inside() && op.pc.RUnlinkMarker?
      modifies this`mode, this`reapers, this`status, this`engines, this`past, this`sys, this`trail
      modifies this`op, this`marker, this`pending, this`faults
      ensures Inside() && |engines| == |old(engines)| && op == old(op).(pc := if ok then RCriu else FTerminate)
      ensures faults >= old(faults) && (!ok ==> faults > old(faults))
      ensures past.consumed == old(past.consumed)
    {
      UnlinkMarker();
      UnlinkPending();
      UnlinkStatus();
      SetRestoreState(Restoring);
      ok := TouchPending();
    }

    method UnlinkMarker()
      requires Inside() && (op.pc.RUnlinkMarker? || op.pc.FUnlinkMarker? || op.pc.ZMarker?)
      modifies this`mode, this`reapers, this`status, this`engines, this`past, this`sys, this`trail
      modifies this`op, this`marker
      ensures Inside() && |engines| == |old(engines)| && !marker && past.consumed == old(past.consumed)
      ensures op == old(op).(pc := AfterUnlink(old(op).pc))
      ensures forall p :: p < |old(engines)| && Gone(old(engines), p) ==> Gone(engines, p)
    {
      Yield();
      ghost var w := World();
      assert Stands(w);
      marker := false;
      UnlinksMarker(c, w, op);
      Moved(w, Go, 0);
    }

    method UnlinkPending()
      requires Inside() && (op.pc.RUnlinkPending? || op.pc.ZPending?)
      modifies this`mode, this`reapers, this`status, this`engines, this`past, this`sys, this`trail
      modifies this`op, this`pending
      ensures Inside() && |engines| == |old(engines)| && !pending && past.consumed == old(past.consumed)
      ensures op == old(op).(pc := AfterUnlink(old(op).pc))
    {
      Yield();
      ghost var w := World();
      assert Stands(w);
      pending := false;
      UnlinksPending(c, w, op);
      Moved(w, Go, 0);
    }

    method UnlinkStatus()
      requires Inside() && (op.pc.RUnlinkStatus? || op.pc.FUnlinkStatus?)
      modifies this`mode, this`reapers, this`status, this`engines, this`past, this`sys, this`trail, this`op
      ensures Inside() && |engines| == |old(engines)| && past.consumed == old(past.consumed)
      ensures op == old(op).(pc := AfterUnlink(old(op).pc))
      ensures forall p :: p < |old(engines)| && Gone(old(engines), p) ==> Gone(engines, p)
    {
      Yield();
      ghost var w := World();
      assert Stands(w);
      status := NoStatus;
      UnlinksStatus(c, w, op);
      Moved(w, Go, 0);
    }

    /** `restore_pending.touch()`, after the tools were found. */
    method SetPending()
      requires Inside() && op.pc.RPend?
      modifies this`sys, this`trail, this`op, this`pending
      ensures Inside() && op == old(op).(pc := RCriu)
    {
      ghost var w := World();
      assert Stands(w);
      pending := true;
      Moved(w, Go, 0);
    }

    method TouchPending() returns (ok: bool)
      requires Inside() && op.pc.RPend?
      modifies this`mode, this`reapers, this`status, this`engines, this`past, this`sys, this`trail
      modifies this`op, this`pending, this`faults
      ensures Inside() && |engines| == |old(engines)|
      ensures op == old(op).(pc := if ok then RCriu else FTerminate) && past.consumed == old(past.consumed)
      ensures faults >= old(faults) && (!ok ==> faults > old(faults))
    {
      Yield();
      ok := Try();
      if ok {
        SetPending();
      } else {
        RaisedInRestore();
      }
    }

    /** `set_state`, where `restore_vllm` calls it. */
    method SetRestoreState(m: Mode)
      requires Inside() && (op.pc.RAnnounce? || op.pc.RFinish? || op.pc.FReady? || op.pc.FGiveUp?)
      requires m == RestoreMode(op.pc)
      modifies this`mode, this`reapers, this`status, this`engines, this`past, this`sys, this`trail, this`op
      ensures Inside() && |engines| == |old(engines)| && op == AfterSetState(old(op)) && past.consumed == old(past.consumed)
      ensures forall p :: p < |old(engines)| && Gone(old(engines), p) ==> Gone(engines, p)
    {
      Yield();
      ghost var w := World();
      assert Stands(w);
      mode, past := m, past.(stranded := false);
      SetsMode(c, w, op);
      Moved(w, Go, 0);
    }

    /** `criu.restore`: a process tree as it was dumped, with any CUDA state; or none; or one that runs although
        the call raised. */
    method CriuRestore() returns (ok: bool, pid: int)
      requires Inside() && op.pc.RCriu? && slot.Holds? && op.restored == -1
      modifies this`mode, this`reapers, this`status, this`engines, this`past, this`sys, this`trail
      modifies this`op, this`cuda, this`memory, this`faults
      ensures ok ==> |engines| == |old(engines)| + 1 && pid == |old(engines)|
      ensures |engines| >= |old(engines)|
      ensures Inside() && op == old(op).(pc := if ok then RCuda else FTerminate, restored := pid)
      ensures ok ==> 0 <= pid < |engines|
      ensures !ok ==> pid == -1
      ensures faults >= old(faults) && (!ok ==> faults > old(faults))
      ensures past.consumed == old(past.consumed)
    {
      Yield();
      var created: bool := *;
      pid := -1;
      ok := Try();
      if ok || created {
        CreateTree(ok);
        pid := if ok then |engines| - 1 else -1;
      } else {
        RaisedInRestore();
      }
    }

    method CreateTree(whole: bool)
      requires Inside() && op.pc.RCriu? && slot.Holds?
      modifies this`engines, this`cuda, this`memory, this`sys, this`trail, this`op
      ensures Inside() && |engines| == |old(engines)| + 1
      ensures op == if whole then old(op).(pc := RCuda, restored := |old(engines)|) else old(op).(pc := FTerminate)
    {
      ImageIsThere();
      ghost var w := World();
      assert Stands(w);
      var at: Cuda := *;
      cuda, memory, engines := cuda + [at], memory + [DISCARDED], engines + [images[slot.img].(alive := true)];
      Moved(w, if whole then Go else Half, 0);
    }

    lemma ImageIsThere()
      requires Inside() && slot.Holds?
      ensures slot.img < |images|
    {
      assert Stands(World());
      RecordedIsRun(c, trail, sys);
      Invariant(c, StateAt(trail, sys, 0), Events(trail));
      assert slot.img in past.published;
    }

    /** `find_engine` and `cuda.restore_if_needed`. */
    method ReviveCuda(pid: nat) returns (ok: bool)
      requires Inside() && op.pc.RCuda? && pid < |engines|
      modifies this`mode, this`reapers, this`status, this`engines, this`past, this`sys, this`trail
      modifies this`op, this`cuda, this`memory, this`calls, this`faults
      ensures Inside() && |engines| == |old(engines)|
      ensures op.pc == (if ok then RTouch else FTerminate) && op.restored == old(op).restored && op.outcome == old(op).outcome
      ensures faults >= old(faults) && (!ok ==> faults > old(faults))
      ensures ok ==> RevivedBy(old(calls), calls, pid)
      ensures past.consumed == old(past.consumed)
    {
      ok := Try();  // find_engine
      if ok {
        var raised, _ := RestoreIfNeeded(pid);
        ok := !raised;
      }
      CudaIsBack(ok);
    }

    method CudaIsBack(ok: bool)
      requires Inside() && op.pc.RCuda?
      modifies this`past, this`sys, this`trail, this`op
      ensures Inside() && past.consumed == old(past.consumed)
      ensures op.pc == (if ok then RTouch else FTerminate) && op.restored == old(op).restored && op.outcome == old(op).outcome
    {
      ghost var w := World();
      assert Stands(w);
      if ok {
        past := past.(epoch := past.epoch + 1);
        Moved(w, Go, 0);
      } else {
        RaisedInRestore();
      }
    }

    /** It lets a rejection pass only for a process that was running already, and a timeout never. */
    method RestoreIfNeeded(pid: nat) returns (raised: bool, wasRunning: bool)
      requires Inside() && pid < |engines|
      modifies this`mode, this`reapers, this`status, this`engines, this`past, this`sys, this`trail
      modifies this`cuda, this`memory, this`calls, this`faults
      ensures Inside() && |engines| == |old(engines)| && past == old(past).(doneBy := past.doneBy, stranded := past.stranded)
      ensures faults >= old(faults) && (raised ==> faults > old(faults))
      ensures old(calls) <= calls && |old(calls)| < |calls| <= |old(calls)| + 3
      ensures calls[|old(calls)|].cmd.QueryState? && calls[|old(calls)|].pid == pid
      ensures |calls| > |old(calls)| + 1 <==> calls[|old(calls)|].end.Done?
      ensures |calls| > |old(calls)| + 1 ==> calls[|old(calls)| + 1].cmd.RestoreCuda? && calls[|old(calls)| + 1].pid == pid
      ensures |calls| > |old(calls)| + 2 <==> |calls| > |old(calls)| + 1 && calls[|old(calls)| + 1].end.Done?
      ensures |calls| > |old(calls)| + 2 ==> calls[|old(calls)| + 2].cmd.Unlock? && calls[|old(calls)| + 2].pid == pid
      ensures raised <==>
        || calls[|calls| - 1].end.TimedOut?
        || (calls[|calls| - 1].end.Rejected? && (calls[|calls| - 1].cmd.QueryState? || !wasRunning))
      ensures wasRunning <==> old(cuda[pid]).CudaRunning?
      ensures !raised ==> cuda[pid].CudaRunning?
    {
      wasRunning := cuda[pid].CudaRunning?;
      var queried := Issue(QueryState, pid);
      raised := !queried.Done?;
      if !raised {
        var last := Issue(RestoreCuda, pid);
        if last.Done? {
          last := Issue(Unlock, pid);
        }
        raised := last.TimedOut? || (last.Rejected? && !wasRunning);
      }
    }

    /** The marker, the API and the EngineCore, up to `vllm_process = ...`. */
    method Recover() returns (ok: bool)
      requires Inside() && op.pc.RTouch?
      modifies this`mode, this`reapers, this`status, this`engines, this`past, this`sys, this`trail
      modifies this`op, this`marker, this`faults
      ensures Inside() && |engines| == |old(engines)| && op.pc == (if ok then RAdopt else FTerminate)
      ensures op.restored == old(op).restored && op.outcome == old(op).outcome
      ensures faults >= old(faults) && (!ok ==> faults > old(faults))
      ensures past.consumed == old(past.consumed)
    {
      TouchMarker();
      ok := Reconnect();
      if ok && c.sleepLevel != 0 {
        ok := WaitForLocalRestore();
      }
    }

    method TouchMarker()
      requires Inside() && op.pc.RTouch?
      modifies this`mode, this`reapers, this`status, this`engines, this`past, this`sys, this`trail
      modifies this`op, this`marker
      ensures Inside() && |engines| == |old(engines)| && op == old(op).(pc := RReady) && past.consumed == old(past.consumed)
    {
      Yield();
      ghost var w := World();
      assert Stands(w);
      marker := true;
      Moved(w, Go, 0);
    }

    /** The API answers, the ZMQ channels are rebuilt, the READY handshake is through; any of it may raise. */
    method Reconnect() returns (ok: bool)
      requires Inside() && op.pc.RReady?
      modifies this`mode, this`reapers, this`status, this`engines, this`past, this`sys, this`trail, this`op, this`faults
      ensures Inside() && |engines| == |old(engines)| && past.consumed == old(past.consumed)
      ensures faults >= old(faults) && (!ok ==> faults > old(faults))
      ensures op == old(op).(pc := if !ok then FTerminate else if c.sleepLevel != 0 then RWait else RAdopt)
    {
      Yield();
      ghost var w := World();
      assert Stands(w);
      ok := Try();
      if ok {
        Moved(w, Go, 0);
      } else {
        RaisedInRestore();
      }
    }

    /** `_wait_for_enginecore_local_restore`: poll the status file until it says `done` or `failed`, the process is
        gone, or time is up after `budget` polls. */
    method WaitForLocalRestore() returns (ok: bool)
      requires Inside() && op.pc.RWait?
      modifies this`mode, this`reapers, this`status, this`engines, this`past, this`sys, this`trail, this`op, this`faults
      ensures Inside() && |engines| == |old(engines)| && faults >= old(faults) && (!ok ==> faults > old(faults))
      ensures ok ==> status.DoneText? && op == old(op).(pc := RAdopt, past := old(op).past.(seen := past.doneBy))
      ensures !ok ==> op == old(op).(pc := FTerminate)
      ensures past.consumed == old(past.consumed)
    {
      var budget: nat :| true;
      while budget > 0
        invariant Inside() && op == old(op)
        invariant past.consumed == old(past.consumed) && faults >= old(faults)
      {
        Yield();
        if status.DoneText? || status.FailedText? {
          ok := ReadVerdict();
          return;
        }
        var there := Try();  // the process
        if !there {
          RaisedInRestore();
          return false;
        }
        budget := budget - 1;
      }
      faults := faults + 1;
      RaisedInRestore();
      ok := false;
    }

    method ReadVerdict() returns (ok: bool)
      requires Inside() && op.pc.RWait? && (status.DoneText? || status.FailedText?)
      modifies this`faults, this`sys, this`trail, this`op
      ensures Inside() && (ok <==> status.DoneText?) && faults == old(faults) + (if ok then 0 else 1)
      ensures ok ==> op == old(op).(pc := RAdopt, past := old(op).past.(seen := past.doneBy))
      ensures !ok ==> op == old(op).(pc := FTerminate)
    {
      assert Stands(World());
      ok := status.DoneText?;
      faults := faults + (if ok then 0 else 1);
      Moved(World(), Go, 0);
    }

    /** The process becomes `vllm_process`; its image is removed. */
    method ConsumeImage(pid: int) returns (ok: bool)
      requires Inside() && op.pc.RAdopt? && op.restored == pid && slot.Holds? && !op.outcome.Restored?
      modifies this`mode, this`reapers, this`status, this`engines, this`past, this`sys, this`trail
      modifies this`op, this`slot, this`vllm, this`faults
      ensures Inside() && |engines| == |old(engines)|
      ensures op.pc == (if ok then ZMarker else FTerminate) && (op.outcome.Restored? <==> ok)
      ensures op.restored == pid == vllm && faults >= old(faults) && (!ok ==> faults > old(faults))
      ensures ok ==> slot.Absent? && past.consumed == old(past.consumed) + {old(slot).img}
      ensures !ok ==> slot == old(slot) && past.consumed == old(past.consumed)
    {
      Adopt(pid);
      ok := RemoveImage();
      if ok {
        SetRestoreState(Running);
      }
    }

    method Adopt(pid: int)
      requires Inside() && op.pc.RAdopt? && op.restored == pid
      modifies this`mode, this`reapers, this`status, this`engines, this`past, this`sys, this`trail
      modifies this`op, this`vllm
      ensures Inside() && |engines| == |old(engines)|
      ensures op == old(op).(pc := RConsume) && past.consumed == old(past.consumed) && vllm == pid
    {
      Yield();
      ghost var w := World();
      assert Stands(w);
      vllm := pid;
      Moved(w, Go, 0);
    }

    method RemoveImage() returns (ok: bool)
      requires Inside() && op.pc.RConsume? && slot.Holds?
      modifies this`mode, this`reapers, this`status, this`engines, this`past, this`sys, this`trail
      modifies this`op, this`slot, this`faults
      ensures Inside() && |engines| == |old(engines)| && op == old(op).(pc := if ok then RFinish else FTerminate)
      ensures faults >= old(faults) && (!ok ==> faults > old(faults))
      ensures ok ==> slot.Absent? && past.consumed == old(past.consumed) + {old(slot).img}
      ensures !ok ==> slot == old(slot) && past.consumed == old(past.consumed)
    {
      Yield();
      ok := Try();
      if ok {
        UseUpImage();
      } else {
        RaisedInRestore();
      }
    }

    method UseUpImage()
      requires Inside() && op.pc.RConsume? && slot.Holds?
      modifies this`past, this`sys, this`trail, this`op, this`slot
      ensures Inside() && op == old(op).(pc := RFinish) && slot.Absent?
      ensures past == old(past).(consumed := old(past).consumed + {old(slot).img})
    {
      ghost var w := World();
      assert Stands(w);
      slot, past := Absent, past.(consumed := past.consumed + {slot.img});
      Moved(w, Go, 0);
    }

    /** The except block: kill what was restored, then try a cold process if so configured. */
    method RestoreExcept(pid: int, stamp: nat) returns (r: ResumeReply)
      requires Inside() && op.pc.FTerminate? && op.restored == pid
      modifies this`mode, this`reapers, this`status, this`engines, this`past, this`sys, this`trail
      modifies this`op, this`marker, this`slot, this`archives, this`vllm, this`cuda, this`memory, this`faults
      ensures Inside() && op.pc.ZMarker? && op.outcome == (if r.FellBack? then Fallback else Raised)
      ensures r.FellBack? ==> r.pid == |old(engines)| == |engines| - 1 && cuda[r.pid].CudaRunning? && memory[r.pid] == RESIDENT
      ensures (r.FellBack? && c.fallback && r.pid == vllm) || r.ResumeFailed?
      ensures faults >= old(faults) && (r.ResumeFailed? && c.fallback ==> faults > old(faults))
      ensures past.consumed == old(past.consumed) && SameOrArchived(old(slot), old(archives), stamp)
      ensures pid < |old(engines)| ==> Gone(engines, pid)
    {
      TerminateTree(pid);
      var ok := false;
      r := ResumeFailed;
      if c.fallback {
        ok := FallBack(stamp);
      }
      if ok {
        r := FellBack(vllm);
      } else {
        SetRestoreState(Checkpointed);
      }
    }

    method FallBack(stamp: nat) returns (ok: bool)
      requires Inside() && op.pc.FUnlinkMarker?
      modifies this`mode, this`reapers, this`status, this`engines, this`past, this`sys, this`trail
      modifies this`op, this`marker, this`slot, this`archives, this`vllm, this`cuda, this`memory, this`faults
      ensures Inside() && op.pc == (if ok then ZMarker else FGiveUp) && (ok ==> op.outcome.Fallback?)
      ensures ok ==> vllm == |old(engines)| == |engines| - 1 && cuda[vllm].CudaRunning? && memory[vllm] == RESIDENT
      ensures faults >= old(faults) && (!ok ==> faults > old(faults))
      ensures past.consumed == old(past.consumed) && SameOrArchived(old(slot), old(archives), stamp)
      ensures forall p :: p < |old(engines)| && Gone(old(engines), p) ==> Gone(engines, p)
    {
      ok := MakeRoom(stamp);
      if ok {
        ok := StartCold();
      }
    }

    method TerminateTree(pid: int)
      requires Inside() && op.pc.FTerminate? && op.restored == pid
      modifies this`mode, this`reapers, this`status, this`engines, this`past, this`sys, this`trail, this`op
      ensures Inside() && op == old(op).(pc := if c.fallback then FUnlinkMarker else FGiveUp)
      ensures past.consumed == old(past.consumed)
      ensures |engines| == |old(engines)| && Gone(engines, pid)
    {
      Yield();
      KillTree(pid);
    }

    method KillTree(pid: int)
      requires Inside() && op.pc.FTerminate? && op.restored == pid
      modifies this`engines, this`sys, this`trail, this`op
      ensures Inside() && op == old(op).(pc := if c.fallback then FUnlinkMarker else FGiveUp)
      ensures |engines| == |old(engines)| && Gone(engines, pid)
    {
      ghost var w := World();
      assert Stands(w);
      if 0 <= pid < |engines| {
        engines := engines[pid := engines[pid].(alive := false)];
      }
      Moved(w, Go, 0);
    }

    /** Remove the request files and archive the image. */
    method MakeRoom(stamp: nat) returns (ok: bool)
      requires Inside() && op.pc.FUnlinkMarker?
      modifies this`mode, this`reapers, this`status, this`engines, this`past, this`sys, this`trail
      modifies this`op, this`marker, this`slot, this`archives, this`faults
      ensures Inside() && |engines| == |old(engines)| && op == old(op).(pc := if ok then FStart else FGiveUp) && !marker
      ensures faults >= old(faults) && (!ok ==> faults > old(faults))
      ensures past.consumed == old(past.consumed) && SameOrArchived(old(slot), old(archives), stamp)
      ensures forall p :: p < |old(engines)| && Gone(old(engines), p) ==> Gone(engines, p)
    {
      UnlinkMarker();
      UnlinkStatus();
      ok := Try();
      if ok {
        ArchiveFailedCheckpoint(stamp);
      } else {
        RaisedInRestore();
      }
    }

    /** `_archive_failed_checkpoint`. */
    method ArchiveFailedCheckpoint(stamp: nat)
      requires Inside() && op.pc.FArchive?
      modifies this`mode, this`reapers, this`status, this`engines, this`past, this`sys, this`trail
      modifies this`op, this`slot, this`archives
      ensures Inside() && |engines| == |old(engines)| && op == old(op).(pc := FStart) && past.consumed == old(past.consumed)
      ensures slot.Absent?
      ensures !old(slot).Holds? ==> archives == old(archives)
      ensures old(slot).Holds? ==>
        && FirstFree(old(archives), stamp) !in old(archives)
        && archives == old(archives)[FirstFree(old(archives), stamp) := old(slot).img]
      ensures forall p :: p < |old(engines)| && Gone(old(engines), p) ==> Gone(engines, p)
    {
      Yield();
      MoveAway(stamp);
    }

    method MoveAway(stamp: nat)
      requires Inside() && op.pc.FArchive?
      modifies this`op, this`sys, this`trail, this`slot, this`archives
      ensures Inside() && op == old(op).(pc := FStart) && slot.Absent?
      ensures archives == if old(slot).Holds? then old(archives)[FirstFree(old(archives), stamp) := old(slot).img]
                          else old(archives)
    {
      ghost var w := World();
      assert Stands(w);
      if slot.Holds? {
        var name := FreeName(stamp);
        archives := archives[name := slot.img];
      }
      slot := Absent;
      Moved(w, Go, stamp);
    }

    /** The search for a name: the bare stamp, then `-1`, `-2`, ... */
    method FreeName(stamp: nat) returns (name: Name)
      ensures name == FirstFree(archives, stamp)
    {
      name := Name(stamp, 0);
      var suffix := 1;
      while name in archives
        invariant suffix >= 1 && name == Name(stamp, suffix - 1)
        invariant forall k: nat :: k < suffix - 1 ==> Name(stamp, k) in archives
        decreases |archives| + 1 - suffix
      {
        TakenNamesAreFew(archives, stamp, suffix);
        name := Name(stamp, suffix);
        suffix := suffix + 1;
      }
      FreeNameIsUnique(archives, stamp, suffix - 1, FirstFree(archives, stamp).suffix);
    }

    /** `start_vllm` and the wait for its API; a process that is not ready in time is told to end. */
    method StartCold() returns (ok: bool)
      requires Inside() && op.pc.FStart? && !marker
      modifies this`mode, this`reapers, this`status, this`engines, this`past, this`sys, this`trail
      modifies this`op, this`vllm, this`cuda, this`memory, this`faults
      ensures Inside() && op.pc == (if ok then ZMarker else FGiveUp) && (ok ==> op.outcome.Fallback?)
      ensures ok ==> vllm == |old(engines)| == |engines| - 1 && cuda[vllm].CudaRunning? && memory[vllm] == RESIDENT
      ensures faults >= old(faults) && (!ok ==> faults > old(faults))
      ensures past.consumed == old(past.consumed)
      ensures forall p :: p < |old(engines)| && Gone(old(engines), p) ==> Gone(engines, p)
    {
      ok := Launch();
      if ok {
        ok := AwaitCold();
      }
    }

    method Launch() returns (ok: bool)
      requires Inside() && op.pc.FStart? && !marker
      modifies this`mode, this`reapers, this`status, this`engines, this`past, this`sys, this`trail
      modifies this`op, this`vllm, this`cuda, this`memory, this`faults
      ensures Inside() && op == old(op).(pc := if ok then FReady else FGiveUp) && past.consumed == old(past.consumed)
      ensures ok ==> vllm == |old(engines)| == |engines| - 1 && cuda[vllm].CudaRunning? && memory[vllm] == RESIDENT
      ensures faults >= old(faults) && (!ok ==> faults > old(faults))
      ensures forall p :: p < |old(engines)| && Gone(old(engines), p) ==> Gone(engines, p)
    {
      Yield();
      ghost var w := World();
      assert Stands(w);
      ok := Try();
      if ok {
        Spawn();
      } else {
        RaisedInRestore();
      }
    }

    /** `start_vllm`. */
    method LaunchVllm()
      requires |cuda| == |engines| == |memory|
      modifies this`mode, this`engines, this`past, this`vllm, this`cuda, this`memory
      ensures World() == StartVllm(old(World())) && |cuda| == |engines| == |memory|
      ensures vllm == |old(engines)| && engines == old(engines) + [FRESH_ENGINE] && mode.Running?
      ensures cuda == old(cuda) + [CudaRunning] && memory == old(memory) + [RESIDENT]
    {
      vllm, engines, cuda, memory := |engines|, engines + [FRESH_ENGINE], cuda + [CudaRunning], memory + [RESIDENT];
      mode, past := Running, past.(stranded := false);
    }

    method Spawn()
      requires Inside() && op.pc.FStart?
      modifies this`mode, this`engines, this`past, this`sys, this`trail, this`op, this`vllm, this`cuda, this`memory
      ensures Inside() && op == old(op).(pc := FReady) && past.consumed == old(past.consumed)
      ensures vllm == |old(engines)| && engines == old(engines) + [FRESH_ENGINE] && cuda == old(cuda) + [CudaRunning]
      ensures memory == old(memory) + [RESIDENT]
      ensures forall p :: p < |old(engines)| && Gone(old(engines), p) ==> Gone(engines, p)
    {
      ghost var w := World();
      assert Stands(w);
      LaunchVllm();
      StartsVllm(c, w, op);
      Moved(w, Go, 0);
    }

    method AwaitCold() returns (ok: bool)
      requires Inside() && op.pc.FReady?
      modifies this`mode, this`reapers, this`status, this`engines, this`past, this`sys, this`trail, this`op, this`faults
      ensures vllm == old(vllm)
      ensures Inside() && |engines| == |old(engines)|
      ensures op.pc == (if ok then ZMarker else FGiveUp) && (ok ==> op.outcome.Fallback?)
      ensures faults >= old(faults) && (!ok ==> faults > old(faults))
      ensures past.consumed == old(past.consumed)
      ensures forall p :: p < |old(engines)| && Gone(old(engines), p) ==> Gone(engines, p)
    {
      ghost var w := World();
      assert Stands(w);
      ok := Try();
      if ok {
        SetRestoreState(Running);
      } else {
        RaisedInRestore();
      }
    }

    // ----- main --------------------------------------------------------------------------------------------

    /** `main` up to the control server: clear the request files, resume the image if so configured, and start vLLM
        if that did not give one.  Without a vLLM process it does not serve. */
    method Start(stamp: nat) returns (serves: bool)
      requires Valid() && boot.BUnlinkMarker? && !lock
      modifies this
      ensures Valid() && (serves ==> boot.Serving? && !lock && sys.threads == map[])
      // It serves unless something fails, and then there is a vLLM process.
      ensures !serves ==> faults > old(faults)
      ensures serves ==> 0 <= vllm < |engines| && mode in {Running, Failed, Stopped}
      ensures c.resumeOnStart && old(slot).Holds? && faults == old(faults) ==>
        slot.Absent? && vllm == |old(engines)| && past.consumed == old(past.consumed) + {old(slot).img}
      ensures !(c.resumeOnStart && old(slot).Holds?) ==>
        slot == old(slot) && archives == old(archives) && calls == old(calls) && !marker
      ensures past.consumed == old(past.consumed) || past.consumed == old(past.consumed) + InSlot(old(World()))
    {
      ClearRequest();
      serves := false;
      if c.resumeOnStart && slot.Holds? {
        serves := ResumeAtStart(stamp);
      } else {
        SkipResume();
      }
      if !serves {
        serves := StartVllmProcess();
      }
    }

    method ClearRequest()
      requires Valid() && boot.BUnlinkMarker? && !lock
      modifies this`marker, this`status, this`boot, this`sys, this`trail
      ensures Valid() && boot.BDecide? && !marker
    {
      assert Stands(World());
      marker, boot := false, BUnlinkStatus;
      Did(BootStep(true));
      status, boot := NoStatus, BDecide;
      Did(BootStep(true));
    }

    ghost method SkipResume()
      requires Valid() && boot.BDecide? && !lock && !(c.resumeOnStart && slot.Holds?)
      modifies this`boot, this`sys, this`trail
      ensures Valid() && boot.BStart?
    {
      assert Stands(World());
      boot := BStart;
      Did(BootStep(true));
    }

    /** `set_state("checkpointed")` and `restore_vllm()`, whose exception is caught. */
    method ResumeAtStart(stamp: nat) returns (ok: bool)
      requires Valid() && boot.BDecide? && !lock && c.resumeOnStart && slot.Holds?
      modifies this
      ensures Valid() && !lock && boot == (if ok then Serving else BStart) && sys.threads == map[]
      ensures faults >= old(faults) && (!ok ==> faults > old(faults))
      ensures ok ==> 0 <= vllm < |engines| && mode in {Running, Failed, Stopped}
      ensures faults == old(faults) ==>
        ok && slot.Absent? && vllm == |old(engines)| && past.consumed == old(past.consumed) + {old(slot).img}
      ensures past.consumed == old(past.consumed) || past.consumed == old(past.consumed) + {old(slot).img}
    {
      EnterAtStart();
      var r := RestoreLocked(stamp);
      Release();
      ok := !r.ResumeFailed?;
    }

    method EnterAtStart()
      requires Valid() && boot.BDecide? && !lock && c.resumeOnStart && slot.Holds?
      modifies this`mode, this`past, this`lock, this`me, this`op, this`boot, this`sys, this`trail
      ensures Inside() && boot.BJoin? && op == NewOp(World(), Resume) && past == old(past).(stranded := false)
      ensures mode.Checkpointed?
    {
      ghost var w := World();
      assert Stands(w);
      mode, past := Checkpointed, past.(stranded := false);
      assert World() == WithMode(w, Checkpointed);
      Join(w);
    }

    method Join(ghost w: World)
      requires Stands(w) && boot.BDecide? && !lock && c.resumeOnStart && w.disk.slot.Holds?
      requires World() == WithMode(w, Checkpointed) && |cuda| == |engines| == |memory|
      modifies this`lock, this`me, this`op, this`boot, this`sys, this`trail
      ensures Inside() && boot.BJoin? && op == NewOp(World(), Resume)
    {
      JoinsAtStart(c, sys);
      lock, me, op, boot := true, MAIN, NewOp(World(), Resume), BJoin;
      Did(BootStep(true));
      assert Stands(World());
    }

    /** `start_vllm`; if it raises, the container ends. */
    method StartVllmProcess() returns (ok: bool)
      requires Valid() && boot.BStart? && !lock
      modifies this
      ensures Valid() && !lock && sys.threads == map[] && (ok ==> boot.Serving?)
      ensures slot == old(slot) && archives == old(archives) && marker == old(marker) && calls == old(calls)
      ensures past.consumed == old(past.consumed)
      ensures ok ==> 0 <= vllm < |engines| && engines[vllm] == FRESH_ENGINE && mode.Running?
      ensures faults == old(faults) + if ok then 0 else 1
    {
      Yield();
      ok := Try();
      if ok {
        ServeCold();
      } else {
        EndContainer();
      }
    }

    method ServeCold()
      requires Valid() && boot.BStart? && !lock
      modifies this`mode, this`vllm, this`engines, this`cuda, this`memory, this`past, this`boot, this`sys, this`trail
      ensures Valid() && boot.Serving? && sys.threads == map[] && past == old(past).(stranded := false) && mode.Running?
      ensures vllm == |old(engines)| && engines == old(engines) + [FRESH_ENGINE]
    {
      ghost var w := World();
      assert Stands(w);
      LaunchVllm();
      Served(w);
    }

    method EndContainer()
      requires Valid() && boot.BStart? && !lock
      modifies this`mode, this`vllm, this`engines, this`past, this`reapers, this`boot, this`sys, this`trail
      ensures Valid() && sys.threads == map[] && past == old(past).(stranded := false)
    {
      ghost var w := World();
      assert Stands(w);
      mode, vllm, engines, past := Starting, -1, KillAll(engines), past.(stranded := false);
      assert World() == ApplyCrash(sys).w;
      Crash(w);
    }

    ghost method Served(w: World)
      requires Stands(w) && boot.BStart? && !lock && World() == StartVllm(w) && |cuda| == |engines| == |memory|
      modifies this`boot, this`sys, this`trail
      ensures Valid() && boot.Serving? && sys.threads == map[]
    {
      boot := Serving;
      Did(BootStep(true));
      assert Stands(StartVllm(w));
    }

    method Crash(ghost w: World)
      requires Stands(w) && boot.BStart? && !lock && World() == ApplyCrash(sys).w && |cuda| == |engines| == |memory|
      modifies this`reapers, this`boot, this`sys, this`trail
      ensures Valid() && sys.threads == map[]
    {
      reapers, boot := {}, BUnlinkMarker;
      Did(BootStep(false));
      assert Stands(World());
    }
  }
}
