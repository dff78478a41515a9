/** The suspend/restore protocol as a transition system.

    Two kinds of process take part: the launcher, whose request threads run `checkpoint_vllm` and
    `restore_vllm`, and the EngineCore processes, each of which may run any number of local-restore attempts.
    They share a directory (image slot, archives, request and pending markers, status file) that outlives a
    container crash.  `Apply` is total: an event that cannot happen in a state leaves the state unchanged, so
    every sequence of events is a run. */
module Protocol {

  // ----- The EngineCore side -------------------------------------------------------------------------------

  datatype Stage =
    | CheckpointRestore | Reinitialize | ReloadWeights | WakeKvCache
    | PreserveGraphs | CaptureGraphs | DisableGraphs
    | ResumeServing

  /** One executed stage; `epoch` is the number of CUDA restores the launcher had completed by then. */
  datatype Entry = Entry(stage: Stage, epoch: nat)

  /** Tested: past the test at the head of `run_local_restore`.  Announced: `done` is written, the completion
      flag is not yet set. */
  datatype AttemptPc = Tested | Working | Announced | Ended

  datatype Attempt = Attempt(pc: AttemptPc, log: seq<Entry>) {
    predicate Mid() { pc.Tested? || pc.Working? }
  }

  /** A process tree.  CRIU images hold such a value: restoring one brings back the flags and the
      attempts that were in it when it was dumped. */
  datatype Engine = Engine(alive: bool, complete: bool, busy: bool, attempts: seq<Attempt>) {
    predicate HasMid() { exists i :: 0 <= i < |attempts| && attempts[i].Mid() }

    /** While it lives it may yet write `done`: an attempt is under way, or one may start. */
    predicate CanAnswer() { HasMid() || (!complete && !busy) }
  }

  const FRESH_ENGINE := Engine(true, false, false, [])

  datatype Config = Config(
    sleepLevel: nat, fallback: bool, resumeOnStart: bool,
    nativeWake: bool, restoreGraphs: bool, preserveGraphs: bool)
  {
    /** The stages one attempt has to run, in order. */
    function Plan(): seq<Stage> {
      [CheckpointRestore, Reinitialize, ReloadWeights]
      + (if nativeWake then [WakeKvCache] else [])
      + [if restoreGraphs && preserveGraphs then PreserveGraphs
         else if restoreGraphs then CaptureGraphs
         else DisableGraphs]
      + [ResumeServing]
    }
  }

  // ----- The shared directory ------------------------------------------------------------------------------

  /** The image slot: no directory, an empty directory, or a directory holding one image. */
  datatype Slot = Absent | Empty | Holds(img: nat)

  /** What a reader of the status file can tell apart. */
  datatype Status = NoStatus | StageText | FailedText | DoneText

  /** `<slot>.stale-failed-<stamp>` when `suffix` is 0, else `<slot>.stale-failed-<stamp>-<suffix>`. */
  datatype Name = Name(stamp: nat, suffix: nat)

  ghost predicate FreeAt(archives: map<Name, nat>, stamp: nat, suffix: nat) {
    && Name(stamp, suffix) !in archives
    && forall k: nat :: k < suffix ==> Name(stamp, k) in archives
  }

  // ----- The launcher side ---------------------------------------------------------------------------------

  datatype Mode = Starting | Running | Checkpointing | Checkpointed | Restoring | Failed | Stopped

  datatype Pc =
    // checkpoint_vllm
    | SCheck | SWork | SDump | SRmdir | SRename | SFinish | SFail | SRelease
    // restore_vllm, the try block
    | RCheck | RUnlinkMarker | RUnlinkPending | RUnlinkStatus | RAnnounce | RPend | RCriu | RCuda | RTouch
    | RReady | RWait | RAdopt | RConsume | RFinish
    // its except block
    | FTerminate | FUnlinkMarker | FUnlinkStatus | FArchive | FStart | FReady | FGiveUp
    // its finally block
    | ZMarker | ZPending | ZRelease

  datatype Outcome = Undecided | Restored | Fallback | Raised

  /** A thread inside an operation body.  `past` records history for stating theorems; no step reads it. */
  datatype Op = Op(pc: Pc, restored: int, image: nat, outcome: Outcome, past: OpPast)

  /** What the operation found when it took the lock (`slot0`, the number `base` of processes, whether it was
      `clean` and `alone`, that is, without a rival), its CUDA restore, and the attempt whose `done` it read. */
  datatype OpPast = OpPast(
    slot0: Slot, base: nat, clean: bool, alone: bool, cudaDone: bool, epoch: nat, seen: Witness)

  datatype Witness = Witness(engine: nat, attempt: nat)

  datatype Boot = BUnlinkMarker | BUnlinkStatus | BDecide | BJoin | BStart | Serving

  datatype Disk = Disk(slot: Slot, archives: map<Name, nat>, marker: bool, pending: bool, status: Status)

  /** Everything but the launcher's control state: `mode` and `vllm` are its globals `state` and
      `vllm_process`, `images` are the dumps ever made. */
  datatype World = World(
    disk: Disk, mode: Mode, vllm: int, engines: seq<Engine>, images: seq<Engine>, past: Past)

  /** History: images put into the slot and images used up, CUDA restores so far, the last writer of `done`,
      and whether `mode` is a `checkpointing` that a failed cleanup left behind. */
  datatype Past = Past(published: set<nat>, consumed: set<nat>, epoch: nat, doneBy: Witness, stranded: bool)

  /** `lock` is `operation_lock`; `threads` are the threads inside a body; `reapers` are the reaper threads
      between their test of `state` and their write to it. */
  datatype State = State(w: World, boot: Boot, lock: bool, threads: map<nat, Op>, reapers: set<nat>)

  /** The thread that runs `main`. */
  const MAIN: nat := 0

  datatype Kind = Suspend | Resume

  /** Go: the step's command succeeds.  Fault: it fails and raises.  Half: CRIU restore leaves a live tree
      behind and still raises. */
  datatype Choice = Go | Fault | Half

  /** Stick: a file cannot be unlinked before the stages, and the exception leaves the busy flag set.  Lapse: the verdict
      cannot be written, which may have emptied the file. */
  datatype EngineEvent =
    | Die
    | Test
    | Claim(i: nat)
    | Stick(i: nat, wiped: bool)
    | WriteStage(i: nat)
    | RunStage(i: nat)
    | Abort(i: nat)
    | Lapse(i: nat, wiped: bool)
    | Announce(i: nat)
    | Settle(i: nat)

  datatype Event =
    | Crash
    | BootStep(go: bool)
    | Begin(t: nat, kind: Kind)
    | Step(t: nat, choice: Choice, stamp: nat)
    | ReapRead(r: nat)
    | ReapWrite(r: nat, code: bool)
    | Inside(p: nat, e: EngineEvent)

  predicate Live(w: World, p: int) { 0 <= p < |w.engines| && w.engines[p].alive }

  // ----- Small changes -------------------------------------------------------------------------------------

  function WithSlot(w: World, slot: Slot): World { w.(disk := w.disk.(slot := slot)) }

  function WithMarker(w: World, marker: bool): World { w.(disk := w.disk.(marker := marker)) }

  function WithPending(w: World, pending: bool): World { w.(disk := w.disk.(pending := pending)) }

  function WithStatus(w: World, status: Status): World { w.(disk := w.disk.(status := status)) }

  /** `set_state`. */
  function WithMode(w: World, mode: Mode): World { w.(mode := mode, past := w.past.(stranded := false)) }

  function WithEngine(w: World, p: int, g: Engine): World
    requires 0 <= p < |w.engines|
  {
    w.(engines := w.engines[p := g])
  }

  function Kill(w: World, p: int): World {
    if 0 <= p < |w.engines| then WithEngine(w, p, w.engines[p].(alive := false)) else w
  }

  function KillAll(engines: seq<Engine>): (r: seq<Engine>)
    ensures |r| == |engines|
    ensures forall p :: 0 <= p < |r| ==> r[p] == engines[p].(alive := false)
  {
    seq(|engines|, p requires 0 <= p < |engines| => engines[p].(alive := false))
  }

  /** `start_vllm`: a cold process and `state = running`. */
  function StartVllm(w: World): World {
    WithMode(w.(engines := w.engines + [FRESH_ENGINE], vllm := |w.engines|), Running)
  }

  // ----- The bodies of the two operations ------------------------------------------------------------------

  datatype Section = Suspending | Reviving | Recovering | Failing | Closing

  function SectionOf(pc: Pc): Section {
    match pc
    case SCheck | SWork | SDump | SRmdir | SRename | SFinish | SFail | SRelease => Suspending
    case RCheck | RUnlinkMarker | RUnlinkPending | RUnlinkStatus | RAnnounce | RPend | RCriu | RCuda => Reviving
    case RTouch | RReady | RWait | RAdopt | RConsume | RFinish => Recovering
    case FTerminate | FUnlinkMarker | FUnlinkStatus | FArchive | FStart | FReady | FGiveUp => Failing
    case ZMarker | ZPending | ZRelease => Closing
  }

  /** One step of a body that does not leave it. */
  function BodyStep(c: Config, w: World, o: Op, ch: Choice, stamp: nat): (World, Op) {
    match SectionOf(o.pc)
    case Suspending => SuspendStep(w, o, ch)
    case Reviving => ReviveStep(w, o, ch)
    case Recovering => RecoverStep(c, w, o, ch)
    case Failing => FailStep(c, w, o, ch, stamp)
    case Closing => CloseStep(w, o)
  }

  function SuspendStep(w: World, o: Op, ch: Choice): (World, Op) {
    match o.pc
    case SCheck =>
      (w, o.(pc := if ch.Go? && !w.disk.slot.Holds? && Live(w, w.vllm) then SWork else SFail))
    case SWork =>
      if ch.Go? then (WithMode(w, Checkpointing), o.(pc := SDump)) else (w, o.(pc := SFail))
    case SDump =>
      if ch.Go? && Live(w, w.vllm)
      then (Kill(w, w.vllm).(images := w.images + [w.engines[w.vllm].(alive := false)]),
            o.(pc := SRmdir, image := |w.images|))
      else (w, o.(pc := SFail))
    case SRmdir =>
      if ch.Go? then (if w.disk.slot.Empty? then WithSlot(w, Absent) else w, o.(pc := SRename))
      else (w, o.(pc := SFail))
    case SRename =>
      if ch.Go? then (WithSlot(w, Holds(o.image)).(past := w.past.(published := w.past.published + {o.image})), o.(pc := SFinish))
      else (w, o.(pc := SFail))
    case SFinish => (WithMode(w, Checkpointed), o.(pc := SRelease))
    case SFail =>
      // A fault here is a failing cleanup of the staging directory: it skips `set_state`.
      if ch.Go? then (WithMode(w, Running), o.(pc := SRelease))
      else (w.(past := w.past.(stranded := w.mode.Checkpointing?)), o.(pc := SRelease))
    case _ => (w, o)
  }

  /** `restore_vllm` up to the return of `cuda.restore_if_needed`. */
  function ReviveStep(w: World, o: Op, ch: Choice): (World, Op) {
    match o.pc
    case RCheck => (w, o.(pc := if w.disk.slot.Holds? then RUnlinkMarker else FTerminate))
    case RUnlinkMarker => (WithMarker(w, false), o.(pc := RUnlinkPending))
    case RUnlinkPending => (WithPending(w, false), o.(pc := RUnlinkStatus))
    case RUnlinkStatus => (WithStatus(w, NoStatus), o.(pc := RAnnounce))
    case RAnnounce => (WithMode(w, Restoring), o.(pc := RPend))
    case RPend => if ch.Go? then (WithPending(w, true), o.(pc := RCriu)) else (w, o.(pc := FTerminate))
    case RCriu =>
      if ch.Fault? || !w.disk.slot.Holds? || w.disk.slot.img >= |w.images| then (w, o.(pc := FTerminate))
      else
        (w.(engines := w.engines + [w.images[w.disk.slot.img].(alive := true)]),
         if ch.Half? then o.(pc := FTerminate) else o.(pc := RCuda, restored := |w.engines|))
    case _ =>
      if ch.Go? then 
        (w.(past := w.past.(epoch := w.past.epoch + 1)),
         o.(pc := RTouch, past := o.past.(cudaDone := true, epoch := w.past.epoch + 1)))
      else (w, o.(pc := FTerminate))
  }

  /** The rest of its try block. */
  function RecoverStep(c: Config, w: World, o: Op, ch: Choice): (World, Op) {
    match o.pc
    case RTouch => (WithMarker(w, true), o.(pc := RReady))
    case RReady => (w, o.(pc := if !ch.Go? then FTerminate else if c.sleepLevel != 0 then RWait else RAdopt))
    case RWait =>
      (w, if ch.Fault? || w.disk.status.FailedText? then o.(pc := FTerminate)
          else if w.disk.status.DoneText? then o.(pc := RAdopt, past := o.past.(seen := w.past.doneBy))
          else o)
    case RAdopt => (w.(vllm := o.restored), o.(pc := RConsume))
    case RConsume =>
      if ch.Go? && w.disk.slot.Holds?
      then (WithSlot(w, Absent).(past := w.past.(consumed := w.past.consumed + {w.disk.slot.img})), o.(pc := RFinish))
      else (w, o.(pc := FTerminate))
    case _ => (WithMode(w, Running), o.(pc := ZMarker, outcome := Restored))
  }

  /** Its except block. */
  function FailStep(c: Config, w: World, o: Op, ch: Choice, stamp: nat): (World, Op) {
    match o.pc
    case FTerminate => (Kill(w, o.restored), o.(pc := if c.fallback then FUnlinkMarker else FGiveUp))
    case FUnlinkMarker => (WithMarker(w, false), o.(pc := FUnlinkStatus))
    case FUnlinkStatus => (WithStatus(w, NoStatus), o.(pc := FArchive))
    case FArchive => if ch.Go? then (Archive(w, stamp), o.(pc := FStart)) else (w, o.(pc := FGiveUp))
    case FStart => if ch.Go? then (StartVllm(w), o.(pc := FReady)) else (w, o.(pc := FGiveUp))
    case FReady =>
      if ch.Go? then (WithMode(w, Running), o.(pc := ZMarker, outcome := Fallback)) else (w, o.(pc := FGiveUp))
    case _ => (WithMode(w, Checkpointed), o.(pc := ZMarker, outcome := Raised))
  }

  /** Its finally block. */
  function CloseStep(w: World, o: Op): (World, Op) {
    match o.pc
    case ZMarker => (WithMarker(w, false), o.(pc := ZPending))
    case ZPending => (WithPending(w, false), o.(pc := ZRelease))
    case _ => (w, o)
  }

  /** `_archive_failed_checkpoint`: move the image to the first free name of this second. */
  function Archive(w: World, stamp: nat): World {
    if w.disk.slot.Holds?
    then w.(disk := w.disk.(archives := w.disk.archives[FirstFree(w.disk.archives, stamp) := w.disk.slot.img],
                            slot := Absent))
    else WithSlot(w, Absent)
  }

  function FirstFree(archives: map<Name, nat>, stamp: nat): (n: Name)
    ensures n.stamp == stamp && FreeAt(archives, stamp, n.suffix)
  {
    FirstFreeFrom(archives, stamp, 0)
  }

  function FirstFreeFrom(archives: map<Name, nat>, stamp: nat, k: nat): (n: Name)
    requires forall i: nat :: i < k ==> Name(stamp, i) in archives
    ensures n.stamp == stamp && FreeAt(archives, stamp, n.suffix)
    decreases |archives| - k
  {
    TakenNamesAreFew(archives, stamp, k);
    if Name(stamp, k) !in archives then Name(stamp, k)
    else TakenNamesAreFew(archives, stamp, k + 1); FirstFreeFrom(archives, stamp, k + 1)
  }

  // ----- The EngineCore process ----------------------------------------------------------------------------

  predicate Has(g: Engine, i: nat, pc: AttemptPc) { i < |g.attempts| && g.attempts[i].pc == pc }

  function Move(g: Engine, i: nat, pc: AttemptPc): Engine
    requires i < |g.attempts|
  {
    g.(attempts := g.attempts[i := g.attempts[i].(pc := pc)])
  }

  /** `run_local_restore` and the code that triggers it, inside process `p`. */
  function EngineStep(c: Config, w: World, p: nat, e: EngineEvent): World {
    if !Live(w, p) then w else
    var g := w.engines[p];
    match e
    case Die => Kill(w, p)
    case Test =>
      if !g.complete && !g.busy && w.disk.marker
      then WithEngine(w, p, g.(attempts := g.attempts + [Attempt(Tested, [])])) else w
    case Claim(i) =>
      if Has(g, i, Tested) then WithEngine(WithStatus(w, NoStatus), p, Move(g, i, Working).(busy := true)) else w
    case Stick(i, wiped) =>
      if Has(g, i, Tested)
      then WithEngine(if wiped then WithStatus(w, NoStatus) else w, p, Move(g, i, Ended).(busy := true)) else w
    case WriteStage(i) => if Has(g, i, Working) then WithStatus(w, StageText) else w
    case RunStage(i) =>
      if Has(g, i, Working) && |g.attempts[i].log| < |c.Plan()|
      then
        var a := g.attempts[i];
        var next := Entry(c.Plan()[|a.log|], w.past.epoch);
        WithEngine(w, p, g.(attempts := g.attempts[i := a.(log := a.log + [next])]))
      else w
    case Abort(i) =>
      if Has(g, i, Working) then WithEngine(WithStatus(w, FailedText), p, Move(g, i, Ended).(busy := false)) else w
    case Lapse(i, wiped) =>
      if Has(g, i, Working)
      then WithEngine(if wiped then WithStatus(w, NoStatus) else w, p, Move(g, i, Ended).(busy := false)) else w
    case Announce(i) =>
      if Has(g, i, Working) && |g.attempts[i].log| == |c.Plan()|
      then WithEngine(WithStatus(w, DoneText), p, Move(g, i, Announced)).(past := w.past.(doneBy := Witness(p, i))) else w
    case Settle(i) =>
      if Has(g, i, Announced) then WithEngine(w, p, Move(g, i, Ended).(busy := false, complete := true)) else w
  }

  // ----- The whole system ----------------------------------------------------------------------------------

  function Apply(c: Config, s: State, e: Event): State {
    match e
    case Crash => ApplyCrash(s)
    case BootStep(go) => ApplyBoot(c, s, go)
    case Begin(t, kind) => if s.boot.Serving? then Enter(s, t, kind) else s
    case Step(t, ch, stamp) => if t in s.threads then ThreadStep(c, s, t, ch, stamp) else s
    case ReapRead(r) =>
      if s.w.mode in {Checkpointing, Checkpointed, Restoring} then s else s.(reapers := s.reapers + {r})
    case ReapWrite(r, code) =>
      if r !in s.reapers then s
      else s.(reapers := s.reapers - {r}, w := WithMode(s.w, if code then Failed else Stopped))
    case Inside(p, ee) => s.(w := EngineStep(c, s.w, p, ee))
  }

  /** The non-blocking acquire in front of both bodies: a thread that loses raises before its `try`. */
  function Enter(s: State, t: nat, kind: Kind): State {
    if s.lock then s else s.(lock := true, threads := s.threads[t := NewOp(s.w, kind)])
  }

  function NewOp(w: World, kind: Kind): Op {
    Op(if kind.Suspend? then SCheck else RCheck, -1, 0, Undecided,
       OpPast(w.disk.slot, |w.engines|, Quiet(w), NoRival(w), false, 0, Witness(0, 0)))
  }

  /** No live engine, and no image in the slot, has an attempt past its test and short of its end. */
  predicate Quiet(w: World) {
    && (forall p :: 0 <= p < |w.engines| && w.engines[p].alive ==> !w.engines[p].HasMid())
    && (w.disk.slot.Holds? && w.disk.slot.img < |w.images| ==> !w.images[w.disk.slot.img].HasMid())
  }

  /** No live process may yet write `done`. */
  predicate NoRival(w: World) { forall p :: 0 <= p < |w.engines| && w.engines[p].alive ==> !w.engines[p].CanAnswer() }

  predicate Deserted(w: World) { forall p :: 0 <= p < |w.engines| ==> !w.engines[p].alive }

  function ThreadStep(c: Config, s: State, t: nat, ch: Choice, stamp: nat): State
    requires t in s.threads
  {
    var o := s.threads[t];
    if o.pc in {SRelease, ZRelease} then
      s.(lock := false, threads := s.threads - {t},
         boot := if !s.boot.BJoin? then s.boot else if o.outcome.Raised? then BStart else Serving)
    else
      var (w, o') := BodyStep(c, s.w, o, ch, stamp);
      s.(w := w, threads := s.threads[t := o'])
  }

  /** A container crash: every process is gone, the directory stays. */
  function ApplyCrash(s: State): State {
    State(s.w.(mode := Starting, vllm := -1, engines := KillAll(s.w.engines), past := s.w.past.(stranded := false)),
          BUnlinkMarker, false, map[], {})
  }

  /** `main` up to the point where the control server accepts requests. */
  function ApplyBoot(c: Config, s: State, go: bool): State {
    match s.boot
    case BUnlinkMarker => s.(w := WithMarker(s.w, false), boot := BUnlinkStatus)
    case BUnlinkStatus => s.(w := WithStatus(s.w, NoStatus), boot := BDecide)
    case BDecide =>
      if c.resumeOnStart && s.w.disk.slot.Holds?
      then Enter(s.(w := WithMode(s.w, Checkpointed), boot := BJoin), MAIN, Resume)
      else s.(boot := BStart)
    case BStart => if go then s.(w := StartVllm(s.w), boot := Serving) else ApplyCrash(s)
    case _ => s
  }

  // ----- Runs ----------------------------------------------------------------------------------------------

  function Run(c: Config, s: State, es: seq<Event>): State {
    if es == [] then s else Apply(c, Run(c, s, es[..|es| - 1]), es[|es| - 1])
  }

  /** A launcher about to start on a directory left by anyone: any slot, any archives, any stale file. */
  ghost predicate Init(c: Config, s: State) {
    && s == ApplyCrash(s) && s.w.past.epoch == 0 && s.w.engines == [] && s.w.past.consumed == {}
    && (s.w.disk.slot.Holds? ==> s.w.disk.slot.img < |s.w.images| && s.w.disk.slot.img !in s.w.disk.archives.Values)
    && (forall n :: n in s.w.disk.archives ==> s.w.disk.archives[n] < |s.w.images|)
    && Injective(s.w.disk.archives)
    && s.w.past.published == s.w.disk.archives.Values + InSlot(s.w)
    && (forall k :: 0 <= k < |s.w.images| ==> Sound(c, s.w.images[k], 0))
  }

  ghost predicate Injective(archives: map<Name, nat>) {
    forall n, m :: n in archives && m in archives && archives[n] == archives[m] ==> n == m
  }

  /** What running `run_local_restore` leaves in a process: each attempt logged a prefix of the plan, stages in
      order, at epochs that do not go back; an attempt past its last stage logged all of it. */
  ghost predicate Sound(c: Config, e: Engine, epoch: nat) {
    forall i :: 0 <= i < |e.attempts| ==> SoundAttempt(c, e.attempts[i], epoch)
  }

  ghost predicate SoundAttempt(c: Config, a: Attempt, epoch: nat) {
    && |a.log| <= |c.Plan()|
    && (a.pc.Announced? ==> |a.log| == |c.Plan()|)
    && (a.pc.Tested? ==> a.log == [])
    && (forall j :: 0 <= j < |a.log| ==> a.log[j].stage == c.Plan()[j] && a.log[j].epoch <= epoch)
    && (forall j, k :: 0 <= j < k < |a.log| ==> a.log[j].epoch <= a.log[k].epoch)
  }

  function InSlot(w: World): set<nat> { if w.disk.slot.Holds? then {w.disk.slot.img} else {} }

  // ----- Archive names -------------------------------------------------------------------------------------

  /** Names of one second that are all taken are no more than the archives there are. */
  lemma {:induction false} TakenNamesAreFew(archives: map<Name, nat>, stamp: nat, k: nat)
    requires forall i: nat :: i < k ==> Name(stamp, i) in archives
    ensures k <= |archives|
  {
    if k > 0 {
      var last := Name(stamp, k - 1);
      var rest := archives - {last};
      assert rest.Keys == archives.Keys - {last};
      TakenNamesAreFew(rest, stamp, k - 1);
    }
  }

  lemma FreeNameIsUnique(archives: map<Name, nat>, stamp: nat, j: nat, k: nat)
    requires FreeAt(archives, stamp, j) && FreeAt(archives, stamp, k)
    ensures j == k
  {
    assert j < k ==> Name(stamp, j) in archives;
    assert k < j ==> Name(stamp, k) in archives;
  }
}
