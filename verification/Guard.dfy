/** The guard in front of the API: requests, the one wake-up they share, and the idle loop, turn by turn of the event
    loop.  A turn runs from one `await` to the next without being interrupted. */
module Guard {
  import opened Wrappers

  datatype LauncherState = Starting | Running | Checkpointing | Checkpointed | Restoring | Failed | Stopped

  /** What an awaited call comes back with: a success, a failure (it throws), an answer of `/is_sleeping` (Missing:
      status 404), or the launcher's health. */
  datatype Reply = Fine | Throws | Asleep | Awake | Missing | Health(state: LauncherState, ok: bool)

  datatype Config = Config(levelTwo: bool, criu: bool)

  /** What a wake body asks of the launcher and the engine. */
  datatype Call = Resume | WakeWeights | ReloadWeights | WakeKv | WakeAll

  /** The `await` a wake body is at. */
  datatype Await = OnHealth | OnResume | OnRecovery | OnRunning | OnFirstProbe | OnWeights | OnReload | OnKv | OnWakeUp | OnProbe

  /** `restoring`: the launcher said so at the start.  `probe` is the last answer.  History: the calls made, and the
      replies heard. */
  datatype Wake = Wake(at: Await, restoring: bool, probe: Option<bool>, calls: seq<Call>, heard: seq<Reply>)

  datatype Outcome = Outcome(ok: bool, calls: seq<Call>, heard: seq<Reply>)

  const NEW_WAKE := Wake(OnHealth, false, None, [], [])

  /** A handler between the increment of `inFlight` and its `finally`; `wake` is the wake-up it awaits or awaited. */
  datatype Request = Waits(wake: Option<nat>) | Fetches(wake: Option<nat>)

  datatype Sleeper = Polls | Checks | Suspends | Posts

  /** `sleepMode`, `checkpointed`, `launcherState`. */
  datatype Flags = Flags(sleepMode: Option<bool>, checkpointed: bool, launcher: Option<LauncherState>)

  /** `wakePromise`, and the bodies that run, that are over, and that were ever started. */
  datatype Wakes = Wakes(promise: Option<nat>, bodies: map<nat, Wake>, outcomes: map<nat, Outcome>, started: nat)

  datatype State = State(flags: Flags, wakes: Wakes, inFlight: int, requests: map<nat, Request>,
                         sleepPromise: bool, sleeper: Sleeper)

  datatype Event =
    | Arrive(r: nat)
    | Settle(r: nat)              // its `await ensureAwake()` is over
    | Respond(r: nat)             // its `fetch` is over, either way
    | Turn(id: nat, reply: Reply)
    | Reconcile(reply: Reply)     // by the idle loop, or at the start
    | TrySleep
    | SleepTurn(reply: Reply)

  // ----- Probes and reconciliation -------------------------------------------------------------------------

  /** `isSleeping`: what it returns, unless it throws. */
  function Answer(reply: Reply): Option<bool> {
    match reply
    case Asleep => Some(true)
    case Awake | Missing => Some(false)
    case _ => None
  }

  function Probed(f: Flags, reply: Reply): Flags {
    match reply
    case Missing => f.(sleepMode := Some(false))
    case Asleep | Awake => f.(sleepMode := Some(true))
    case _ => f
  }

  /** `reconcileCheckpointState`. */
  function Reconciled(c: Config, f: Flags, reply: Reply): Flags {
    if !c.criu || !reply.Health? then f
    else
      f.(launcher := Some(reply.state),
         checkpointed := if reply.state.Checkpointed? then true
                         else if reply.state.Starting? || reply.state.Running? then false else f.checkpointed)
  }

  // ----- A wake body ---------------------------------------------------------------------------------------

  /** What a turn of a body leads to: it goes on, or it is over. */
  datatype Then = Goes(w: Wake) | Ends(ok: bool, w: Wake)

  function Next(w: Wake, at: Await, call: Call): Then { Goes(w.(at := at, calls := w.calls + [call])) }

  /** Past the launcher. */
  function AfterLauncher(w: Wake): Then { Goes(w.(at := if w.restoring then OnRunning else OnFirstProbe)) }

  function WakeTurn(c: Config, f: Flags, w: Wake, reply: Reply): (Flags, Then) {
    match w.at
    case OnHealth =>
      var f' := Reconciled(c, f, reply);
      var w' := w.(restoring := c.criu && reply.Health? && reply.state.Restoring?);
      if f'.checkpointed then (f'.(checkpointed := false), Next(w', OnResume, Resume)) else (f', AfterLauncher(w'))
    case OnResume =>
      if reply.Throws? then (f, Goes(w.(at := OnRecovery)))
      else (f.(launcher := Some(if reply.Health? then reply.state else Running)), AfterLauncher(w))
    case OnRecovery => WaitTurn(f, w, reply, false)
    case OnRunning => WaitTurn(f, w, reply, true)
    case OnFirstProbe | OnProbe => (Probed(f, reply), ProbeTurn(c, w.(probe := Answer(reply))))
    case OnWeights => (f, if reply.Throws? then Ends(false, w) else Next(w, OnReload, ReloadWeights))
    case OnReload => (f, if reply.Throws? then Ends(false, w) else Next(w, OnKv, WakeKv))
    case OnKv | OnWakeUp => (f, if reply.Throws? then Ends(false, w) else Goes(w.(at := OnProbe)))
  }

  /** `waitForLauncherRecovery`, or, if `strict`, `waitForLauncherRunning`; a timeout is a throw. */
  function WaitTurn(f: Flags, w: Wake, reply: Reply, strict: bool): (Flags, Then) {
    if !reply.Health? then (f, if reply.Throws? then Ends(false, w) else Goes(w))
    else
      var f' := f.(launcher := Some(reply.state));
      if reply.state.Running? && reply.ok then (f', if strict then Goes(w.(at := OnFirstProbe)) else AfterLauncher(w))
      else if strict && reply.state.Checkpointed? then (f'.(checkpointed := true), Ends(false, w))
      else (f', if reply.state.Failed? || reply.state.Stopped? then Ends(false, w) else Goes(w))
  }

  /** The first probe decides whether there is anything to do; the later ones are repeated until awake. */
  function ProbeTurn(c: Config, w: Wake): Then {
    if w.probe.None? then Ends(false, w)
    else if !w.probe.value then Ends(true, w)
    else if w.at.OnProbe? then Goes(w)
    else if c.levelTwo then Next(w, OnWeights, WakeWeights)
    else Next(w, OnWakeUp, WakeAll)
  }

  /** At its end, `finally` clears the promise. */
  function Continue(k: Wakes, id: nat, t: Then): Wakes {
    match t
    case Goes(w) => k.(bodies := k.bodies[id := w])
    case Ends(ok, w) =>
      k.(promise := None, bodies := k.bodies - {id}, outcomes := k.outcomes[id := Outcome(ok, w.calls, w.heard)])
  }

  function Hears(w: Wake, reply: Reply): Wake { w.(heard := w.heard + [reply]) }

  function TurnStep(c: Config, s: State, id: nat, reply: Reply): State
    requires id in s.wakes.bodies
  {
    var (f, t) := WakeTurn(c, s.flags, Hears(s.wakes.bodies[id], reply), reply);
    s.(flags := f, wakes := Continue(s.wakes, id, t))
  }

  // ----- Requests and the idle loop ------------------------------------------------------------------------

  /** `ensureAwake` up to its first `await`: the wake-up to wait for, if any. */
  function Begin(f: Flags, k: Wakes): (Wakes, Option<nat>) {
    if f.sleepMode == Some(false) then (k, None)
    else if k.promise.Some? then (k, k.promise)
    else
      (k.(promise := Some(k.started), started := k.started + 1,
          bodies := k.bodies[k.started := NEW_WAKE]),
       Some(k.started))
  }

  function ArriveStep(s: State, r: nat): State {
    var (k, awaited) := Begin(s.flags, s.wakes);
    s.(inFlight := s.inFlight + 1, requests := s.requests[r := Waits(awaited)], wakes := k)
  }

  function Leave(s: State, r: nat): State { s.(inFlight := s.inFlight - 1, requests := s.requests - {r}) }

  function SettleStep(s: State, r: nat): State
    requires r in s.requests
  {
    match s.requests[r]
    case Waits(None) => s.(requests := s.requests[r := Fetches(None)])
    case Waits(Some(id)) =>
      if id !in s.wakes.outcomes then s
      else if s.wakes.outcomes[id].ok then s.(requests := s.requests[r := Fetches(Some(id))])
      else Leave(s, r)
    case _ => s
  }

  function SleepStep(c: Config, s: State, reply: Reply): State {
    match s.sleeper
    case Polls => s
    case Checks =>
      if Answer(reply) == Some(false)
      then s.(flags := Probed(s.flags, reply), sleepPromise := true, sleeper := if c.criu && c.levelTwo then Suspends else Posts)
      else s.(flags := Probed(s.flags, reply), sleeper := Polls)
    case Suspends =>
      s.(sleepPromise := false, sleeper := Polls,
         flags := if reply.Throws? then s.flags else s.flags.(checkpointed := true, sleepMode := Some(true)))
    case Posts => s.(sleepPromise := false, sleeper := Polls)
  }

  /** The test of `trySleep`. */
  predicate Passes(s: State) {
    && s.sleeper.Polls? && s.flags.sleepMode != Some(false) && !s.sleepPromise && s.wakes.promise.None? && s.inFlight <= 0
  }

  function Apply(c: Config, s: State, e: Event): State {
    match e
    case Arrive(r) => if r in s.requests then s else ArriveStep(s, r)
    case Settle(r) => if r in s.requests then SettleStep(s, r) else s
    case Respond(r) => if r in s.requests && s.requests[r].Fetches? then Leave(s, r) else s
    case Turn(id, reply) => if id in s.wakes.bodies then TurnStep(c, s, id, reply) else s
    case Reconcile(reply) => s.(flags := Reconciled(c, s.flags, reply))
    case TrySleep =>
      if Passes(s) then s.(sleeper := Checks) else s
    case SleepTurn(reply) => SleepStep(c, s, reply)
  }

  const START := State(Flags(None, false, None), Wakes(None, map[], map[], 0), 0, map[], false, Polls)

  function Run(c: Config, es: seq<Event>): State {
    if es == [] then START else Apply(c, Run(c, es[..|es| - 1]), es[|es| - 1])
  }

  // ----- Invariant -----------------------------------------------------------------------------------------

  /** The promise is set exactly while a body runs, and it is that body's. */
  ghost predicate SingleFlight(k: Wakes) {
    && k.bodies.Keys == (if k.promise.Some? then {k.promise.value} else {})
    && (forall id :: id in k.bodies ==> id < k.started && id !in k.outcomes)
    && (forall id :: id in k.outcomes ==> id < k.started)
  }

  /** The calls for a wake-up that found the engine asleep, in the order the engine needs. */
  function Script(c: Config): seq<Call> {
    if c.levelTwo then [WakeWeights, ReloadWeights, WakeKv] else [WakeAll]
  }

  /** Those a body has made when it is at `at`. */
  function Made(c: Config, at: Await): seq<Call> {
    match at
    case OnWeights => [WakeWeights]
    case OnReload => [WakeWeights, ReloadWeights]
    case OnKv => [WakeWeights, ReloadWeights, WakeKv]
    case OnWakeUp => [WakeAll]
    case OnProbe => Script(c)
    case _ => []
  }

  /** It may have resumed the launcher first. */
  predicate CallsAre(calls: seq<Call>, script: seq<Call>) { calls == script || calls == [Resume] + script }

  predicate Following(c: Config, w: Wake) {
    && CallsAre(w.calls, Made(c, w.at)) && (w.at.OnHealth? ==> w.calls == [])
    && (w.at.OnWakeUp? ==> !c.levelTwo) && (w.at.OnWeights? || w.at.OnReload? || w.at.OnKv? ==> c.levelTwo)
    && (w.at.OnHealth? <==> w.heard == [])
  }

  /** The launcher's first reply was that it is restoring. */
  predicate Restores(c: Config, heard: seq<Reply>) { c.criu && heard != [] && heard[0].Health? && heard[0].state.Restoring? }

  /** The second reply was that the resume it had asked for failed. */
  predicate ResumeFailed(calls: seq<Call>, heard: seq<Reply>) { Resume in calls && |heard| >= 2 && heard[1].Throws? }

  /** Later the launcher said that it runs, and is healthy. */
  predicate Recovered(heard: seq<Reply>) { heard != [] && Health(Running, true) in heard[1..] }

  /** A body gets past the launcher only once that is back. */
  predicate Patient(c: Config, w: Wake) {
    && (w.restoring <==> Restores(c, w.heard)) && (w.at.OnResume? ==> |w.heard| == 1 && w.calls == [Resume])
    && (w.at !in {OnHealth, OnResume, OnRecovery, OnRunning} && w.restoring ==> Recovered(w.heard))
    && (!w.at.OnRecovery? && ResumeFailed(w.calls, w.heard) ==> Recovered(w.heard))
    && (w.at.OnRecovery? ==> |w.heard| >= 2)
    && (Resume in w.calls && |w.heard| >= 1 ==> w.calls[0] == Resume)
    && (w.at in {OnRunning, OnFirstProbe} && Resume in w.calls ==> |w.heard| >= 2)
  }

  predicate Settled(c: Config, o: Outcome) {
    o.ok ==>
      && (CallsAre(o.calls, []) || CallsAre(o.calls, Script(c)))
      && o.heard != [] && o.heard[|o.heard| - 1] in {Awake, Missing}
      && (Restores(c, o.heard) || ResumeFailed(o.calls, o.heard) ==> Recovered(o.heard))
  }

  ghost predicate Scripted(c: Config, k: Wakes) {
    && (forall id :: id in k.bodies ==> Following(c, k.bodies[id]) && Patient(c, k.bodies[id]))
    && (forall id :: id in k.outcomes ==> Settled(c, k.outcomes[id]))
  }

  predicate LinkedTo(q: Request, k: Wakes) {
    q.wake.Some? ==> if q.Waits? then q.wake.value in k.bodies || q.wake.value in k.outcomes
                     else q.wake.value in k.outcomes && k.outcomes[q.wake.value].ok
  }

  ghost predicate Linked(requests: map<nat, Request>, k: Wakes) {
    forall r :: r in requests ==> LinkedTo(requests[r], k)
  }

  ghost predicate Inv(c: Config, s: State) {
    && SingleFlight(s.wakes) && Scripted(c, s.wakes) && Linked(s.requests, s.wakes)
    && s.inFlight == |s.requests|
    && (s.sleepPromise <==> s.sleeper.Suspends? || s.sleeper.Posts?)
  }

  ghost predicate Fits(c: Config, t: Then) {
    match t
    case Goes(w) => Following(c, w) && Patient(c, w)
    case Ends(ok, w) => Settled(c, Outcome(ok, w.calls, w.heard))
  }

  lemma OneMoreCall(calls: seq<Call>, script: seq<Call>, call: Call)
    requires CallsAre(calls, script)
    ensures CallsAre(calls + [call], script + [call])
  {
    assert [Resume] + script + [call] == [Resume] + (script + [call]);
  }

  lemma HearsMore(c: Config, w: Wake, reply: Reply)
    ensures var w' := Hears(w, reply);
            && (w.heard != [] ==> (Restores(c, w'.heard) <==> Restores(c, w.heard)))
            && (|w.heard| >= 2 ==> (ResumeFailed(w'.calls, w'.heard) <==> ResumeFailed(w.calls, w.heard)))
            && (Recovered(w.heard) ==> Recovered(w'.heard))
            && (w.heard != [] && reply == Health(Running, true) ==> Recovered(w'.heard))
            && w'.heard[|w'.heard| - 1] == reply
  {
    var heard := Hears(w, reply).heard;
    if w.heard != [] {
      assert heard[1..] == w.heard[1..] + [reply];
    }
  }

  lemma TurnFits(c: Config, f: Flags, w: Wake, reply: Reply)
    requires Following(c, w) && Patient(c, w)
    ensures Fits(c, WakeTurn(c, f, Hears(w, reply), reply).1)
  {
    HearsMore(c, w, reply);
    match w.at
    case OnHealth => assert [] + [Resume] == [Resume] + [];
    case OnFirstProbe | OnProbe => ProbeFits(c, w, reply);
    case OnRecovery | OnRunning => WaitFits(c, f, w, reply);
    case OnWeights => OneMoreCall(w.calls, [WakeWeights], ReloadWeights);
    case OnReload => OneMoreCall(w.calls, [WakeWeights, ReloadWeights], WakeKv);
    case _ =>
  }

  lemma ProbeFits(c: Config, w: Wake, reply: Reply)
    requires Following(c, w) && Patient(c, w) && (w.at.OnFirstProbe? || w.at.OnProbe?)
    ensures Fits(c, ProbeTurn(c, Hears(w, reply).(probe := Answer(reply))))
  {
    HearsMore(c, w, reply);
    if w.at.OnFirstProbe? {
      OneMoreCall(w.calls, [], if c.levelTwo then WakeWeights else WakeAll);
    }
  }

  lemma WaitFits(c: Config, f: Flags, w: Wake, reply: Reply)
    requires Following(c, w) && Patient(c, w) && (w.at.OnRecovery? || w.at.OnRunning?)
    ensures Fits(c, WaitTurn(f, Hears(w, reply), reply, w.at.OnRunning?).1)
  {
    HearsMore(c, w, reply);
  }

  lemma ContinueKeeps(c: Config, k: Wakes, id: nat, t: Then, requests: map<nat, Request>)
    requires SingleFlight(k) && Scripted(c, k) && Linked(requests, k) && id in k.bodies && Fits(c, t)
    ensures var k' := Continue(k, id, t); SingleFlight(k') && Scripted(c, k') && Linked(requests, k')
  {
    var k' := Continue(k, id, t);
    assert k'.bodies.Keys == if t.Goes? then k.bodies.Keys else k.bodies.Keys - {id};
    forall r | r in requests ensures LinkedTo(requests[r], k') {
      assert LinkedTo(requests[r], k);
    }
  }

  lemma BeginKeeps(c: Config, f: Flags, k: Wakes)
    requires SingleFlight(k) && Scripted(c, k)
    ensures var (k', awaited) := Begin(f, k);
            && SingleFlight(k') && Scripted(c, k') && LinkedTo(Waits(awaited), k')
            && k.bodies.Keys <= k'.bodies.Keys && k'.outcomes == k.outcomes
  {
    var (k', awaited) := Begin(f, k);
    if f.sleepMode != Some(false) && k.promise.None? {
      assert k'.bodies.Keys == {k.started};
    }
  }

  lemma ArriveKeeps(c: Config, s: State, r: nat)
    requires Inv(c, s) && r !in s.requests
    ensures Inv(c, ArriveStep(s, r))
  {
    var (k, awaited) := Begin(s.flags, s.wakes);
    var requests := s.requests[r := Waits(awaited)];
    BeginKeeps(c, s.flags, s.wakes);
    assert requests.Keys == s.requests.Keys + {r};
    assert |requests| == |requests.Keys| && |s.requests| == |s.requests.Keys|;
    forall q | q in requests ensures LinkedTo(requests[q], k) {
      assert q != r ==> LinkedTo(s.requests[q], s.wakes);
    }
  }

  lemma LeaveKeeps(c: Config, s: State, r: nat)
    requires Inv(c, s) && r in s.requests
    ensures Inv(c, Leave(s, r))
  {
    var requests := s.requests - {r};
    assert requests.Keys == s.requests.Keys - {r};
    assert |requests| == |requests.Keys| && |s.requests| == |s.requests.Keys|;
    forall q | q in requests ensures LinkedTo(requests[q], s.wakes) {
      assert LinkedTo(s.requests[q], s.wakes);
    }
  }

  lemma FetchKeeps(c: Config, s: State, r: nat, q: Request)
    requires Inv(c, s) && r in s.requests && LinkedTo(q, s.wakes)
    ensures Inv(c, s.(requests := s.requests[r := q]))
  {
    var requests := s.requests[r := q];
    assert requests.Keys == s.requests.Keys;
    assert |requests| == |requests.Keys| && |s.requests| == |s.requests.Keys|;
    forall p | p in requests ensures LinkedTo(requests[p], s.wakes) {
      assert LinkedTo(s.requests[p], s.wakes);
    }
  }

  lemma SettleKeeps(c: Config, s: State, r: nat)
    requires Inv(c, s) && r in s.requests
    ensures Inv(c, SettleStep(s, r))
  {
    var q := s.requests[r];
    if q.Waits? && (q.wake.Some? ==> q.wake.value in s.wakes.outcomes && s.wakes.outcomes[q.wake.value].ok) {
      FetchKeeps(c, s, r, Fetches(q.wake));
    } else {
      LeaveKeeps(c, s, r);
    }
  }

  lemma {:induction false} Invariant(c: Config, es: seq<Event>)
    ensures Inv(c, Run(c, es))
  {
    if es != [] {
      Invariant(c, es[..|es| - 1]);
      StepKeeps(c, Run(c, es[..|es| - 1]), es[|es| - 1]);
    }
  }

  lemma StepKeeps(c: Config, s: State, e: Event)
    requires Inv(c, s)
    ensures Inv(c, Apply(c, s, e))
  {
    match e
    case Arrive(r) => if r !in s.requests { ArriveKeeps(c, s, r); }
    case Settle(r) => if r in s.requests { SettleKeeps(c, s, r); }
    case Respond(r) => if r in s.requests { LeaveKeeps(c, s, r); }
    case Turn(id, reply) => if id in s.wakes.bodies { TurnKeeps(c, s, id, reply); }
    case Reconcile(_) =>
    case TrySleep =>
    case SleepTurn(reply) => SleepKeeps(c, s, reply);
  }

  lemma TurnKeeps(c: Config, s: State, id: nat, reply: Reply)
    requires Inv(c, s) && id in s.wakes.bodies
    ensures Inv(c, TurnStep(c, s, id, reply))
  {
    var w := s.wakes.bodies[id];
    assert Following(c, w) && Patient(c, w);
    TurnFits(c, s.flags, w, reply);
    ContinueKeeps(c, s.wakes, id, WakeTurn(c, s.flags, Hears(w, reply), reply).1, s.requests);
  }

  lemma SleepKeeps(c: Config, s: State, reply: Reply)
    requires Inv(c, s)
    ensures Inv(c, SleepStep(c, s, reply))
  {
  }

  // ----- Over every run ------------------------------------------------------------------------------------

  /** At most one wake body runs, and between turns the promise is set exactly while one does. */
  lemma OneWakeAtATime(c: Config, es: seq<Event>, id: nat, other: nat)
    ensures var k := Run(c, es).wakes; id in k.bodies <==> k.promise == Some(id)
    ensures var k := Run(c, es).wakes; id in k.bodies && other in k.bodies ==> id == other
  {
    Invariant(c, es);
  }

  /** A wake-up resolves only on a reply that the engine is awake, or knows no sleep; by then it has either made no call
      to the engine, or all those the sleep level needs, in their order. */
  lemma ResolvedMeansAwake(c: Config, es: seq<Event>, id: nat)
    requires id in Run(c, es).wakes.outcomes && Run(c, es).wakes.outcomes[id].ok
    ensures var o := Run(c, es).wakes.outcomes[id];
            var engine := if c.levelTwo then [WakeWeights, ReloadWeights, WakeKv] else [WakeAll];
            && o.heard != [] && o.heard[|o.heard| - 1] in {Awake, Missing}
            && (o.calls == [] || o.calls == [Resume] || o.calls == engine || o.calls == [Resume] + engine)
  {
    Invariant(c, es);
    assert Settled(c, Run(c, es).wakes.outcomes[id]);
    NothingMore(Run(c, es).wakes.outcomes[id].calls);
  }

  lemma NothingMore(calls: seq<Call>)
    ensures CallsAre(calls, []) <==> calls == [] || calls == [Resume]
  {
    assert [Resume] + [] == [Resume];
  }

  /** If the launcher was restoring when it was first asked, or the resume it was asked for failed, a wake-up resolves
      only after the launcher has said that it runs, and is healthy. */
  lemma WaitsForTheLauncher(c: Config, es: seq<Event>, id: nat)
    requires id in Run(c, es).wakes.outcomes && Run(c, es).wakes.outcomes[id].ok
    ensures var o := Run(c, es).wakes.outcomes[id];
            && o.heard != []
            && (c.criu && o.heard[0].Health? && o.heard[0].state.Restoring? ==> Health(Running, true) in o.heard[1..])
            && (Resume in o.calls && |o.heard| >= 2 && o.heard[1].Throws? ==> Health(Running, true) in o.heard[1..])
  {
    Invariant(c, es);
    assert Settled(c, Run(c, es).wakes.outcomes[id]);
  }

  /** And a request is forwarded only after the wake-up it waited for resolved. */
  lemma ForwardedAfterWake(c: Config, es: seq<Event>, r: nat)
    requires var s := Run(c, es); r in s.requests && s.requests[r].Fetches? && s.requests[r].wake.Some?
    ensures var k, id := Run(c, es).wakes, Run(c, es).requests[r].wake.value;
            && id in k.outcomes && k.outcomes[id].ok
            && k.outcomes[id].heard != [] && k.outcomes[id].heard[|k.outcomes[id].heard| - 1] in {Awake, Missing}
  {
    Invariant(c, es);
    var s := Run(c, es);
    assert LinkedTo(s.requests[r], s.wakes);
    assert Settled(c, s.wakes.outcomes[s.requests[r].wake.value]);
  }

  lemma InFlightCountsHandlers(c: Config, es: seq<Event>)
    ensures Run(c, es).inFlight == |Run(c, es).requests|
  {
    Invariant(c, es);
  }

  /** When it ends: well, on such a reply to a probe; badly, on a probe that fails, an engine call that fails, or a launcher
      that cannot be asked, has failed or stopped, or has a checkpoint again. */
  lemma WhenAWakeEnds(c: Config, es: seq<Event>, id: nat, reply: Reply)
    requires id in Run(c, es).wakes.bodies
    ensures var at, k := Run(c, es).wakes.bodies[id].at, Apply(c, Run(c, es), Turn(id, reply)).wakes;
            && (id in k.outcomes && k.outcomes[id].ok <==> at in {OnFirstProbe, OnProbe} && reply in {Awake, Missing})
            && (id in k.outcomes && !k.outcomes[id].ok <==>
                  || (at in {OnFirstProbe, OnProbe} && reply !in {Awake, Missing, Asleep})
                  || (at !in {OnHealth, OnResume} && reply.Throws?)
                  || (at in {OnRecovery, OnRunning} && reply.Health? && reply.state in {Failed, Stopped})
                  || (at.OnRunning? && reply.Health? && reply.state.Checkpointed?))
            && (id in k.bodies <==> id !in k.outcomes)
  {
    Invariant(c, es);
    var s := Run(c, es);
    BodyEnds(c, s.flags, Hears(s.wakes.bodies[id], reply), reply);
    assert id !in s.wakes.outcomes;
  }

  lemma BodyEnds(c: Config, f: Flags, w: Wake, reply: Reply)
    ensures var t := WakeTurn(c, f, w, reply).1;
            && (t.Ends? && t.ok <==> w.at in {OnFirstProbe, OnProbe} && reply in {Awake, Missing})
            && (t.Ends? && !t.ok <==>
                  || (w.at in {OnFirstProbe, OnProbe} && reply !in {Awake, Missing, Asleep})
                  || (w.at !in {OnHealth, OnResume} && reply.Throws?)
                  || (w.at in {OnRecovery, OnRunning} && reply.Health? && reply.state in {Failed, Stopped})
                  || (w.at.OnRunning? && reply.Health? && reply.state.Checkpointed?))
  {
  }

  /** Where a body that goes on goes: past a launcher with nothing to restore it probes at once, otherwise it waits; a probe
      that says asleep leads to the calls for the sleep level, one after the other, and these to probing. */
  lemma WhereAWakeGoes(c: Config, es: seq<Event>, id: nat, reply: Reply)
    requires id in Run(c, es).wakes.bodies && id in Apply(c, Run(c, es), Turn(id, reply)).wakes.bodies
    ensures var f, w := Run(c, es).flags, Run(c, es).wakes.bodies[id];
            var at' := Apply(c, Run(c, es), Turn(id, reply)).wakes.bodies[id].at;
            var past := if c.criu && (w.heard + [reply])[0].Health? && (w.heard + [reply])[0].state.Restoring? then OnRunning
                        else OnFirstProbe;
            match w.at
            case OnHealth => at' == if Believes(c, f, reply) then OnResume else past
            case OnResume => at' == if reply.Throws? then OnRecovery else past
            case OnRecovery => at' == if reply == Health(Running, true) then past else OnRecovery
            case OnRunning => at' == if reply == Health(Running, true) then OnFirstProbe else OnRunning
            case OnFirstProbe => at' == if c.levelTwo then OnWeights else OnWakeUp
            case OnWeights => at' == OnReload
            case OnReload => at' == OnKv
            case _ => at' == OnProbe
  {
    Invariant(c, es);
    var w := Run(c, es).wakes.bodies[id];
    assert Following(c, w) && Patient(c, w);
    GoesWhere(c, Run(c, es).flags, w, reply);
  }

  lemma GoesWhere(c: Config, f: Flags, w: Wake, reply: Reply)
    requires Following(c, w) && Patient(c, w) && WakeTurn(c, f, Hears(w, reply), reply).1.Goes?
    ensures var at', past := WakeTurn(c, f, Hears(w, reply), reply).1.w.at,
                             if Restores(c, w.heard + [reply]) then OnRunning else OnFirstProbe;
            match w.at
            case OnHealth => at' == if Believes(c, f, reply) then OnResume else past
            case OnResume => at' == if reply.Throws? then OnRecovery else past
            case OnRecovery => at' == if reply == Health(Running, true) then past else OnRecovery
            case OnRunning => at' == if reply == Health(Running, true) then OnFirstProbe else OnRunning
            case OnFirstProbe => at' == if c.levelTwo then OnWeights else OnWakeUp
            case OnWeights => at' == OnReload
            case OnReload => at' == OnKv
            case _ => at' == OnProbe
  {
    HearsMore(c, w, reply);
  }

  // ----- Which requests wait -------------------------------------------------------------------------------

  predicate OnProbes(s: State, id: nat) { id in s.wakes.bodies && s.wakes.bodies[id].at in {OnFirstProbe, OnProbe} }

  /** A probe is answered with 404: the engine knows no sleep. */
  predicate Denies(s: State, e: Event) {
    || (e.Turn? && OnProbes(s, e.id) && e.reply.Missing?)
    || (e.SleepTurn? && s.sleeper.Checks? && e.reply.Missing?)
  }

  /** A probe is answered otherwise, or a suspend succeeds. */
  predicate Grants(s: State, e: Event) {
    || (e.Turn? && OnProbes(s, e.id) && e.reply in {Asleep, Awake})
    || (e.SleepTurn? && s.sleeper.Checks? && e.reply in {Asleep, Awake})
    || (e.SleepTurn? && s.sleeper.Suspends? && !e.reply.Throws?)
  }

  predicate DeniedAt(c: Config, es: seq<Event>, k: nat) { k < |es| && Denies(Run(c, es[..k]), es[k]) }

  predicate GrantedAt(c: Config, es: seq<Event>, k: nat) { k < |es| && Grants(Run(c, es[..k]), es[k]) }

  /** The last of these was a 404. */
  ghost predicate Sleepless(c: Config, es: seq<Event>) {
    exists k: nat :: DeniedAt(c, es, k) && forall j: nat :: k < j ==> !GrantedAt(c, es, j)
  }

  lemma AtOneMore(c: Config, es: seq<Event>, e: Event, k: nat)
    ensures DeniedAt(c, es + [e], k) <==> DeniedAt(c, es, k) || (k == |es| && Denies(Run(c, es), e))
    ensures GrantedAt(c, es + [e], k) <==> GrantedAt(c, es, k) || (k == |es| && Grants(Run(c, es), e))
  {
    if k <= |es| {
      assert (es + [e])[..k] == es[..k] && es[..|es|] == es;
    }
  }

  lemma SleeplessOnceMore(c: Config, es: seq<Event>, e: Event)
    ensures Sleepless(c, es + [e]) <==> Denies(Run(c, es), e) || (Sleepless(c, es) && !Grants(Run(c, es), e))
  {
    forall k: nat
      ensures DeniedAt(c, es + [e], k) <==> DeniedAt(c, es, k) || (k == |es| && Denies(Run(c, es), e))
      ensures GrantedAt(c, es + [e], k) <==> GrantedAt(c, es, k) || (k == |es| && Grants(Run(c, es), e))
    {
      AtOneMore(c, es, e, k);
    }
    if Sleepless(c, es + [e]) {
      var k: nat :| DeniedAt(c, es + [e], k) && forall j: nat :: k < j ==> !GrantedAt(c, es + [e], j);
      assert k < |es| ==> DeniedAt(c, es, k) && !GrantedAt(c, es + [e], |es|);
    }
    if Denies(Run(c, es), e) {
      assert DeniedAt(c, es + [e], |es|);
    } else if Sleepless(c, es) && !Grants(Run(c, es), e) {
      var k: nat :| DeniedAt(c, es, k) && forall j: nat :: k < j ==> !GrantedAt(c, es, j);
      assert DeniedAt(c, es + [e], k);
    }
  }

  lemma {:induction false} SleepModeSays(c: Config, es: seq<Event>)
    ensures Run(c, es).flags.sleepMode == Some(false) <==> Sleepless(c, es)
  {
    if es != [] {
      var n := |es| - 1;
      SleepModeSays(c, es[..n]);
      assert es == es[..n] + [es[n]];
      SleeplessOnceMore(c, es[..n], es[n]);
      SleepModeMoves(c, Run(c, es[..n]), es[n]);
    }
  }

  lemma SleepModeMoves(c: Config, s: State, e: Event)
    ensures Apply(c, s, e).flags.sleepMode ==
            if Denies(s, e) then Some(false) else if Grants(s, e) then Some(true) else s.flags.sleepMode
  {
  }

  /** A request waits for the wake-up that runs, or for a new one if none does; only while the engine is known not to sleep
      does it wait for nothing. */
  lemma ArrivalsWait(c: Config, es: seq<Event>, r: nat)
    requires r !in Run(c, es).requests
    ensures var s, s' := Run(c, es), Apply(c, Run(c, es), Arrive(r));
            && r in s'.requests && s'.requests[r].Waits? && (s'.requests[r].wake.None? <==> Sleepless(c, es))
            && (s'.requests[r].wake.Some? ==> s'.wakes.bodies.Keys == {s'.requests[r].wake.value})
            && (s.wakes.bodies != map[] || Sleepless(c, es) ==> s'.wakes == s.wakes)
  {
    Invariant(c, es);
    SleepModeSays(c, es);
    assert Run(c, es).wakes.promise.None? ==> Run(c, es).wakes.bodies == map[];
  }

  /** What waits for a wake-up goes on when that is over: to be forwarded if it resolved, to an error if not. */
  lemma WaitersGoOn(c: Config, es: seq<Event>, r: nat)
    requires r in Run(c, es).requests && Run(c, es).requests[r].Waits?
    ensures var s, s', wake := Run(c, es), Apply(c, Run(c, es), Settle(r)), Run(c, es).requests[r].wake;
            && (wake.None? ==> s'.requests == s.requests[r := Fetches(wake)])
            && (wake.Some? && wake.value in s.wakes.bodies ==> s' == s)
            && (wake.Some? && wake.value !in s.wakes.bodies ==>
                  && wake.value in s.wakes.outcomes
                  && s'.requests == if s.wakes.outcomes[wake.value].ok then s.requests[r := Fetches(wake)] else s.requests - {r})
  {
    Invariant(c, es);
    assert LinkedTo(Run(c, es).requests[r], Run(c, es).wakes);
  }

  /** What was forwarded leaves once it is answered. */
  lemma AnsweredLeave(c: Config, es: seq<Event>, r: nat)
    requires r in Run(c, es).requests && Run(c, es).requests[r].Fetches?
    ensures var s, s' := Run(c, es), Apply(c, Run(c, es), Respond(r));
            s'.requests == s.requests - {r} && s'.inFlight == s.inFlight - 1 && s'.wakes == s.wakes
  {
  }

  /** So a request that is forwarded without a wake-up arrived while the engine was known not to sleep. */
  lemma {:induction false} ForwardedUnwoken(c: Config, es: seq<Event>, r: nat)
    requires r in Run(c, es).requests
    ensures Run(c, es).requests[r].wake.None? ==> exists k :: 0 <= k < |es| && es[k] == Arrive(r) && Sleepless(c, es[..k])
  {
    var n := |es| - 1;
    var s := Run(c, es[..n]);
    if r !in s.requests {
      ArrivalsWait(c, es[..n], r);
      OnlyArrivalsAdd(c, s, es[n], r);
    } else {
      WakesStay(c, s, es[n], r);
      ForwardedUnwoken(c, es[..n], r);
      if s.requests[r].wake.None? {
        var k :| 0 <= k < n && es[..n][k] == Arrive(r) && Sleepless(c, es[..n][..k]);
        assert es[k] == Arrive(r) && es[..n][..k] == es[..k];
      }
    }
  }

  lemma OnlyArrivalsAdd(c: Config, s: State, e: Event, r: nat)
    requires r !in s.requests && r in Apply(c, s, e).requests
    ensures e == Arrive(r)
  {
  }

  lemma WakesStay(c: Config, s: State, e: Event, r: nat)
    requires r in s.requests && r in Apply(c, s, e).requests
    ensures Apply(c, s, e).requests[r].wake == s.requests[r].wake
  {
  }

  predicate NeverMissing(es: seq<Event>) {
    forall e :: e in es ==> !(e.Turn? && e.reply.Missing?) && !(e.SleepTurn? && e.reply.Missing?)
  }

  /** In a run without a 404 every request that is forwarded has a wake-up behind it that found the engine awake. */
  lemma ForwardedAwake(c: Config, es: seq<Event>, r: nat)
    requires NeverMissing(es) && r in Run(c, es).requests && Run(c, es).requests[r].Fetches?
    ensures var s := Run(c, es);
            && s.requests[r].wake.Some? && s.requests[r].wake.value in s.wakes.outcomes
            && s.wakes.outcomes[s.requests[r].wake.value].ok
  {
    forall k | 0 <= k <= |es| ensures !Sleepless(c, es[..k]) {
      NeverSleepless(c, es, k);
    }
    ForwardedUnwoken(c, es, r);
    ForwardedAfterWake(c, es, r);
  }

  lemma NeverSleepless(c: Config, es: seq<Event>, k: nat)
    requires NeverMissing(es) && k <= |es|
    ensures !Sleepless(c, es[..k])
  {
    forall i: nat ensures !DeniedAt(c, es[..k], i) {
      assert i < k ==> es[..k][i] in es;
    }
  }

  // ----- The test before a suspend -------------------------------------------------------------------------

  /** The test passes exactly if no request is there, no wake-up runs, no attempt to sleep is under way, and the engine is
      not known not to sleep. */
  lemma TestNeedsQuiet(c: Config, es: seq<Event>)
    ensures var s, s' := Run(c, es), Apply(c, Run(c, es), TrySleep);
            && (s'.sleeper.Checks? <==>
                  s.sleeper.Checks?
                  || (s.sleeper.Polls? && s.requests == map[] && s.wakes.bodies == map[] && !Sleepless(c, es)))
            && (!s'.sleeper.Checks? ==> s' == s)
  {
    Invariant(c, es);
    SleepModeSays(c, es);
    var s := Run(c, es);
    assert |s.requests| == |s.requests.Keys| && (s.wakes.promise.None? <==> s.wakes.bodies.Keys == {});
  }

  /** After a probe that says awake the launcher is asked to suspend, with checkpoints and sleep level 2, and otherwise the
      engine to sleep; after any other answer neither. */
  lemma WhatSleepingAsks(c: Config, s: State, reply: Reply)
    requires s.sleeper.Checks?
    ensures var s' := Apply(c, s, SleepTurn(reply));
            && (s'.sleeper.Suspends? <==> reply in {Awake, Missing} && c.criu && c.levelTwo)
            && (s'.sleeper.Posts? <==> reply in {Awake, Missing} && !(c.criu && c.levelTwo))
            && (s'.sleeper.Polls? <==> reply !in {Awake, Missing})
            && (s'.sleepPromise <==> s.sleepPromise || reply in {Awake, Missing})
            && s'.requests == s.requests && s'.wakes == s.wakes
  {
  }

  /** However that ends, the next attempt can begin. */
  lemma AttemptsToSleepEnd(c: Config, s: State, reply: Reply)
    requires s.sleeper.Suspends? || s.sleeper.Posts?
    ensures var s' := Apply(c, s, SleepTurn(reply));
            s'.sleeper.Polls? && !s'.sleepPromise && s'.requests == s.requests && s'.wakes == s.wakes
  {
  }

  predicate NoSleepTurn(es: seq<Event>) { forall e :: e in es ==> !e.SleepTurn? }

  lemma RunOn(c: Config, es: seq<Event>, e: Event)
    ensures Run(c, es + [e]) == Apply(c, Run(c, es), e)
  {
    assert (es + [e])[..|es|] == es;
  }

  /** After a test that passed, until its probe is answered, the requests there are all arrived since. */
  lemma {:induction false} OnlyLateRequests(c: Config, es: seq<Event>, late: seq<Event>)
    requires Passes(Run(c, es)) && NoSleepTurn(late)
    ensures var s := Run(c, es + [TrySleep] + late);
            s.sleeper.Checks? && forall r :: r in s.requests ==> Arrive(r) in late
  {
    if late == [] {
      Invariant(c, es);
      assert es + [TrySleep] + [] == es + [TrySleep];
      RunOn(c, es, TrySleep);
      assert |Run(c, es).requests| == 0;
    } else {
      var n := |late| - 1;
      var before := es + [TrySleep] + late[..n];
      assert late == late[..n] + [late[n]];
      assert es + [TrySleep] + late == before + [late[n]];
      OnlyLateRequests(c, es, late[..n]);
      OneTurnLater(c, Run(c, before), late[n]);
      RunOn(c, before, late[n]);
    }
  }

  lemma OneTurnLater(c: Config, s: State, e: Event)
    requires s.sleeper.Checks? && !e.SleepTurn?
    ensures Apply(c, s, e).sleeper.Checks?
    ensures forall r :: r in Apply(c, s, e).requests ==> r in s.requests || e == Arrive(r)
  {
  }

  /** The test of `inFlight` is not repeated after the probe.  So the suspend is asked for under a request exactly if
      one that arrived since the test is unfinished. */
  lemma SuspendsUnderARequest(c: Config, es: seq<Event>, late: seq<Event>, reply: Reply)
    requires c.criu && c.levelTwo && reply in {Awake, Missing}
    requires Passes(Run(c, es)) && NoSleepTurn(late)
    ensures var s := Apply(c, Run(c, es + [TrySleep] + late), SleepTurn(reply));
            s.sleeper.Suspends? && (s.inFlight > 0 <==> exists r :: r in s.requests && Arrive(r) in late)
  {
    OnlyLateRequests(c, es, late);
    Invariant(c, es + [TrySleep] + late);
    var requests := Run(c, es + [TrySleep] + late).requests;
    assert |requests| == |requests.Keys|;
    if requests != map[] {
      var r :| r in requests;
    }
  }

  /** Which happens: one request, right after the first test. */
  lemma ARequestCanBeUnder(c: Config)
    requires c.criu && c.levelTwo
    ensures Passes(Run(c, [])) && NoSleepTurn([Arrive(0)])
    ensures Apply(c, Run(c, [] + [TrySleep] + [Arrive(0)]), SleepTurn(Awake)).inFlight == 1
  {
    var es := [] + [TrySleep] + [Arrive(0)];
    assert es[..1] == [TrySleep] && [TrySleep][..0] == [];
    assert Run(c, [TrySleep]) == START.(sleeper := Checks);
    assert Run(c, es) == Apply(c, Run(c, [TrySleep]), Arrive(0));
  }

  // ----- The flag ------------------------------------------------------------------------------------------

  /** The launcher's word on whether there is a process to restore, if it has one. */
  function Word(c: Config, reply: Reply): Option<bool> {
    if !c.criu || !reply.Health? then None
    else
      match reply.state
      case Checkpointed => Some(true)
      case Starting | Running => Some(false)
      case _ => None
  }

  /** What the guard believes after it: the launcher's word, or else what it believed. */
  predicate Believes(c: Config, f: Flags, reply: Reply) {
    Word(c, reply) == Some(true) || (Word(c, reply) == None && f.checkpointed)
  }

  /** In every run: a wake-up begins by asking for a resume exactly if that is what the guard believes then; it has
      given the belief up by the time it asks, and asks for nothing else first. */
  lemma ResumesIfCheckpointed(c: Config, es: seq<Event>, id: nat, reply: Reply)
    requires var k := Run(c, es).wakes; id in k.bodies && k.bodies[id].at.OnHealth?
    ensures var s, s' := Run(c, es), Apply(c, Run(c, es), Turn(id, reply));
            && id in s'.wakes.bodies && !s'.flags.checkpointed
            && s'.wakes.bodies[id].calls == if Believes(c, s.flags, reply) then [Resume] else []
  {
    Invariant(c, es);
    assert Following(c, Run(c, es).wakes.bodies[id]);
    assert [] + [Resume] == [Resume];
  }

  /** `launcherState` is what the launcher last said of itself; a resume that succeeds without saying means `running`. */
  lemma LauncherStateIsTheLast(c: Config, s: State, e: Event)
    ensures var said := Apply(c, s, e).flags.launcher;
            if e.Reconcile? && c.criu && e.reply.Health? then said == Some(e.reply.state)
            else if e.Turn? && e.id in s.wakes.bodies && e.reply.Health?
              && (s.wakes.bodies[e.id].at in {OnResume, OnRecovery, OnRunning} || (s.wakes.bodies[e.id].at.OnHealth? && c.criu))
            then said == Some(e.reply.state)
            else if e.Turn? && e.id in s.wakes.bodies && s.wakes.bodies[e.id].at.OnResume? && !e.reply.Throws?
            then said == Some(LauncherState.Running)
            else said == s.flags.launcher
  {
  }

  /** The launcher says that there is a checkpoint, or has just made one. */
  predicate Confirms(c: Config, s: State, e: Event) {
    || (e.Reconcile? && c.criu && e.reply.Health? && e.reply.state.Checkpointed?)
    || (e.Turn? && e.id in s.wakes.bodies && s.wakes.bodies[e.id].at.OnRunning? && e.reply.Health? && e.reply.state.Checkpointed?)
    || (e.SleepTurn? && s.sleeper.Suspends? && !e.reply.Throws?)
  }

  /** The launcher says that there is a process, or a wake-up has begun. */
  predicate Withdraws(c: Config, s: State, e: Event) {
    || (e.Reconcile? && c.criu && e.reply.Health? && e.reply.state in {LauncherState.Starting, Running})
    || (e.Turn? && e.id in s.wakes.bodies && s.wakes.bodies[e.id].at.OnHealth?)
  }

  predicate ConfirmedAt(c: Config, es: seq<Event>, k: nat) { k < |es| && Confirms(c, Run(c, es[..k]), es[k]) }

  predicate WithdrawnAt(c: Config, es: seq<Event>, k: nat) { k < |es| && Withdraws(c, Run(c, es[..k]), es[k]) }

  /** The last of these was of the first kind. */
  ghost predicate ThoughtCheckpointed(c: Config, es: seq<Event>) {
    exists k: nat :: ConfirmedAt(c, es, k) && forall j: nat :: k < j ==> !WithdrawnAt(c, es, j)
  }

  lemma ThoughtAtOneMore(c: Config, es: seq<Event>, e: Event, k: nat)
    ensures ConfirmedAt(c, es + [e], k) <==> ConfirmedAt(c, es, k) || (k == |es| && Confirms(c, Run(c, es), e))
    ensures WithdrawnAt(c, es + [e], k) <==> WithdrawnAt(c, es, k) || (k == |es| && Withdraws(c, Run(c, es), e))
  {
    if k <= |es| {
      assert (es + [e])[..k] == es[..k] && es[..|es|] == es;
    }
  }

  lemma ThoughtOnceMore(c: Config, es: seq<Event>, e: Event)
    ensures ThoughtCheckpointed(c, es + [e]) <==>
      Confirms(c, Run(c, es), e) || (ThoughtCheckpointed(c, es) && !Withdraws(c, Run(c, es), e))
  {
    forall k: nat
      ensures ConfirmedAt(c, es + [e], k) <==> ConfirmedAt(c, es, k) || (k == |es| && Confirms(c, Run(c, es), e))
      ensures WithdrawnAt(c, es + [e], k) <==> WithdrawnAt(c, es, k) || (k == |es| && Withdraws(c, Run(c, es), e))
    {
      ThoughtAtOneMore(c, es, e, k);
    }
    if ThoughtCheckpointed(c, es + [e]) {
      var k: nat :| ConfirmedAt(c, es + [e], k) && forall j: nat :: k < j ==> !WithdrawnAt(c, es + [e], j);
      assert k < |es| ==> ConfirmedAt(c, es, k) && !WithdrawnAt(c, es + [e], |es|);
    }
    if Confirms(c, Run(c, es), e) {
      assert ConfirmedAt(c, es + [e], |es|);
    } else if ThoughtCheckpointed(c, es) && !Withdraws(c, Run(c, es), e) {
      var k: nat :| ConfirmedAt(c, es, k) && forall j: nat :: k < j ==> !WithdrawnAt(c, es, j);
      assert ConfirmedAt(c, es + [e], k);
    }
  }

  /** In every run, what the guard believes of the checkpoint is what it last heard of it. */
  lemma {:induction false} BelievesTheLastWord(c: Config, es: seq<Event>)
    ensures Run(c, es).flags.checkpointed <==> ThoughtCheckpointed(c, es)
  {
    if es != [] {
      var n := |es| - 1;
      BelievesTheLastWord(c, es[..n]);
      assert es == es[..n] + [es[n]];
      ThoughtOnceMore(c, es[..n], es[n]);
      BeliefMoves(c, Run(c, es[..n]), es[n]);
    }
  }

  lemma BeliefMoves(c: Config, s: State, e: Event)
    ensures Apply(c, s, e).flags.checkpointed <==> Confirms(c, s, e) || (s.flags.checkpointed && !Withdraws(c, s, e))
  {
  }

  // ----- The code ------------------------------------------------------------------------------------------

  class Guard {
    const c: Config

    var inFlight: int
    var wakePromise: Option<nat>
    var sleepPromise: bool
    var sleepMode: Option<bool>
    var checkpointed: bool
    var launcherState: Option<LauncherState>

    /** What is suspended at an `await`, or over. */
    var requests: map<nat, Request>
    var bodies: map<nat, Wake>
    var outcomes: map<nat, Outcome>
    var started: nat
    var sleeper: Sleeper

    function Snapshot(): State
      reads this
    {
      State(Flags(sleepMode, checkpointed, launcherState), Wakes(wakePromise, bodies, outcomes, started), inFlight,
            requests, sleepPromise, sleeper)
    }

    constructor (c: Config)
      ensures Snapshot() == START && this.c == c
    {
      this.c := c;
      inFlight, wakePromise, sleepPromise, sleepMode, checkpointed, launcherState := 0, None, false, None, false, None;
      requests, bodies, outcomes, started, sleeper := map[], map[], map[], 0, Polls;
    }

    /** `fetch` until `await ensureAwake()`. */
    method Fetch(r: nat)
      requires r !in requests
      modifies this
      ensures Snapshot() == Apply(c, old(Snapshot()), Arrive(r))
    {
      inFlight := inFlight + 1;
      var awaited := EnsureAwake();
      requests := requests[r := Waits(awaited)];
    }

    /** `ensureAwake`: nothing to wait for, the wake-up that runs, or a new one. */
    method EnsureAwake() returns (awaited: Option<nat>)
      modifies this`wakePromise, this`bodies, this`started
      ensures (Wakes(wakePromise, bodies, outcomes, started), awaited) ==
              Begin(old(Snapshot()).flags, old(Snapshot()).wakes)
    {
      if sleepMode == Some(false) {
        return None;
      }
      if wakePromise.Some? {
        return wakePromise;
      }
      bodies := bodies[started := NEW_WAKE];
      wakePromise := Some(started);
      awaited := wakePromise;
      started := started + 1;
    }

    /** The rest of `fetch`: forwarding, or the error, and its `finally`. */
    method Proceed(r: nat)
      requires r in requests
      modifies this`requests, this`inFlight
      ensures Snapshot() == Apply(c, old(Snapshot()), Settle(r))
    {
      var q := requests[r];
      if q.Fetches? {
        return;
      }
      if q.wake.None? {
        requests := requests[r := Fetches(None)];
      } else if q.wake.value in outcomes {
        if outcomes[q.wake.value].ok {
          requests := requests[r := Fetches(q.wake)];
        } else {
          inFlight, requests := inFlight - 1, requests - {r};
        }
      }
    }

    method Respond(r: nat)
      requires r in requests && requests[r].Fetches?
      modifies this`requests, this`inFlight
      ensures Snapshot() == Apply(c, old(Snapshot()), Event.Respond(r))
    {
      inFlight, requests := inFlight - 1, requests - {r};
    }

    method ReconcileCheckpointState(reply: Reply) returns (health: Option<LauncherState>)
      modifies this`checkpointed, this`launcherState
      ensures Snapshot() == Apply(c, old(Snapshot()), Reconcile(reply))
      ensures checkpointed == Believes(c, old(Snapshot()).flags, reply)
      ensures health == if c.criu && reply.Health? then Some(reply.state) else None
    {
      if !c.criu || !reply.Health? {
        return None;
      }
      launcherState := Some(reply.state);
      if reply.state.Checkpointed? {
        checkpointed := true;
      } else if reply.state.Starting? || reply.state.Running? {
        checkpointed := false;
      }
      health := Some(reply.state);
    }

    method IsSleeping(reply: Reply) returns (answer: Option<bool>)
      modifies this`sleepMode
      ensures answer == Answer(reply)
      ensures Flags(sleepMode, checkpointed, launcherState) == Probed(old(Snapshot()).flags, reply)
    {
      answer := None;
      if reply.Missing? {
        sleepMode := Some(false);
        answer := Some(false);
      } else if reply.Asleep? || reply.Awake? {
        sleepMode := Some(true);
        answer := Some(reply.Asleep?);
      }
    }

    /** One turn of the wake body `id`, once what it awaited has come back. */
    method WakeBody(id: nat, reply: Reply)
      requires id in bodies
      modifies this`wakePromise, this`bodies, this`outcomes, this`sleepMode, this`checkpointed, this`launcherState
      ensures Snapshot() == Apply(c, old(Snapshot()), Turn(id, reply))
    {
      var next := Await(Hears(bodies[id], reply), reply);
      if next.Goes? {
        bodies := bodies[id := next.w];
      } else {
        wakePromise, bodies := None, bodies - {id};
        outcomes := outcomes[id := Outcome(next.ok, next.w.calls, next.w.heard)];
      }
    }

    /** From the `await` a body stands at to the next one, or to its end. */
    method Await(w: Wake, reply: Reply) returns (next: Then)
      modifies this`sleepMode, this`checkpointed, this`launcherState
      ensures (Flags(sleepMode, checkpointed, launcherState), next) == WakeTurn(c, old(Snapshot()).flags, w, reply)
    {
      match w.at {
        case OnHealth =>
          next := AskLauncher(w, reply);
        case OnResume =>
          if reply.Throws? {
            next := Goes(w.(at := OnRecovery));
          } else {
            launcherState := Some(if reply.Health? then reply.state else Running);
            next := AfterLauncher(w);
          }
        case OnRecovery =>
          next := WaitForLauncher(w, reply, false);
        case OnRunning =>
          next := WaitForLauncher(w, reply, true);
        case OnFirstProbe =>
          next := Probe(w, reply);
        case OnProbe =>
          next := Probe(w, reply);
        case OnWeights =>
          next := if reply.Throws? then Ends(false, w) else Next(w, OnReload, ReloadWeights);
        case OnReload =>
          next := if reply.Throws? then Ends(false, w) else Next(w, OnKv, WakeKv);
        case _ =>
          next := if reply.Throws? then Ends(false, w) else Goes(w.(at := OnProbe));
      }
    }

    method AskLauncher(w: Wake, reply: Reply) returns (next: Then)
      requires w.at.OnHealth?
      modifies this`checkpointed, this`launcherState
      ensures (Flags(sleepMode, checkpointed, launcherState), next) == WakeTurn(c, old(Snapshot()).flags, w, reply)
    {
      var health := ReconcileCheckpointState(reply);
      var w' := w.(restoring := health == Some(Restoring));
      if checkpointed {
        checkpointed := false;
        next := Next(w', OnResume, Resume);
      } else {
        next := AfterLauncher(w');
      }
    }

    method WaitForLauncher(w: Wake, reply: Reply, strict: bool) returns (next: Then)
      modifies this`checkpointed, this`launcherState
      ensures (Flags(sleepMode, checkpointed, launcherState), next) == WaitTurn(old(Snapshot()).flags, w, reply, strict)
    {
      if !reply.Health? {
        return if reply.Throws? then Ends(false, w) else Goes(w);
      }
      launcherState := Some(reply.state);
      if reply.state.Running? && reply.ok {
        return if strict then Goes(w.(at := OnFirstProbe)) else AfterLauncher(w);
      }
      if strict && reply.state.Checkpointed? {
        checkpointed := true;
        return Ends(false, w);
      }
      next := if reply.state.Failed? || reply.state.Stopped? then Ends(false, w) else Goes(w);
    }

    method Probe(w: Wake, reply: Reply) returns (next: Then)
      modifies this`sleepMode
      ensures Flags(sleepMode, checkpointed, launcherState) == Probed(old(Snapshot()).flags, reply)
      ensures next == ProbeTurn(c, w.(probe := Answer(reply)))
    {
      var asleep := IsSleeping(reply);
      var w' := w.(probe := asleep);
      if asleep.None? {
        return Ends(false, w');
      }
      if !asleep.value {
        return Ends(true, w');
      }
      if w.at.OnProbe? {
        return Goes(w');
      }
      next := if c.levelTwo then Next(w', OnWeights, WakeWeights) else Next(w', OnWakeUp, WakeAll);
    }

    /** `trySleep`: its test, up to the probe. */
    method TrySleep()
      modifies this`sleeper
      ensures Snapshot() == Apply(c, old(Snapshot()), Event.TrySleep)
    {
      if !sleeper.Polls? || sleepMode == Some(false) || sleepPromise || wakePromise.Some? || inFlight > 0 {
        return;
      }
      sleeper := Checks;
    }

    method Sleep(reply: Reply)
      modifies this`sleeper, this`sleepPromise, this`sleepMode, this`checkpointed
      ensures Snapshot() == Apply(c, old(Snapshot()), SleepTurn(reply))
    {
      match sleeper
      case Polls =>
      case Checks =>
        var asleep := IsSleeping(reply);
        if asleep == Some(false) {
          sleepPromise, sleeper := true, if c.criu && c.levelTwo then Suspends else Posts;
        } else {
          sleeper := Polls;
        }
      case Suspends =>
        if !reply.Throws? {
          checkpointed, sleepMode := true, Some(true);
        }
        sleepPromise, sleeper := false, Polls;
      case Posts =>
        sleepPromise, sleeper := false, Polls;
    }

    /** The event loop, for any number of turns in any order: whatever it does is a run. */
    method Loop() returns (ghost es: seq<Event>)
      requires Snapshot() == START
      modifies this
      ensures Snapshot() == Run(c, es)
    {
      es := [];
      var n: nat :| true;
      while n > 0
        invariant Snapshot() == Run(c, es)
      {
        var e: Event := *;
        TakeTurn(e);
        assert (es + [e])[..|es|] == es;
        es := es + [e];
        n := n - 1;
      }
    }

    method TakeTurn(e: Event)
      modifies this
      ensures Snapshot() == Apply(c, old(Snapshot()), e)
    {
      match e
      case Arrive(r) => if r !in requests { Fetch(r); }
      case Settle(r) => if r in requests { Proceed(r); }
      case Respond(r) => if r in requests && requests[r].Fetches? { Respond(r); }
      case Turn(id, reply) => if id in bodies { WakeBody(id, reply); }
      case Reconcile(reply) => var _ := ReconcileCheckpointState(reply);
      case TrySleep => TrySleep();
      case SleepTurn(reply) => Sleep(reply);
    }
  }
}
