/** The commands that the launcher issues for a process, and what they leave of it. */
module Commands {
  import opened Protocol

  datatype Cuda = CudaRunning | CudaLocked | CudaCheckpointed

  /** What of the model is on the GPU. */
  datatype Memory = Memory(weights: bool, contents: bool, kvCache: bool)

  const RESIDENT := Memory(true, true, true)
  const DISCARDED := Memory(false, false, false)

  datatype Command =
    | SleepLevel | Prepare
    | Lock | Checkpoint | QueryState | RestoreCuda | Unlock | Dump
    | WakeWeights | LoadWeights | WakeKv

  /** How a command ends: exit status 0, another status (`CheckpointError`), or `TimeoutExpired`, in which case
      it may or may not have taken effect. */
  datatype End = Done | Rejected | TimedOut

  /** A command issued for the process `pid`, whose CUDA state was `at` then; `took` is whether it took effect. */
  datatype Call = Call(cmd: Command, pid: nat, at: Cuda, end: End, took: bool)

  predicate Ready(cmd: Command, at: Cuda) {
    match cmd
    case Lock => at.CudaRunning?
    case Checkpoint => at.CudaLocked?
    case _ => true
  }

  function CudaAfter(cmd: Command, at: Cuda): Cuda {
    match cmd
    case Lock => CudaLocked
    case Checkpoint => CudaCheckpointed
    case RestoreCuda => if at.CudaCheckpointed? then CudaLocked else at
    case Unlock => if at.CudaLocked? then CudaRunning else at
    case _ => at
  }

  function MemoryAfter(cmd: Command, m: Memory): Memory {
    match cmd
    case SleepLevel => DISCARDED
    case WakeWeights => m.(weights := true)
    case LoadWeights => m.(contents := m.weights)
    case WakeKv => m.(kvCache := true)
    case _ => m
  }

  /** CRIU is only ever asked to dump a process that is locked and whose CUDA state is saved. */
  predicate SafeDumps(calls: seq<Call>) {
    forall k :: 0 <= k < |calls| && calls[k].cmd.Dump? ==> calls[k].at.CudaCheckpointed?
  }

  /** What succeeds takes effect, what is rejected does not. */
  predicate Honest(calls: seq<Call>) { forall k :: 0 <= k < |calls| ==> HonestCall(calls[k]) }

  predicate HonestCall(call: Call) { (call.end.Done? ==> call.took) && (call.end.Rejected? ==> !call.took) }

  predicate LastTook(calls: seq<Call>) { calls != [] && calls[|calls| - 1].took }

  predicate Succeeded(call: Call, cmd: Command, pid: int) { call.cmd == cmd && call.pid == pid && call.end.Done? }

  /** After `before`, exactly the commands `cmds` were issued, for `pid`, and all succeeded. */
  predicate Issued(before: seq<Call>, after: seq<Call>, cmds: seq<Command>, pid: int) {
    && before <= after && |after| == |before| + |cmds|
    && forall k :: 0 <= k < |cmds| ==> Succeeded(after[|before| + k], cmds[k], pid)
  }

  lemma IssuedJoins(a: seq<Call>, b: seq<Call>, c: seq<Call>, xs: seq<Command>, ys: seq<Command>, pid: int)
    requires Issued(a, b, xs, pid) && Issued(b, c, ys, pid)
    ensures Issued(a, c, xs + ys, pid)
  {
    forall k | 0 <= k < |xs + ys| ensures Succeeded(c[|a| + k], (xs + ys)[k], pid) {
      if k < |xs| {
        assert Succeeded(b[|a| + k], xs[k], pid);
      } else {
        assert Succeeded(c[|b| + (k - |xs|)], ys[k - |xs|], pid);
      }
    }
  }

  lemma IssuedSplits(a: seq<Call>, b: seq<Call>, c: seq<Call>, xs: seq<Command>, ys: seq<Command>, pid: int)
    requires Issued(a, b, xs, pid) && Issued(a, c, xs + ys, pid) && b <= c
    ensures Issued(b, c, ys, pid)
  {
    forall k | 0 <= k < |ys| ensures Succeeded(c[|b| + k], ys[k], pid) {
      assert Succeeded(c[|a| + (|xs| + k)], (xs + ys)[|xs| + k], pid);
    }
  }

  const ROLLBACK: seq<Command> := [RestoreCuda, Unlock] + [WakeWeights, LoadWeights, WakeKv]

  /** The five commands of a rollback were issued last, in this order, and all succeeded. */
  predicate RolledBack(calls: seq<Call>, pid: int) {
    |calls| >= 5 && Issued(calls[..|calls| - 5], calls, ROLLBACK, pid)
  }

  /** After `before`, the first few of `cmds` were issued in order, for `pid`; all but the last of these succeeded. */
  predicate InOrder(before: seq<Call>, after: seq<Call>, cmds: seq<Command>, pid: int) {
    && before <= after && |after| <= |before| + |cmds|
    && forall k :: 0 <= k < |after| - |before| ==> InOrderAt(after, |before| + k, cmds[k], pid)
  }

  predicate InOrderAt(after: seq<Call>, i: nat, cmd: Command, pid: int)
    requires i < |after|
  {
    after[i].cmd == cmd && after[i].pid == pid && (i + 1 < |after| ==> after[i].end.Done?)
  }

  lemma InOrderJoins(a: seq<Call>, b: seq<Call>, c: seq<Call>, xs: seq<Command>, ys: seq<Command>, pid: int)
    requires Issued(a, b, xs, pid) && InOrder(b, c, ys, pid)
    ensures InOrder(a, c, xs + ys, pid)
  {
    forall k | 0 <= k < |c| - |a| ensures InOrderAt(c, |a| + k, (xs + ys)[k], pid) {
      if k < |xs| {
        assert Succeeded(b[|a| + k], xs[k], pid);
      } else {
        assert InOrderAt(c, |b| + (k - |xs|), ys[k - |xs|], pid);
      }
    }
  }

  lemma InOrderGoesOn(a: seq<Call>, b: seq<Call>, xs: seq<Command>, ys: seq<Command>, pid: int)
    requires InOrder(a, b, xs, pid)
    ensures InOrder(a, b, xs + ys, pid)
  {
    forall k | 0 <= k < |b| - |a| ensures InOrderAt(b, |a| + k, (xs + ys)[k], pid) {
      assert InOrderAt(b, |a| + k, xs[k], pid);
    }
  }

  /** The calls added, by themselves. */
  lemma Added(a: seq<Call>, b: seq<Call>, cmds: seq<Command>, pid: int)
    requires InOrder(a, b, cmds, pid)
    ensures b == a + b[|a|..] && InOrder([], b[|a|..], cmds, pid)
    ensures Issued(a, b, cmds, pid) <==> Issued([], b[|a|..], cmds, pid)
  {
    var more := b[|a|..];
    forall k | 0 <= k < |more| ensures InOrderAt(more, k, cmds[k], pid) {
      assert InOrderAt(b, |a| + k, cmds[k], pid);
    }
    if |more| == |cmds| {
      assert forall k :: 0 <= k < |cmds| ==> more[k] == b[|a| + k];
    }
  }

  /** What puts the model to sleep, if it is to sleep, and prepares the communicators. */
  function QuiesceCommands(c: Config): seq<Command> {
    if c.sleepLevel != 0 then [SleepLevel, Prepare] else [Prepare]
  }

  function FreezeCommands(c: Config): seq<Command> { QuiesceCommands(c) + [Lock, Checkpoint] }

  lemma WholeSuspend(c: Config, before: seq<Call>, frozen: seq<Call>, after: seq<Call>, pid: int)
    requires Issued(before, frozen, FreezeCommands(c), pid) && Issued(frozen, after, [Dump], pid)
    ensures Issued(before, after, if c.sleepLevel != 0 then [SleepLevel, Prepare, Lock, Checkpoint, Dump]
                                  else [Prepare, Lock, Checkpoint, Dump], pid)
  {
    IssuedJoins(before, frozen, after, FreezeCommands(c), [Dump], pid);
    assert FreezeCommands(c) + [Dump] == if c.sleepLevel != 0 then [SleepLevel, Prepare, Lock, Checkpoint, Dump]
                                         else [Prepare, Lock, Checkpoint, Dump];
  }

  /** The commands up to the CUDA checkpoint were issued in order, and `ok` is whether all of them succeeded. */
  predicate Froze(c: Config, before: seq<Call>, after: seq<Call>, pid: int, ok: bool) {
    InOrder(before, after, FreezeCommands(c), pid) && (ok <==> Issued(before, after, FreezeCommands(c), pid))
  }

  /** Then CRIU was asked for a dump, if all of them succeeded. */
  predicate Dumped(before: seq<Call>, after: seq<Call>, pid: int, asked: bool) {
    if asked then InOrder(before, after, [Dump], pid) && |after| == |before| + 1 else after == before
  }

  /** A `restore_if_needed` that raised nothing: the query succeeded, then a restore was tried, and an unlock exactly if
      the restore succeeded. */
  predicate RevivedBy(before: seq<Call>, after: seq<Call>, pid: int) {
    var n := |before|;
    && before <= after && n + 2 <= |after| <= n + 3 && (|after| == n + 3 <==> after[n + 1].end.Done?)
    && after[n].cmd.QueryState? && after[n].end.Done? && after[n].pid == pid
    && after[n + 1].cmd.RestoreCuda? && after[n + 1].pid == pid
    && (|after| == n + 3 ==> after[n + 2].cmd.Unlock? && after[n + 2].pid == pid)
  }

  // ----- What the commands leave of a process --------------------------------------------------------------

  /** What a process has on the GPU. */
  datatype Gpu = Gpu(cuda: Cuda, memory: Memory)

  const FINE := Gpu(CudaRunning, RESIDENT)

  function Gpus(cuda: seq<Cuda>, memory: seq<Memory>): seq<Gpu>
    requires |cuda| == |memory|
  {
    seq(|cuda|, p requires 0 <= p < |cuda| => Gpu(cuda[p], memory[p]))
  }

  function After(call: Call, p: nat, g: Gpu): Gpu {
    if call.took && call.pid == p then Gpu(CudaAfter(call.cmd, g.cuda), MemoryAfter(call.cmd, g.memory)) else g
  }

  function Replay(calls: seq<Call>, p: nat, g: Gpu): Gpu {
    if calls == [] then g else After(calls[|calls| - 1], p, Replay(calls[..|calls| - 1], p, g))
  }

  lemma ReplayOne(calls: seq<Call>, call: Call, p: nat, g: Gpu)
    ensures Replay(calls + [call], p, g) == After(call, p, Replay(calls, p, g))
  {
    assert (calls + [call])[..|calls|] == calls;
  }

  lemma ReplayedOn(calls: seq<Call>, since: nat, call: Call, base: seq<Gpu>, g: seq<Gpu>)
    requires since <= |calls| && |base| <= |g| && forall p :: 0 <= p < |base| ==> g[p] == Replay(calls[since..], p, base[p])
    ensures forall p :: 0 <= p < |base| ==> After(call, p, g[p]) == Replay((calls + [call])[since..], p, base[p])
  {
    assert (calls + [call])[since..] == calls[since..] + [call];
    forall p | 0 <= p < |base| ensures After(call, p, g[p]) == Replay((calls + [call])[since..], p, base[p]) {
      ReplayOne(calls[since..], call, p, base[p]);
    }
  }

  lemma {:induction false} ReplayJoins(xs: seq<Call>, ys: seq<Call>, p: nat, g: Gpu)
    ensures Replay(xs + ys, p, g) == Replay(ys, p, Replay(xs, p, g))
  {
    if ys == [] {
      assert xs + ys == xs;
    } else {
      ReplayJoins(xs, ys[..|ys| - 1], p, g);
      assert (xs + ys)[..|xs + ys| - 1] == xs + ys[..|ys| - 1];
    }
  }

  /** Some command of this kind took effect. */
  predicate Took(calls: seq<Call>, cmd: Command) { exists k :: 0 <= k < |calls| && calls[k].cmd == cmd && calls[k].took }

  lemma TookJoins(xs: seq<Call>, ys: seq<Call>, cmd: Command)
    ensures Took(xs + ys, cmd) <==> Took(xs, cmd) || Took(ys, cmd)
  {
    if Took(xs, cmd) {
      var k :| 0 <= k < |xs| && xs[k].cmd == cmd && xs[k].took;
      assert (xs + ys)[k] == xs[k];
    }
    if Took(ys, cmd) {
      var k :| 0 <= k < |ys| && ys[k].cmd == cmd && ys[k].took;
      assert (xs + ys)[|xs| + k] == ys[k];
    }
  }

  /** The calls of a suspend that fails: up to the CUDA checkpoint, CRIU's, and those of the rollback. */
  datatype Trail = Trail(froze: seq<Call>, dump: seq<Call>, thaw: seq<Call>, wake: seq<Call>)
  {
    function All(): seq<Call> { froze + dump + thaw + wake }
  }

  const THAW: seq<Command> := [RestoreCuda, Unlock]
  const WAKE: seq<Command> := [WakeWeights, LoadWeights, WakeKv]

  /** What the source can issue: the rest only if CUDA was checkpointed. */
  predicate Fits(c: Config, t: Trail, pid: nat, checkpointed: bool) {
    && InOrder([], t.froze, FreezeCommands(c), pid)
    && (checkpointed ==> Issued([], t.froze, FreezeCommands(c), pid) && InOrder([], t.dump, [Dump], pid) && |t.dump| == 1)
    && (!checkpointed ==> t.dump == t.thaw == t.wake == [] && !Issued([], t.froze, FreezeCommands(c), pid))
    && InOrder([], t.thaw, THAW, pid) && InOrder([], t.wake, WAKE, pid)
  }

  ghost predicate FailedTrail(c: Config, calls: seq<Call>, pid: nat, checkpointed: bool) {
    exists t: Trail :: t.All() == calls && Fits(c, t, pid, checkpointed)
  }

  /** A lock was undone, and so was a discarding of the memory. */
  predicate Recovered(calls: seq<Call>) {
    (Took(calls, Lock) ==> Took(calls, Unlock)) && (Took(calls, SleepLevel) ==> Took(calls, WakeKv))
  }

  lemma CommandAt(calls: seq<Call>, cmds: seq<Command>, pid: nat, k: nat)
    requires InOrder([], calls, cmds, pid) && k < |calls|
    ensures calls[k].cmd == cmds[k] && calls[k].pid == pid && (k + 1 < |calls| ==> calls[k].end.Done?)
  {
    assert InOrderAt(calls, k, cmds[k], pid);
  }

  lemma Shorter(calls: seq<Call>, cmds: seq<Command>, pid: nat)
    requires InOrder([], calls, cmds, pid) && Honest(calls) && calls != []
    ensures var n := |calls| - 1;
            && InOrder([], calls[..n], cmds, pid) && Honest(calls[..n]) && calls == calls[..n] + [calls[n]]
            && n < |cmds| && calls[n].cmd == cmds[n] && calls[n].pid == pid
            && forall k :: 0 <= k < n ==> calls[k].cmd == cmds[k] && calls[k].took
  {
    var n := |calls| - 1;
    forall k | 0 <= k <= n ensures calls[k].cmd == cmds[k] && calls[k].pid == pid && (k < n ==> calls[k].took) {
      assert InOrderAt(calls, k, cmds[k], pid);
      assert HonestCall(calls[k]);
    }
    forall k | 0 <= k < n ensures InOrderAt(calls[..n], k, cmds[k], pid) {
      assert InOrderAt(calls, k, cmds[k], pid);
    }
  }

  /** Up to the CUDA checkpoint. */
  function Frozen(calls: seq<Call>): Gpu {
    Gpu(if Took(calls, Checkpoint) then CudaCheckpointed else if Took(calls, Lock) then CudaLocked else CudaRunning,
        if Took(calls, SleepLevel) then DISCARDED else RESIDENT)
  }

  lemma {:induction false} WhatFreezeLeaves(c: Config, calls: seq<Call>, pid: nat)
    requires InOrder([], calls, FreezeCommands(c), pid) && Honest(calls)
    ensures Replay(calls, pid, FINE) == Frozen(calls)
  {
    if calls != [] {
      var n := |calls| - 1;
      Shorter(calls, FreezeCommands(c), pid);
      WhatFreezeLeaves(c, calls[..n], pid);
      ReplayOne(calls[..n], calls[n], pid, FINE);
      OneMoreTook(calls[..n], calls[n]);
      NotYetTook(c, calls, pid);
    }
  }

  lemma OneMoreTook(calls: seq<Call>, call: Call)
    ensures forall cmd :: Took(calls + [call], cmd) <==> Took(calls, cmd) || (call.cmd == cmd && call.took)
  {
    forall cmd ensures Took(calls + [call], cmd) <==> Took(calls, cmd) || (call.cmd == cmd && call.took) {
      TookJoins(calls, [call], cmd);
      assert Took([call], cmd) <==> call.cmd == cmd && call.took by {
        assert [call][0] == call;
      }
    }
  }

  /** CUDA is checkpointed after the lock, and put back nowhere in between. */
  lemma NotYetTook(c: Config, calls: seq<Call>, pid: nat)
    requires InOrder([], calls, FreezeCommands(c), pid) && Honest(calls) && calls != []
    ensures var n := |calls| - 1;
            && !Took(calls[..n], Checkpoint) && (calls[n].cmd.Checkpoint? ==> Took(calls[..n], Lock))
            && (Took(calls[..n], Lock) ==> calls[n].cmd.Checkpoint?) && (calls[n].cmd.SleepLevel? ==> n == 0)
  {
    var n, q := |calls| - 1, |QuiesceCommands(c)|;
    Shorter(calls, FreezeCommands(c), pid);
    assert calls[n].cmd.Checkpoint? ==> n == q + 1 && calls[..n][q] == calls[q];
    forall k | 0 <= k < n ensures !calls[..n][k].cmd.Checkpoint? && (calls[..n][k].cmd.Lock? ==> n == q + 1) {
      assert calls[k].cmd == FreezeCommands(c)[k];
    }
  }

  /** A thaw that begins with CUDA checkpointed. */
  lemma {:induction false} WhatThawLeaves(calls: seq<Call>, pid: nat, m: Memory)
    requires InOrder([], calls, THAW, pid) && Honest(calls)
    ensures Replay(calls, pid, Gpu(CudaCheckpointed, m))
         == Gpu(if Took(calls, Unlock) then CudaRunning else if Took(calls, RestoreCuda) then CudaLocked else CudaCheckpointed, m)
  {
    if calls != [] {
      var n := |calls| - 1;
      Shorter(calls, THAW, pid);
      WhatThawLeaves(calls[..n], pid, m);
      ReplayOne(calls[..n], calls[n], pid, Gpu(CudaCheckpointed, m));
      OneMoreTook(calls[..n], calls[n]);
      assert n == 1 ==> calls[..n][0] == calls[0];
      assert !Took(calls[..n], Unlock);
    }
  }

  lemma WakeSoFar(calls: seq<Call>, pid: nat)
    requires InOrder([], calls, WAKE, pid) && Honest(calls) && calls != []
    ensures var n := |calls| - 1;
            && (Took(calls[..n], WakeWeights) <==> n > 0) && (Took(calls[..n], LoadWeights) <==> n > 1)
            && !Took(calls[..n], WakeKv)
  {
    var n := |calls| - 1;
    Shorter(calls, WAKE, pid);
    if n > 0 {
      assert calls[..n][0].cmd == WAKE[0] && calls[..n][0].took;
    }
    if n > 1 {
      assert calls[..n][1].cmd == WAKE[1] && calls[..n][1].took;
    }
    assert forall k :: 0 <= k < n ==> calls[..n][k].cmd == WAKE[k];
  }

  lemma {:induction false} WhatWakeLeaves(calls: seq<Call>, pid: nat, cuda: Cuda, m: Memory)
    requires InOrder([], calls, WAKE, pid) && Honest(calls) && m in {RESIDENT, DISCARDED}
    ensures Replay(calls, pid, Gpu(cuda, m)) == Gpu(cuda, if m == RESIDENT then RESIDENT
      else Memory(Took(calls, WakeWeights), Took(calls, LoadWeights), Took(calls, WakeKv)))
    ensures Took(calls, WakeKv) ==> Took(calls, WakeWeights) && Took(calls, LoadWeights)
  {
    if calls != [] {
      var n := |calls| - 1;
      Shorter(calls, WAKE, pid);
      WhatWakeLeaves(calls[..n], pid, cuda, m);
      ReplayOne(calls[..n], calls[n], pid, Gpu(cuda, m));
      OneMoreTook(calls[..n], calls[n]);
      WakeSoFar(calls, pid);
    }
  }

  lemma DumpLeaves(calls: seq<Call>, pid: nat, g: Gpu)
    requires InOrder([], calls, [Dump], pid)
    ensures Replay(calls, pid, g) == g && forall cmd: Command :: !cmd.Dump? ==> !Took(calls, cmd)
  {
    if calls != [] {
      CommandAt(calls, [Dump], pid, 0);
      assert calls == [] + [calls[0]];
      ReplayOne([], calls[0], pid, g);
      assert CudaAfter(Dump, g.cuda) == g.cuda && MemoryAfter(Dump, g.memory) == g.memory;
    }
    forall cmd: Command | !cmd.Dump? ensures !Took(calls, cmd) {
      OnlyThese(calls, [Dump], pid, cmd);
    }
  }

  lemma OnlyThese(calls: seq<Call>, cmds: seq<Command>, pid: nat, cmd: Command)
    requires InOrder([], calls, cmds, pid) && cmd !in cmds
    ensures !Took(calls, cmd)
  {
    forall k | 0 <= k < |calls| ensures calls[k].cmd != cmd {
      assert InOrderAt(calls, k, cmds[k], pid);
    }
  }

  lemma TookInAll(t: Trail, cmd: Command)
    ensures Took(t.All(), cmd) <==> Took(t.froze, cmd) || Took(t.dump, cmd) || Took(t.thaw, cmd) || Took(t.wake, cmd)
  {
    TookJoins(t.froze, t.dump, cmd);
    TookJoins(t.froze + t.dump, t.thaw, cmd);
    TookJoins(t.froze + t.dump + t.thaw, t.wake, cmd);
  }

  /** Each of the four commands belongs to one part. */
  lemma WhoTook(c: Config, t: Trail, pid: nat, checkpointed: bool)
    requires Fits(c, t, pid, checkpointed)
    ensures (Took(t.All(), Lock) <==> Took(t.froze, Lock)) && (Took(t.All(), SleepLevel) <==> Took(t.froze, SleepLevel))
    ensures (Took(t.All(), Unlock) <==> Took(t.thaw, Unlock)) && (Took(t.All(), WakeKv) <==> Took(t.wake, WakeKv))
  {
    assert InOrder([], t.dump, [Dump], pid);
    DumpLeaves(t.dump, pid, FINE);
    TookInAll(t, Lock);
    TookInAll(t, SleepLevel);
    TookInAll(t, Unlock);
    TookInAll(t, WakeKv);
    OnlyThese(t.thaw, THAW, pid, Lock);
    OnlyThese(t.wake, WAKE, pid, Lock);
    OnlyThese(t.thaw, THAW, pid, SleepLevel);
    OnlyThese(t.wake, WAKE, pid, SleepLevel);
    OnlyThese(t.froze, FreezeCommands(c), pid, Unlock);
    OnlyThese(t.wake, WAKE, pid, Unlock);
    OnlyThese(t.froze, FreezeCommands(c), pid, WakeKv);
    OnlyThese(t.thaw, THAW, pid, WakeKv);
  }

  lemma HonestParts(t: Trail)
    requires Honest(t.All())
    ensures Honest(t.froze) && Honest(t.dump) && Honest(t.thaw) && Honest(t.wake)
  {
    var a, b, e := |t.froze|, |t.froze| + |t.dump|, |t.froze| + |t.dump| + |t.thaw|;
    forall k | 0 <= k < |t.froze| ensures HonestCall(t.froze[k]) { assert t.All()[k] == t.froze[k]; }
    forall k | 0 <= k < |t.dump| ensures HonestCall(t.dump[k]) { assert t.All()[a + k] == t.dump[k]; }
    forall k | 0 <= k < |t.thaw| ensures HonestCall(t.thaw[k]) { assert t.All()[b + k] == t.thaw[k]; }
    forall k | 0 <= k < |t.wake| ensures HonestCall(t.wake[k]) { assert t.All()[e + k] == t.wake[k]; }
  }

  /** A freeze that was completed took its lock and its checkpoint. */
  lemma CompleteFreeze(c: Config, calls: seq<Call>, pid: nat)
    requires Issued([], calls, FreezeCommands(c), pid) && Honest(calls)
    ensures Took(calls, Lock) && Took(calls, Checkpoint)
  {
    var q := |QuiesceCommands(c)|;
    assert Succeeded(calls[q], FreezeCommands(c)[q], pid) && Succeeded(calls[q + 1], FreezeCommands(c)[q + 1], pid);
    assert HonestCall(calls[q]) && HonestCall(calls[q + 1]);
  }

  /** After a failed suspend a process that was fine is fine again exactly if what locked it was undone, and what
      discarded its memory. */
  lemma WhatFailureLeaves(c: Config, t: Trail, pid: nat, checkpointed: bool)
    requires Fits(c, t, pid, checkpointed) && Honest(t.All())
    ensures Replay(t.All(), pid, FINE) == FINE <==> Recovered(t.All())
  {
    HonestParts(t);
    WhoTook(c, t, pid, checkpointed);
    WhatFreezeLeaves(c, t.froze, pid);
    var frozen := Frozen(t.froze);
    ReplayJoins(t.froze, t.dump, pid, FINE);
    ReplayJoins(t.froze + t.dump, t.thaw, pid, FINE);
    ReplayJoins(t.froze + t.dump + t.thaw, t.wake, pid, FINE);
    DumpLeaves(t.dump, pid, frozen);
    if checkpointed {
      CompleteFreeze(c, t.froze, pid);
      WhatThawLeaves(t.thaw, pid, frozen.memory);
      WhatWakeLeaves(t.wake, pid, Replay(t.thaw, pid, frozen).cuda, frozen.memory);
    } else {
      assert Replay([], pid, frozen) == frozen;
      CheckpointNeedsLock(c, t.froze, pid);
    }
  }

  lemma CheckpointNeedsLock(c: Config, calls: seq<Call>, pid: nat)
    requires InOrder([], calls, FreezeCommands(c), pid) && Honest(calls)
    ensures Took(calls, Checkpoint) ==> Took(calls, Lock)
  {
    if calls != [] {
      var n := |calls| - 1;
      Shorter(calls, FreezeCommands(c), pid);
      NotYetTook(c, calls, pid);
      OneMoreTook(calls[..n], calls[n]);
    }
  }

  /** Some command of this kind succeeded. */
  predicate Succeeds(calls: seq<Call>, cmd: Command) { exists k :: 0 <= k < |calls| && calls[k].cmd == cmd && calls[k].end.Done? }

  predicate InTime(calls: seq<Call>) { forall k :: 0 <= k < |calls| ==> !calls[k].end.TimedOut? }

  lemma InTimeTakes(calls: seq<Call>, cmd: Command)
    requires Honest(calls) && InTime(calls)
    ensures Took(calls, cmd) <==> Succeeds(calls, cmd)
  {
    assert forall k :: 0 <= k < |calls| ==> HonestCall(calls[k]);
  }

  /** Where no command times out, by the branches of the source: past the CUDA checkpoint, if the rollback got through to
      its unlock and, if the model slept, to its last wake-up; before it, if neither sleep nor lock succeeded. */
  lemma ByBranches(c: Config, t: Trail, pid: nat, checkpointed: bool)
    requires Fits(c, t, pid, checkpointed) && Honest(t.All()) && InTime(t.All())
    ensures Replay(t.All(), pid, FINE) == FINE <==>
      if checkpointed then Succeeds(t.All(), Unlock) && (c.sleepLevel != 0 ==> Succeeds(t.All(), WakeKv))
      else !Succeeds(t.All(), SleepLevel) && !Succeeds(t.All(), Lock)
  {
    WhatFailureLeaves(c, t, pid, checkpointed);
    HonestParts(t);
    WhoTook(c, t, pid, checkpointed);
    InTimeTakes(t.All(), Lock);
    InTimeTakes(t.All(), SleepLevel);
    InTimeTakes(t.All(), Unlock);
    InTimeTakes(t.All(), WakeKv);
    if checkpointed {
      CompleteFreeze(c, t.froze, pid);
      SleepIsFirst(c, t.froze, pid);
    } else {
      assert !Took(t.thaw, Unlock) && !Took(t.wake, WakeKv);
    }
  }

  lemma SleepIsFirst(c: Config, calls: seq<Call>, pid: nat)
    requires Issued([], calls, FreezeCommands(c), pid) && Honest(calls) && InOrder([], calls, FreezeCommands(c), pid)
    ensures Took(calls, SleepLevel) <==> c.sleepLevel != 0
  {
    if c.sleepLevel != 0 {
      assert Succeeded(calls[0], FreezeCommands(c)[0], pid) && HonestCall(calls[0]);
    } else {
      OnlyThese(calls, FreezeCommands(c), pid, SleepLevel);
    }
  }

  /** The parts put together. */
  lemma FailedParts(c: Config, before: seq<Call>, frozen: seq<Call>, dumped: seq<Call>, thaw: seq<Call>, wake: seq<Call>,
                    pid: nat, checkpointed: bool)
    requires Froze(c, before, frozen, pid, checkpointed) && Dumped(frozen, dumped, pid, checkpointed)
    requires InOrder([], thaw, THAW, pid) && InOrder([], wake, WAKE, pid) && (!checkpointed ==> thaw == wake == [])
    ensures var after := dumped + thaw + wake;
            && before <= after && FailedTrail(c, after[|before|..], pid, checkpointed)
            && (Succeeds(after[|before|..], Dump) <==> checkpointed && dumped[|frozen|].end.Done?)
  {
    var after := dumped + thaw + wake;
    Added(before, frozen, FreezeCommands(c), pid);
    if checkpointed {
      Added(frozen, dumped, [Dump], pid);
    }
    var t := Trail(frozen[|before|..], dumped[|frozen|..], thaw, wake);
    assert Fits(c, t, pid, checkpointed);
    assert after[|before|..] == t.All();
    DumpSucceeds(c, t, pid, checkpointed);
    assert checkpointed ==> t.dump[0] == dumped[|frozen|];
  }

  lemma DumpSucceeds(c: Config, t: Trail, pid: nat, checkpointed: bool)
    requires Fits(c, t, pid, checkpointed)
    ensures Succeeds(t.All(), Dump) <==> checkpointed && t.dump[0].end.Done?
  {
    if checkpointed {
      CommandAt(t.dump, [Dump], pid, 0);
      assert t.All()[|t.froze|] == t.dump[0];
    }
    forall k | 0 <= k < |t.All()| && t.All()[k].cmd.Dump? ensures checkpointed && k == |t.froze| {
      if k < |t.froze| {
        CommandAt(t.froze, FreezeCommands(c), pid, k);
      } else if k >= |t.froze| + |t.dump| {
        var i := k - |t.froze| - |t.dump|;
        if i < |t.thaw| { CommandAt(t.thaw, THAW, pid, i); } else { CommandAt(t.wake, WAKE, pid, i - |t.thaw|); }
      }
    }
  }

  // ----- Three failures that `state` does not show -----------------------------------------------------------

  function Success(cmd: Command, at: Cuda): Call { Call(cmd, 0, at, Done, true) }

  function Quiet(c: Config): seq<Call> {
    (if c.sleepLevel != 0 then [Success(SleepLevel, CudaRunning)] else []) + [Success(Prepare, CudaRunning)]
  }

  function FreezeOnly(froze: seq<Call>): Trail { Trail(froze, [], [], []) }

  lemma StoppedFits(c: Config, more: seq<Call>)
    requires InOrder([], more, [Lock, Checkpoint], 0) && Honest(more) && more != [] && !more[|more| - 1].end.Done?
    ensures var t := FreezeOnly(Quiet(c) + more); Fits(c, t, 0, false) && Honest(t.All()) && t.All() == Quiet(c) + more
  {
    var calls, q := Quiet(c) + more, |Quiet(c)|;
    forall k | 0 <= k < |calls| ensures InOrderAt(calls, k, FreezeCommands(c)[k], 0) && HonestCall(calls[k]) {
      if k >= q {
        assert InOrderAt(more, k - q, [Lock, Checkpoint][k - q], 0) && HonestCall(more[k - q]);
      }
    }
    assert |calls| == |FreezeCommands(c)| ==> !Succeeded(calls[|calls| - 1], FreezeCommands(c)[|calls| - 1], 0);
    assert calls + [] + [] + [] == calls;
  }

  /** The CUDA checkpoint is rejected, and nobody unlocks the process. */
  lemma LockedWhileRunning(c: Config) returns (t: Trail)
    ensures Fits(c, t, 0, false) && Honest(t.All()) && InTime(t.All()) && Replay(t.All(), 0, FINE).cuda.CudaLocked?
  {
    var more := [Success(Lock, CudaRunning), Call(Checkpoint, 0, CudaLocked, Rejected, false)];
    StoppedFits(c, more);
    t := FreezeOnly(Quiet(c) + more);
    WhatFreezeLeaves(c, t.froze, 0);
    assert t.All()[|Quiet(c)|].cmd == Lock && t.froze == t.All();
    assert forall k :: 0 <= k < |t.froze| ==> !(t.froze[k].cmd.Checkpoint? && t.froze[k].took);
  }

  /** The lock takes effect, but times out: `checkpoint_vllm` does not even know of it. */
  lemma LockedUnknown(c: Config) returns (t: Trail)
    ensures Fits(c, t, 0, false) && Honest(t.All()) && !Succeeds(t.All(), Lock) && Replay(t.All(), 0, FINE).cuda.CudaLocked?
  {
    var more := [Call(Lock, 0, CudaRunning, TimedOut, true)];
    assert InOrderAt(more, 0, Lock, 0);
    StoppedFits(c, more);
    t := FreezeOnly(Quiet(c) + more);
    WhatFreezeLeaves(c, t.froze, 0);
    assert t.All()[|Quiet(c)|].cmd == Lock && t.froze == t.All();
    assert forall k :: 0 <= k < |t.froze| ==> !t.froze[k].cmd.Checkpoint?;
  }

  /** The lock is rejected after the model was put to sleep, and nobody wakes it. */
  lemma AsleepWhileRunning(c: Config) returns (t: Trail)
    requires c.sleepLevel != 0
    ensures Fits(c, t, 0, false) && Honest(t.All()) && InTime(t.All())
    ensures Replay(t.All(), 0, FINE) == Gpu(CudaRunning, DISCARDED)
  {
    var more := [Call(Lock, 0, CudaRunning, Rejected, false)];
    assert InOrderAt(more, 0, Lock, 0);
    StoppedFits(c, more);
    t := FreezeOnly(Quiet(c) + more);
    WhatFreezeLeaves(c, t.froze, 0);
    assert t.All()[0].cmd == SleepLevel && t.froze == t.All();
    assert forall k :: 0 <= k < |t.froze| ==> !t.froze[k].cmd.Checkpoint? && !(t.froze[k].cmd.Lock? && t.froze[k].took);
  }
}
