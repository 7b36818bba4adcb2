/**
 What holds in every run of processes and pipes: reference counts, one place per process,
 exit codes, byte streams, and when a pipe cannot get stuck.
 */
module KernelRuns {
  import opened Kernel
  import opened KernelOps
  import opened KernelCalls
  import Sched

  // ---------------------------------------------------------------- every step, every run

  lemma ResumedInv(k: K, p: nat)
    requires KernelInv(k) && Current(k, p) && k.procs[p].todo != User
    ensures KernelInv(Resumed(k, p).0) <==> !Early(k, Resume)
  {
    hide KernelInv, ReadSegment, WriteSegment, WaitResumed, Holds;
    Runner(k, p);
    match k.procs[p].todo
    case InRead(i, want) => ReadSegmentInv(k, p, i, want);
    case InWrite(i, rest, written) => WriteSegmentInv(k, p, i, rest, written);
    case InWait(c) => WaitResumedInv(k, p);
  }

  lemma DescriptorCallInv(k: K, p: nat, e: Event)
    requires KernelInv(k) && Current(k, p) && k.procs[p].todo == User && Able(k, e)
    requires e.Close? || e.Open? || e.Read? || e.Write?
    ensures KernelInv(Do(k, e).0) <==> !Early(k, e)
  {
    hide KernelInv, CloseFd, PutFd, ReadSegment, WriteSegment;
    Runner(k, p);
    match e
    case Close(f) => if f >= FD_STDIO && Slot(k, p, f) != NoFd { CloseFdInv(k, p, f); }
    case Open =>
      var f := FreeSlot(k.procs[p].fds, FD_STDIO);
      if f < FD_MAX { PutFdInv(k, p, f, File); }
    case Read(f, want) =>
      var fd := Slot(k, p, f);
      if want > 0 && fd.PipeEnd? && fd.dir == ReadEnd { ReadSegmentInv(k, p, fd.pipe, want); }
    case Write(f, data) =>
      var fd := Slot(k, p, f);
      if data != [] && fd.PipeEnd? && fd.dir == WriteEnd { WriteSegmentInv(k, p, fd.pipe, data, 0); }
  }

  lemma WaitpidInTime(k: K, p: nat, c: nat)
    requires KernelInv(k) && Current(k, p) && Able(k, Waitpid(c))
    ensures !Early(k, Waitpid(c))
  {
    hide KernelInv;
    Bounds(k);
    if Sleeps(k, Waitpid(c)) { ParentIsActive(k, p, c); }
  }

  /**
   Every segment of every call, and every timer tick, keeps the invariant, if and only if it does
   not make a process wait before the scheduler is active.
   */
  lemma DoInv(k: K, e: Event)
    requires KernelInv(k) && Able(k, e)
    ensures KernelInv(Do(k, e).0) <==> !Early(k, e)
  {
    hide KernelInv, Ticked, KernelExec, Resumed, SysPipe, SysDup2, SysClose, SysOpen, SysRead, SysWrite, SysExec,
      SysWaitpid, SysExit;
    match e
    case Timer => TickedInv(k);
    case Start(load) => KernelExecInv(k, load);
    case _ =>
      var p := k.sched.cpu.who;
      Runner(k, p);
      match e
      case Resume => ResumedInv(k, p);
      case PipeCall => SysPipeInv(k, p);
      case Dup2(o, n) => SysDup2Inv(k, p, o, n);
      case Exec(load) => SysExecInv(k, p, load);
      case Waitpid(c) => SysWaitpidInv(k, p, c); WaitpidInTime(k, p, c);
      case Exit(code) => SysExitInv(k, p, code);
      case _ => DescriptorCallInv(k, p, e);
  }

  predicate Possible(k: K, run: seq<Event>)
    decreases |run|
  {
    run == [] || (Able(k, run[0]) && Possible(Do(k, run[0]).0, run[1..]))
  }

  function Final(k: K, run: seq<Event>): K
    requires Possible(k, run)
    decreases |run|
  {
    if run == [] then k else Final(Do(k, run[0]).0, run[1..])
  }

  /** No process has to wait before the scheduler is active. */
  predicate Calm(k: K, run: seq<Event>)
    requires Possible(k, run)
    decreases |run|
  {
    run == [] || (!Early(k, run[0]) && Calm(Do(k, run[0]).0, run[1..]))
  }

  /** A process waits for ever, with the processor in its hands. */
  predicate Spinning(k: K) {
    && !k.sched.active && k.sched.cpu.Runs? && !k.sched.cpu.runnable
    && k.sched.cpu.who in k.procs && k.procs[k.sched.cpu.who].todo != User
  }

  /** The descriptor slot a read or write is about. */
  function WaitSlot(k: K, e: Event): Fd
    requires Able(k, e)
  {
    match e
    case Read(f, _) => Slot(k, k.sched.cpu.who, f)
    case Write(f, _) => Slot(k, k.sched.cpu.who, f)
    case _ => NoFd
  }

  /** Before the scheduler is active no call is resumed, and no child waited for. */
  lemma EarlyIsTransfer(k: K, e: Event)
    requires KernelInv(k) && Able(k, e) && Early(k, e)
    ensures (e.Read? || e.Write?) && WaitSlot(k, e).PipeEnd? && WaitSlot(k, e).pipe < |k.pipes|
  {
    NoEarlyWait(k, e);
  }

  lemma NoEarlyWait(k: K, e: Event)
    requires KernelInv(k) && Able(k, e)
    ensures e.Waitpid? ==> !Early(k, e)
  {
    if e.Waitpid? {
      Runner(k, k.sched.cpu.who);
      WaitpidInTime(k, k.sched.cpu.who, e.c);
    }
  }

  lemma EarlySpins(k: K, e: Event)
    requires KernelInv(k) && Able(k, e) && Early(k, e)
    ensures Spinning(Do(k, e).0)
  {
    hide KernelInv, Filled;
    EarlyIsTransfer(k, e);
    Runner(k, k.sched.cpu.who);
    var i := WaitSlot(k, e).pipe;
    DormantUnwaited(k, i, ReadEnd);
    if e.Write? { FilledKeeps(k, k.sched.cpu.who, i, e.data[..Min(Room(k.pipes[i]), |e.data|)]); }
  }

  lemma SpinningTimer(k: K, e: Event)
    requires Spinning(k) && Able(k, e)
    ensures e == Timer && Do(k, e).0 == k
  {
  }

  /** From then on only timer ticks happen, and they change nothing. */
  lemma {:induction false} SpinsForever(k: K, run: seq<Event>)
    requires Spinning(k) && Possible(k, run)
    ensures Final(k, run) == k && forall n :: 0 <= n < |run| ==> run[n] == Timer
    decreases |run|
  {
    if run != [] {
      assert run[0] == Timer;
      SpinsForever(k, run[1..]);
      assert forall n :: 1 <= n < |run| ==> run[n] == run[1..][n - 1];
    }
  }

  /** The invariant holds at the end of a run if and only if no process had to wait too early. */
  lemma {:induction false} RunInv(k: K, run: seq<Event>)
    requires KernelInv(k) && Possible(k, run)
    ensures KernelInv(Final(k, run)) <==> Calm(k, run)
    decreases |run|
  {
    hide KernelInv, Do, Early;
    if run != [] {
      DoInv(k, run[0]);
      if Early(k, run[0]) {
        EarlySpins(k, run[0]);
        SpinsForever(Do(k, run[0]).0, run[1..]);
      } else {
        RunInv(Do(k, run[0]).0, run[1..]);
      }
    }
  }

  // ---------------------------------------------------------------- exit codes

  /** History only grows. */
  predicate Grown(k: K, k': K) {
    && (forall p :: p in k.exited ==> p in k'.exited && k'.exited[p] == k.exited[p])
    && k.log <= k'.log
  }

  /** Taking out a zombie hands over exactly what it exited with, to its parent. */
  lemma ReapDelivers(k: K, p: nat, c: nat)
    requires KernelInv(k) && c in k.procs && k.procs[c].parent == p && k.procs[c].state == Zombie
    ensures var (k', ret) := Reap(k, c);
            && c in k.exited && k.exited[c] == Delivery(c, p, k.procs[c].exitCode) && ret == Value(k.exited[c].code)
            && k'.log == k.log + [k.exited[c]] && k'.exited == k.exited && c !in k'.procs
  {
    assert ProcOk(k, c);
    hide KernelInv;
    AllClosedInv(k, c, 0);
    assert SameProcess(k.procs[c], AllClosed(k, c, 0).procs[c]);
  }

  lemma NewProcessHistory(k: K, parent: nat, fds: seq<Fd>)
    requires KernelInv(k) && parent < k.nextPid && (parent == PID_NONE ==> !k.sched.cpu.Runs?) && HasSlot(k)
    requires forall f :: 0 <= f < |fds| ==> FdOk(fds[f])
    ensures Inherit(Spawn(k, parent), k.nextPid, fds, 0).log == k.log
    ensures Inherit(Spawn(k, parent), k.nextPid, fds, 0).exited == k.exited
  {
    hide KernelInv;
    SpawnInv(k, parent);
    InheritInv(Spawn(k, parent), k.nextPid, fds, 0);
  }

  /** The event takes a child's exit code out of waitpid. */
  ghost predicate Hands(k: K, e: Event, c: nat)
    requires Able(k, e)
  {
    var (k', ret) := Do(k, e);
    && k.sched.cpu.Runs? && c in k.procs && k.procs[c].state == Zombie && k.procs[c].parent == k.sched.cpu.who
    && c in k.exited && k.exited[c] == Delivery(c, k.sched.cpu.who, k.procs[c].exitCode)
    && ret == Value(k.exited[c].code) && k'.log == k.log + [k.exited[c]] && k'.exited == k.exited && c !in k'.procs
  }

  /** Nothing is delivered, and only a process that exits is recorded. */
  predicate Quiet(k: K, e: Event)
    requires Able(k, e)
  {
    var k' := Do(k, e).0;
    k'.log == k.log && (if e.Exit? then Grown(k, k') else k'.exited == k.exited)
  }

  lemma CloseHistory(k: K, e: Event)
    requires KernelInv(k) && Able(k, e) && (e.Close? || e.Dup2?)
    ensures Quiet(k, e)
  {
    hide KernelInv, CloseFd, Recount;
    var p := k.sched.cpu.who;
    Runner(k, p);
    match e
    case Close(f) => if f >= FD_STDIO && Slot(k, p, f) != NoFd { CloseFdSame(k, p, f); }
    case Dup2(o, n) => if 0 <= n < FD_MAX && Slot(k, p, n) != NoFd { CloseFdSame(k, p, n); }
  }

  lemma SlotHistory(k: K, e: Event)
    requires KernelInv(k) && Able(k, e) && (e.PipeCall? || e.Open?)
    ensures Quiet(k, e)
  {
    hide KernelInv, Recount;
    Runner(k, k.sched.cpu.who);
  }

  lemma StreamHistory(k: K, e: Event)
    requires KernelInv(k) && Able(k, e) && (e.Read? || e.Write?)
    ensures Quiet(k, e)
  {
    hide KernelInv, Sched.Schedule;
    Runner(k, k.sched.cpu.who);
  }

  lemma ExitHistory(k: K, e: Event)
    requires KernelInv(k) && Able(k, e) && e.Exit?
    ensures Quiet(k, e)
  {
    hide KernelInv, AllClosed, Sched.Schedule;
    var p := k.sched.cpu.who;
    Runner(k, p);
    if k.procs[p].parent == PID_NONE {
      AllClosedInv(k, p, 0);
      assert SameProcess(k.procs[p], AllClosed(k, p, 0).procs[p]);
    }
  }

  /** Each step delivers nothing, or the exit code of one zombie child to its parent, who gets it as the result. */
  lemma DoDelivers(k: K, e: Event)
    requires KernelInv(k) && Able(k, e)
    ensures Quiet(k, e) || exists c :: Hands(k, e, c)
  {
    hide KernelInv, Quiet, Hands;
    match e
    case Close(_) => CloseHistory(k, e);
    case Dup2(_, _) => CloseHistory(k, e);
    case PipeCall => SlotHistory(k, e);
    case Open => SlotHistory(k, e);
    case Read(_, _) => StreamHistory(k, e);
    case Write(_, _) => StreamHistory(k, e);
    case Exit(_) => ExitHistory(k, e);
    case Waitpid(c) => WaitHistory(k, e);
    case Resume => ResumeHistory(k, e);
    case _ => SpawnHistory(k, e);
  }

  lemma SpawnHistory(k: K, e: Event)
    requires KernelInv(k) && Able(k, e) && (e.Timer? || e.Start? || e.Exec?)
    ensures Quiet(k, e)
  {
    hide KernelInv, Inherit, Sched.Schedule;
    Bounds(k);
    match e
    case Start(load) => if HasSlot(k) && load.Loaded? { NewProcessHistory(k, PID_NONE, [Console, Console, Console]); }
    case Exec(load) =>
      Runner(k, k.sched.cpu.who);
      if HasSlot(k) && load.Loaded? { NewProcessHistory(k, k.sched.cpu.who, k.procs[k.sched.cpu.who].fds); }
    case Timer =>
  }

  lemma WaitHistory(k: K, e: Event)
    requires KernelInv(k) && Able(k, e) && e.Waitpid?
    ensures Quiet(k, e) || Hands(k, e, e.c)
  {
    hide KernelInv, Reap, Sched.Schedule;
    var p, c := k.sched.cpu.who, e.c;
    Runner(k, p);
    if c in k.procs && k.procs[c].parent == p && k.procs[c].state == Zombie {
      ReapDelivers(k, p, c);
    }
  }

  lemma ResumeHistory(k: K, e: Event)
    requires KernelInv(k) && Able(k, e) && e.Resume?
    ensures Quiet(k, e) || exists c :: Hands(k, e, c)
  {
    hide KernelInv, Reap, Sched.Schedule;
    var p := k.sched.cpu.who;
    Runner(k, p);
    if k.procs[p].todo.InWait? {
      var c := k.procs[p].todo.child;
      WokenFindsZombie(k, p);
      AwakeInv(k, p);
      ReapDelivers(Awake(k, p), p, c);
      assert Hands(k, e, c);
    }
  }

  /** Over any run, recorded exits stay and deliveries are only added. */
  lemma {:induction false} RunHistory(k: K, run: seq<Event>)
    requires KernelInv(k) && Possible(k, run)
    ensures Grown(k, Final(k, run))
    decreases |run|
  {
    hide KernelInv, Do, Early;
    if run != [] {
      DoInv(k, run[0]);
      DoDelivers(k, run[0]);
      if Early(k, run[0]) {
        EarlySpins(k, run[0]);
        SpinsForever(Do(k, run[0]).0, run[1..]);
      } else {
        RunHistory(Do(k, run[0]).0, run[1..]);
      }
    }
  }

  /** The process is not on the processor, in no queue, and a zombie if it is there at all. */
  predicate Gone(k: K, p: nat) {
    && !(k.sched.cpu.Runs? && k.sched.cpu.who == p) && p !in k.sched.queue
    && (forall i, d :: 0 <= i < PIPE_MAX && i < |k.pipes| ==> p !in Waiters(k.pipes[i], d))
    && (p in k.procs ==> k.procs[p].state == Zombie)
  }

  lemma ExitedGone(k: K, p: nat)
    requires KernelInv(k) && p in k.exited
    ensures Gone(k, p)
  {
    assert p in k.procs ==> ProcOk(k, p);
    OnePlace(k, p, OnCpu);
    OnePlace(k, p, InReady);
    hide KernelInv;
    forall i, d | 0 <= i < PIPE_MAX && i < |k.pipes| ensures p !in Waiters(k.pipes[i], d) {
      OnePlace(k, p, if d == ReadEnd then InReaders(i) else InWriters(i));
    }
  }

  /** Who starts to wait too early had not exited. */
  lemma EarlyGone(k: K, e: Event, p: nat)
    requires KernelInv(k) && Able(k, e) && Early(k, e) && p in k.exited
    ensures Gone(Do(k, e).0, p)
  {
    hide KernelInv, Filled, Gone;
    EarlyIsTransfer(k, e);
    ExitedGone(k, p);
    var who, i := k.sched.cpu.who, WaitSlot(k, e).pipe;
    Runner(k, who);
    if e.Read? {
      PartedGone(k, who, InRead(i, e.want), p);
    } else {
      var n := Min(Room(k.pipes[i]), |e.data|);
      Contents(k, i);
      FilledInv(k, who, i, e.data[..n]);
      DormantUnwaited(k, i, ReadEnd);
      FilledKeeps(k, who, i, e.data[..n]);
      FilledHistory(k, who, i, e.data[..n]);
      ExitedGone(Filled(k, who, i, e.data[..n]), p);
      PartedGone(Filled(k, who, i, e.data[..n]), who, InWrite(i, e.data[n..], n), p);
    }
  }

  lemma FilledHistory(k: K, p: nat, i: nat, data: seq<byte>)
    requires p in k.procs && i < |k.pipes|
    ensures Filled(k, p, i, data).exited == k.exited && Filled(k, p, i, data).log == k.log
    ensures Filled(k, p, i, data).stranded == k.stranded && Filled(k, p, i, data).procs.Keys == k.procs.Keys
    ensures Filled(k, p, i, data).nextPid == k.nextPid
  {
  }

  lemma PartedGone(k: K, who: nat, t: Todo, p: nat)
    requires Current(k, who) && !k.sched.active && Gone(k, p) && !t.User?
    ensures Gone(Parted(Sleep(k, who, t), who), p)
  {
    var k' := Parted(Sleep(k, who, t), who);
    forall i, d | 0 <= i < PIPE_MAX && i < |k'.pipes| ensures p !in Waiters(k'.pipes[i], d) {
      assert p !in Waiters(k.pipes[i], d);
    }
  }

  /**
   A process that has exited never runs again, is never queued and never sleeps: the panic
   after its yield is unreachable.
   */
  lemma {:induction false} ExitedNeverRuns(k: K, run: seq<Event>, p: nat)
    requires KernelInv(k) && Possible(k, run) && p in k.exited
    ensures Gone(Final(k, run), p)
    decreases |run|
  {
    hide KernelInv, Do, Early, Gone;
    if run == [] {
      ExitedGone(k, p);
    } else if Early(k, run[0]) {
      EarlyGone(k, run[0], p);
      EarlySpins(k, run[0]);
      SpinsForever(Do(k, run[0]).0, run[1..]);
    } else {
      DoInv(k, run[0]);
      DoDelivers(k, run[0]);
      ExitedNeverRuns(Do(k, run[0]).0, run[1..], p);
    }
  }

  lemma EarlyLog(k: K, e: Event)
    requires KernelInv(k) && Able(k, e) && Early(k, e)
    ensures LogOk(Do(k, e).0)
  {
    assert LogOk(k);
    EarlySame(k, e);
    LogFrame(k, Do(k, e).0);
  }

  lemma LogFrame(k: K, k': K)
    requires LogOk(k) && k'.exited == k.exited && k'.log == k.log && k'.procs.Keys == k.procs.Keys
    requires k'.nextPid == k.nextPid
    ensures LogOk(k')
  {
  }

  /** A process that starts to wait too early changes nothing but itself and its pipe. */
  lemma EarlySame(k: K, e: Event)
    requires KernelInv(k) && Able(k, e) && Early(k, e)
    ensures var k' := Do(k, e).0;
            && k'.exited == k.exited && k'.log == k.log && k'.procs.Keys == k.procs.Keys
            && k'.nextPid == k.nextPid && k'.stranded == k.stranded
  {
    hide KernelInv, Filled;
    EarlyIsTransfer(k, e);
    Runner(k, k.sched.cpu.who);
    var i := WaitSlot(k, e).pipe;
    DormantUnwaited(k, i, ReadEnd);
    if e.Write? {
      var data := e.data[..Min(Room(k.pipes[i]), |e.data|)];
      FilledKeeps(k, k.sched.cpu.who, i, data);
      FilledHistory(k, k.sched.cpu.who, i, data);
    }
  }

  /** Deliveries are in order at the end of every run. */
  lemma {:induction false} RunLog(k: K, run: seq<Event>)
    requires KernelInv(k) && Possible(k, run)
    ensures LogOk(Final(k, run))
    decreases |run|
  {
    if run != [] {
      hide KernelInv, Do, Early, LogOk;
      DoInv(k, run[0]);
      if Early(k, run[0]) {
        EarlyLog(k, run[0]);
        EarlySpins(k, run[0]);
        SpinsForever(Do(k, run[0]).0, run[1..]);
      } else {
        RunLog(Do(k, run[0]).0, run[1..]);
      }
    }
  }

  /** Reference counts and streams are right even then. */
  lemma EarlyPipes(k: K, e: Event, i: nat)
    requires KernelInv(k) && Able(k, e) && Early(k, e) && i < PIPE_MAX
    ensures var k' := Do(k, e).0; |k'.pipes| == PIPE_MAX && CountsOk(k', i) && StreamOk(k'.pipes[i])
  {
    hide KernelInv, Filled, CountsOk;
    EarlyIsTransfer(k, e);
    var who, j := k.sched.cpu.who, WaitSlot(k, e).pipe;
    Runner(k, who);
    if e.Read? {
      PartedPipes(k, who, InRead(j, e.want), i);
    } else {
      Contents(k, j);
      DormantUnwaited(k, j, ReadEnd);
      var n := Min(Room(k.pipes[j]), |e.data|);
      FilledInv(k, who, j, e.data[..n]);
      FilledKeeps(k, who, j, e.data[..n]);
      PartedPipes(Filled(k, who, j, e.data[..n]), who, InWrite(j, e.data[n..], n), i);
    }
  }

  lemma PartedPipes(k: K, p: nat, t: Todo, i: nat)
    requires KernelInv(k) && Current(k, p) && !k.sched.active && i < PIPE_MAX
    ensures var k' := Parted(Sleep(k, p, t), p); |k'.pipes| == PIPE_MAX && CountsOk(k', i) && StreamOk(k'.pipes[i])
  {
    hide ProcOk, QueuesOk, CountsOk, SchedOk, LogOk, TableOk, DormantOk;
    assert PipeOk(k, i);
    CountsFrame(k, Parted(Sleep(k, p, t), p), i);
  }

  /** The reference counts are the open ends, and the streams conserved, at the end of every run. */
  lemma {:induction false} RunPipes(k: K, run: seq<Event>, i: nat)
    requires KernelInv(k) && Possible(k, run) && i < PIPE_MAX
    ensures var k' := Final(k, run); |k'.pipes| == PIPE_MAX && CountsOk(k', i) && StreamOk(k'.pipes[i])
    decreases |run|
  {
    if run == [] {
      assert PipeOk(k, i);
    } else {
      hide KernelInv, Do, Early, CountsOk, StreamOk;
      DoInv(k, run[0]);
      if Early(k, run[0]) {
        EarlyPipes(k, run[0], i);
        EarlySpins(k, run[0]);
        SpinsForever(Do(k, run[0]).0, run[1..]);
      } else {
        RunPipes(Do(k, run[0]).0, run[1..], i);
      }
    }
  }

  /** From boot on, each exit code is delivered at most once, to the parent, as the child gave it. */
  lemma DeliveredOnce(k: K, run: seq<Event>, m: nat, n: nat)
    requires Boot(k) && Possible(k, run)
    ensures var k' := Final(k, run);
            && (m < |k'.log| ==>
                  k'.log[m].child in k'.exited && k'.exited[k'.log[m].child] == k'.log[m] &&
                  k'.log[m].child !in k'.procs)
            && (m < n < |k'.log| ==> k'.log[m].child != k'.log[n].child)
  {
    BootInv(k);
    RunLog(k, run);
  }
}
