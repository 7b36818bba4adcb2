/**
 The system calls on processes and pipes, as segments built from the primitives, and
 the invariant they all keep (src/kernel/syscall/sys_io.c, sys_proc.c, fd_table.c,
 src/kernel/usermode/exec.c, src/kernel/process/process.c).
 */
module KernelCalls {
  import opened Sched
  import opened Kernel
  import opened KernelOps

  /** What a segment ends in. */
  datatype Ret =
    | Value(v: int)        // a result or an error number
    | Bytes(b: seq<byte>)  // the data of a read
    | Asleep               // the call blocks, to be resumed if the processor can be given up
    | Over                 // nobody returns
    | Elsewhere            // console and file transfers, which do not touch this state

  const EBADF := -2
  const EINVAL := -3
  const ENOENT := -5
  const EPIPE := -7
  const EMFILE := -12
  const ESRCH := -19
  const ECHILD := -20
  const ENOBUFS := -21

  function Slot(k: K, p: nat, f: int): Fd
    requires p in k.procs
  {
    if 0 <= f < |k.procs[p].fds| then k.procs[p].fds[f] else NoFd
  }

  /** `k'` differs from `k` in descriptors, pipes and woken sleepers only. */
  predicate SameProcesses(k: K, k': K) {
    && k'.procs.Keys == k.procs.Keys && k'.stranded == k.stranded && k'.sched.cpu == k.sched.cpu
    && k'.sched.active == k.sched.active && k'.nextPid == k.nextPid && k'.exited == k.exited && k'.log == k.log
    && |k'.pipes| == |k.pipes|
    && forall q :: q in k.procs ==> SameProcess(k.procs[q], k'.procs[q])
  }

  predicate SameProcess(a: Proc, b: Proc) {
    && b.parent == a.parent && b.todo == a.todo && b.exitCode == a.exitCode && b.waitFor == a.waitFor
    && (b.state == a.state || (a.state == Blocked && b.state == ReadyToRun))
  }

  // ---------------------------------------------------------------- closing (fd_free, process_destroy)

  /** pipe_release. */
  function Release(k: K, i: nat): K
    requires i < |k.pipes|
  {
    k.(pipes := k.pipes[i := k.pipes[i].(contents := [], readRefs := 0, writeRefs := 0, refCount := 0, accepted := [],
                                         delivered := [])])
  }

  /** The last reference to an end gone, everybody asleep at the other end is woken. */
  function Alarm(k: K, i: nat, d: Dir): K
    requires i < |k.pipes|
  {
    if Refs(k.pipes[i], d) <= 0 then Wake(k, i, d.Other(), |Waiters(k.pipes[i], d.Other())|) else k
  }

  /** The last reference of all gone, the pool slot is given back. */
  function Settle(k: K, i: nat): K
    requires i < |k.pipes|
  {
    if k.pipes[i].refCount <= 0 then Release(k, i) else k
  }

  /** Close slot `f` of process `p`. */
  function CloseFd(k: K, p: nat, f: nat): (r: K)
    requires p in k.procs && f < |k.procs[p].fds|
    ensures r.procs.Keys == k.procs.Keys && r.procs[p].fds == k.procs[p].fds[f := NoFd]
  {
    var fd := k.procs[p].fds[f];
    var k1 := PutFd(k, p, f, NoFd);
    if fd.PipeEnd? && fd.pipe < |k.pipes| then Settle(Alarm(k1, fd.pipe, fd.dir), fd.pipe) else k1
  }

  /** Under the invariant a release only empties the pipe: its counts are already zero. */
  lemma ReleaseInv(k: K, i: nat)
    requires KernelInv(k) && i < PIPE_MAX && k.pipes[i].refCount <= 0
    ensures KernelInv(Release(k, i)) && k.pipes[i].readers == [] && k.pipes[i].writers == []
  {
    UnreferencedUnwaited(k, i);
    assert Release(k, i) == SetStream(k, i, [], [], []);
    SetStreamInv(k, i, [], [], []);
  }

  lemma CloseFdInv(k: K, p: nat, f: nat)
    requires KernelInv(k) && p in k.procs && f < |k.procs[p].fds| && k.procs[p].todo == User
    ensures KernelInv(CloseFd(k, p, f))
  {
    hide ProcOk, PipeOk, SchedOk, LogOk;
    var fd := k.procs[p].fds[f];
    var k1 := PutFd(k, p, f, NoFd);
    PutFdInv(k, p, f, NoFd);
    if fd.PipeEnd? && fd.pipe < |k.pipes| {
      WakeInv(k1, fd.pipe, fd.dir.Other(), |Waiters(k1.pipes[fd.pipe], fd.dir.Other())|);
      var k2 := Alarm(k1, fd.pipe, fd.dir);
      if k2.pipes[fd.pipe].refCount <= 0 {
        ReleaseInv(k2, fd.pipe);
      }
    }
  }

  /** Waking moves sleepers to the ready queue and touches no other process. */
  lemma WakeSame(k: K, i: nat, d: Dir, n: nat)
    requires KernelInv(k) && i < PIPE_MAX
    ensures SameProcesses(k, Wake(k, i, d, n))
  {
    hide QueuesOk, CountsOk, ProcOk, SchedOk, LogOk, Woken;
    assert PipeOk(k, i);
    WokenAre(k, i, d, n);
    var k' := Wake(k, i, d, n);
    forall q | q in k.procs ensures SameProcess(k.procs[q], k'.procs[q]) {
      assert q in Woken(k.pipes[i], d, n) ==> SleepsIn(k, q, i, d);
    }
    var woken := Woken(k.pipes[i], d, n);
    assert woken != [] ==> SleepsIn(k, woken[0], i, d);
  }

  lemma CloseFdSame(k: K, p: nat, f: nat)
    requires KernelInv(k) && p in k.procs && f < |k.procs[p].fds| && k.procs[p].todo == User
    ensures SameProcesses(k, CloseFd(k, p, f))
  {
    hide KernelInv, Recount, Wake;
    var fd := k.procs[p].fds[f];
    var k1 := PutFd(k, p, f, NoFd);
    PutFdInv(k, p, f, NoFd);
    assert SameProcesses(k, k1);
    if fd.PipeEnd? && fd.pipe < |k.pipes| {
      Bounds(k);
      WakeSame(k1, fd.pipe, fd.dir.Other(), |Waiters(k1.pipes[fd.pipe], fd.dir.Other())|);
      assert SameProcesses(k1, Alarm(k1, fd.pipe, fd.dir));
    }
  }

  lemma Bounds(k: K)
    requires KernelInv(k)
    ensures |k.pipes| == PIPE_MAX && PID_NONE < k.nextPid && PID_NONE !in k.procs
  {
    hide PipeOk, LogOk, SchedOk;
  }

  /** Close the slots of `p` from `n` on (the loop of process_destroy). */
  function AllClosed(k: K, p: nat, n: nat): (r: K)
    requires p in k.procs && n <= |k.procs[p].fds|
    ensures r.procs.Keys == k.procs.Keys
    decreases |k.procs[p].fds| - n
  {
    if n == |k.procs[p].fds| then k else AllClosed(CloseFd(k, p, n), p, n + 1)
  }

  lemma SameTransitive(a: K, b: K, c: K)
    requires SameProcesses(a, b) && SameProcesses(b, c)
    ensures SameProcesses(a, c)
  {
    forall q | q in a.procs ensures SameProcess(a.procs[q], c.procs[q]) {
      assert SameProcess(a.procs[q], b.procs[q]) && SameProcess(b.procs[q], c.procs[q]);
    }
  }

  lemma AllSame(k: K)
    ensures SameProcesses(k, k)
  {
  }

  lemma SameOne(k: K, k': K, p: nat)
    requires SameProcesses(k, k') && p in k.procs
    ensures p in k'.procs && SameProcess(k.procs[p], k'.procs[p])
  {
  }

  lemma {:induction false} AllClosedInv(k: K, p: nat, n: nat)
    requires KernelInv(k) && p in k.procs && n <= |k.procs[p].fds| && k.procs[p].todo == User
    requires NoPipes(k.procs[p].fds[..n])
    ensures KernelInv(AllClosed(k, p, n)) && SameProcesses(k, AllClosed(k, p, n))
    ensures NoPipes(AllClosed(k, p, n).procs[p].fds)
    decreases |k.procs[p].fds| - n
  {
    hide KernelInv, CloseFd, SameProcesses;
    var fds := k.procs[p].fds;
    if n == |fds| {
      assert fds[..n] == fds;
      AllSame(k);
    } else {
      CloseFdInv(k, p, n);
      CloseFdSame(k, p, n);
      var k1 := CloseFd(k, p, n);
      SameOne(k, k1, p);
      assert SameProcess(k.procs[p], k1.procs[p]);
      assert fds[n := NoFd][..n + 1] == fds[..n] + [NoFd];
      AllClosedInv(k1, p, n + 1);
      SameTransitive(k, k1, AllClosed(k1, p, n + 1));
    }
  }

  // ---------------------------------------------------------------- descriptor calls

  /** The first slot of the pipe pool, from `n` on, that is free. */
  function FreePipe(pipes: seq<Pipe>, n: nat): (i: nat)
    requires n <= |pipes|
    ensures n <= i <= |pipes| && (i < |pipes| ==> pipes[i].refCount == 0)
    ensures forall j :: n <= j < i ==> pipes[j].refCount != 0
    decreases |pipes| - n
  {
    if n == |pipes| || pipes[n].refCount == 0 then n else FreePipe(pipes, n + 1)
  }

  /** The first empty descriptor slot from `n` on. */
  function FreeSlot(fds: seq<Fd>, n: nat): (f: nat)
    requires n <= |fds|
    ensures n <= f <= |fds| && (f < |fds| ==> fds[f] == NoFd)
    ensures forall g :: n <= g < f ==> fds[g] != NoFd
    decreases |fds| - n
  {
    if n == |fds| || fds[n] == NoFd then n else FreeSlot(fds, n + 1)
  }

  /** The ends of pipe `i` in the first two empty slots past the standard ones. */
  function WithEnds(k: K, p: nat, i: nat): (K, Ret)
    requires p in k.procs
  {
    var fds := k.procs[p].fds;
    var r := if FD_STDIO <= |fds| then FreeSlot(fds, FD_STDIO) else |fds|;
    var w := if r < |fds| then FreeSlot(fds, r + 1) else r;
    if w == |fds| || r == |fds| then (k, Value(EMFILE))
    else (PutFd(PutFd(k, p, r, PipeEnd(i, ReadEnd)), p, w, PipeEnd(i, WriteEnd)), Value(0))
  }

  function SysPipe(k: K, p: nat): (K, Ret)
    requires p in k.procs
  {
    var i := FreePipe(k.pipes, 0);
    if i == |k.pipes| then (k, Value(ENOBUFS)) else WithEnds(k.(pipes := k.pipes[i := FREE_PIPE]), p, i)
  }

  function SysDup2(k: K, p: nat, o: int, n: int): (K, Ret)
    requires p in k.procs
  {
    if !(0 <= n < |k.procs[p].fds|) || Slot(k, p, o) == NoFd then (k, Value(EBADF))
    else if o == n then (k, Value(n))
    else
      var k1 := if Slot(k, p, n) == NoFd then k else CloseFd(k, p, n);
      (PutFd(k1, p, n, Slot(k, p, o)), Value(n))
  }

  function SysClose(k: K, p: nat, f: int): (K, Ret)
    requires p in k.procs
  {
    if f < FD_STDIO then (k, Value(EINVAL))
    else if Slot(k, p, f) == NoFd then (k, Value(EBADF))
    else (CloseFd(k, p, f), Value(0))
  }

  /** fd_alloc, for a file just opened. */
  function SysOpen(k: K, p: nat): (K, Ret)
    requires p in k.procs
  {
    var fds := k.procs[p].fds;
    var f := if FD_STDIO <= |fds| then FreeSlot(fds, FD_STDIO) else |fds|;
    if f == |fds| then (k, Value(EMFILE)) else (PutFd(k, p, f, File), Value(f))
  }

  // ---------------------------------------------------------------- pipe transfers

  function Min(a: nat, b: nat): nat {
    if a < b then a else b
  }

  /** One segment of a read of at most `want` bytes: end of file, sleep, or take what is there. */
  function ReadSegment(k: K, p: nat, i: nat, want: nat): (K, Ret)
    requires p in k.procs && i < |k.pipes|
  {
    var pp := k.pipes[i];
    if |pp.contents| == 0 then
      if pp.writeRefs <= 0 then (Awake(k, p), Bytes([]))
      else (Parted(Sleep(k, p, InRead(i, want)), p), Asleep)
    else
      var n := Min(|pp.contents|, want);
      (Drained(k, p, i, n), Bytes(pp.contents[..n]))
  }

  /** Append `data` to pipe `i` and wake a reader. */
  function Filled(k: K, p: nat, i: nat, data: seq<byte>): (r: K)
    requires p in k.procs && i < |k.pipes|
    ensures p in r.procs
  {
    var pp := k.pipes[i];
    Wake(SetStream(Awake(k, p), i, pp.contents + data, pp.accepted + data, pp.delivered), i, ReadEnd, 1)
  }

  /** Take `n` bytes from pipe `i` and wake a writer. */
  function Drained(k: K, p: nat, i: nat, n: nat): K
    requires p in k.procs && i < |k.pipes| && n <= |k.pipes[i].contents|
  {
    var pp := k.pipes[i];
    Wake(SetStream(Awake(k, p), i, pp.contents[n..], pp.accepted, pp.delivered + pp.contents[..n]), i, WriteEnd, 1)
  }

  function Room(p: Pipe): nat {
    if |p.contents| < PIPE_BUF then PIPE_BUF - |p.contents| else 0
  }

  /** One segment of a write: broken pipe, or fill what room there is, and sleep with the rest. */
  function WriteSegment(k: K, p: nat, i: nat, rest: seq<byte>, written: nat): (K, Ret)
    requires p in k.procs && i < |k.pipes|
  {
    var pp := k.pipes[i];
    if pp.readRefs <= 0 then (Awake(k, p), Value(if written > 0 then written else EPIPE))
    else
      var n := Min(Room(pp), |rest|);
      var k1 := Filled(k, p, i, rest[..n]);
      if n == |rest| then (k1, Value(written + n))
      else (Parted(Sleep(k1, p, InWrite(i, rest[n..], written + n)), p), Asleep)
  }

  function SysRead(k: K, p: nat, f: int, want: nat): (K, Ret)
    requires p in k.procs
  {
    var fd := Slot(k, p, f);
    if want == 0 then (k, Value(0))
    else if fd.Console? || fd.File? then (k, Elsewhere)
    else if fd.PipeEnd? && fd.dir == ReadEnd && fd.pipe < |k.pipes| then ReadSegment(k, p, fd.pipe, want)
    else (k, Value(EBADF))
  }

  function SysWrite(k: K, p: nat, f: int, data: seq<byte>): (K, Ret)
    requires p in k.procs
  {
    var fd := Slot(k, p, f);
    if data == [] then (k, Value(0))
    else if fd.Console? || fd.File? then (k, Elsewhere)
    else if fd.PipeEnd? && fd.dir == WriteEnd && fd.pipe < |k.pipes| then WriteSegment(k, p, fd.pipe, data, 0)
    else (k, Value(if fd.PipeEnd? then EINVAL else EBADF))
  }

  // ---------------------------------------------------------------- processes

  /** What of the parent's slot `f` a child gets: stdio and files, not the other pipe ends. */
  function Inherited(fd: Fd, f: nat): Fd {
    if f < FD_STDIO || !fd.PipeEnd? then fd else NoFd
  }

  /** Fill the child's slots from `n` on (the loop of exec_program). */
  function Inherit(k: K, c: nat, fds: seq<Fd>, n: nat): (r: K)
    requires c in k.procs && n <= |fds|
    ensures r.procs.Keys == k.procs.Keys
    decreases |fds| - n
  {
    if n == |fds| || n >= |k.procs[c].fds| then k else Inherit(PutFd(k, c, n, Inherited(fds[n], n)), c, fds, n + 1)
  }

  /** Whether the program could be loaded; the process table may also be full. */
  datatype Load = Loaded | LoadFailed | NoMemory

  /** The process is created, or could be if there was memory for it. */
  predicate HasSlot(k: K) {
    TableSize(k) < PROCESS_MAX
  }

  /**
   A program that could not be started: a full table stays as it is, a process whose program
   cannot be loaded is destroyed, but the entry of one without memory is never given back.
   */
  function Refused(k: K, load: Load): K {
    if !HasSlot(k) then k
    else if load.NoMemory? then k.(nextPid := k.nextPid + 1, stranded := k.stranded + {k.nextPid})
    else k.(nextPid := k.nextPid + 1)
  }

  function SysExec(k: K, p: nat, load: Load): (K, Ret)
    requires p in k.procs
  {
    if !HasSlot(k) || !load.Loaded? then (Refused(k, load), Value(ENOENT))
    else (Inherit(Spawn(k, p), k.nextPid, k.procs[p].fds, 0), Value(k.nextPid))
  }

  /** The kernel starts a program when nothing runs: a process without parent, on the console. */
  function KernelExec(k: K, load: Load): (K, Ret) {
    if !HasSlot(k) || !load.Loaded? then (Refused(k, load), Value(-1))
    else (Inherit(Spawn(k, PID_NONE), k.nextPid, [Console, Console, Console], 0), Over)
  }

  /** process_destroy of a zombie, its exit code going to the caller. */
  function Reap(k: K, c: nat): (K, Ret)
    requires c in k.procs
  {
    (Vacate(AllClosed(k, c, 0), c), Value(k.procs[c].exitCode))
  }

  function SysWaitpid(k: K, p: nat, c: nat): (K, Ret)
    requires p in k.procs
  {
    if c !in k.procs then (k, Value(if c in k.stranded then ECHILD else ESRCH))
    else if k.procs[c].parent != p then (k, Value(ECHILD))
    else if k.procs[c].state == Zombie then Reap(k, c)
    else (Parted(Sleep(k, p, InWait(c)), p), Asleep)
  }

  /** waitpid after the wake-up: the child is expected to be a zombie. */
  function WaitResumed(k: K, p: nat, c: nat): (K, Ret)
    requires p in k.procs
  {
    var k1 := Awake(k, p);
    if c in k1.procs && k1.procs[c].state == Zombie then Reap(k1, c) else (k1, Value(ESRCH))
  }

  function SysExit(k: K, p: nat, code: int): (K, Ret)
    requires p in k.procs
  {
    if k.procs[p].parent != PID_NONE then (Parted(Bury(k, p, code), p), Over)
    else (Vacate(AllClosed(k, p, 0), p), Value(code))
  }

  /** scheduler_tick. */
  function Ticked(k: K): K {
    if !k.sched.active then k
    else if k.sched.ticks <= 1 then Yielded(k)
    else k.(sched := k.sched.(ticks := k.sched.ticks - 1))
  }

  // ---------------------------------------------------------------- events

  datatype Event =
    | Timer
    | PipeCall
    | Dup2(o: int, n: int)
    | Close(f: int)
    | Open
    | Read(f: int, want: nat)
    | Write(f: int, data: seq<byte>)
    | Exec(load: Load)
    | Waitpid(c: nat)
    | Exit(code: int)
    | Resume
    | Start(load: Load)

  /**
   A process in user code may make any call; one in the middle of a call goes on with it, once
   it is woken and has the processor.  A process that could not give up the processor goes round
   in its call for ever, and nothing but timer ticks can happen.
   */
  predicate Able(k: K, e: Event) {
    match e
    case Timer => true
    case Start(_) => k.sched.cpu == Nobody
    case Resume =>
      k.sched.cpu.Runs? && k.sched.cpu.runnable && k.sched.cpu.who in k.procs && k.procs[k.sched.cpu.who].todo != User
    case _ => k.sched.cpu.Runs? && k.sched.cpu.who in k.procs && k.procs[k.sched.cpu.who].todo == User
  }

  function Resumed(k: K, p: nat): (K, Ret)
    requires p in k.procs
  {
    match k.procs[p].todo
    case User => (k, Over)
    case InRead(i, want) => if i < |k.pipes| then ReadSegment(k, p, i, want) else (k, Over)
    case InWrite(i, rest, written) => if i < |k.pipes| then WriteSegment(k, p, i, rest, written) else (k, Over)
    case InWait(c) => WaitResumed(k, p, c)
  }

  function Do(k: K, e: Event): (K, Ret)
    requires Able(k, e)
  {
    match e
    case Timer => (Ticked(k), Over)
    case Start(load) => KernelExec(k, load)
    case Resume => Resumed(k, k.sched.cpu.who)
    case PipeCall => SysPipe(k, k.sched.cpu.who)
    case Dup2(o, n) => SysDup2(k, k.sched.cpu.who, o, n)
    case Close(f) => SysClose(k, k.sched.cpu.who, f)
    case Open => SysOpen(k, k.sched.cpu.who)
    case Read(f, want) => SysRead(k, k.sched.cpu.who, f, want)
    case Write(f, data) => SysWrite(k, k.sched.cpu.who, f, data)
    case Exec(load) => SysExec(k, k.sched.cpu.who, load)
    case Waitpid(c) => SysWaitpid(k, k.sched.cpu.who, c)
    case Exit(code) => SysExit(k, k.sched.cpu.who, code)
  }

  // ---------------------------------------------------------------- going to sleep

  /** A read has to wait: nothing is there, but may come. */
  predicate ReadSleeps(p: Pipe) {
    |p.contents| == 0 && p.writeRefs > 0
  }

  /** A write has to wait: not all fits, but room may come. */
  predicate WriteSleeps(p: Pipe, rest: seq<byte>) {
    Room(p) < |rest| && p.readRefs > 0
  }

  /** The process that runs has to wait. */
  predicate Sleeps(k: K, e: Event)
    requires Able(k, e)
  {
    match e
    case Read(f, want) =>
      var fd := Slot(k, k.sched.cpu.who, f);
      want > 0 && fd.PipeEnd? && fd.dir == ReadEnd && fd.pipe < |k.pipes| && ReadSleeps(k.pipes[fd.pipe])
    case Write(f, data) =>
      var fd := Slot(k, k.sched.cpu.who, f);
      fd.PipeEnd? && fd.dir == WriteEnd && fd.pipe < |k.pipes| && WriteSleeps(k.pipes[fd.pipe], data)
    case Waitpid(c) => c in k.procs && k.procs[c].parent == k.sched.cpu.who && k.procs[c].state != Zombie
    case Resume =>
      (match k.procs[k.sched.cpu.who].todo
       case InRead(i, _) => i < |k.pipes| && ReadSleeps(k.pipes[i])
       case InWrite(i, rest, _) => i < |k.pipes| && WriteSleeps(k.pipes[i], rest)
       case _ => false)
    case _ => false
  }

  /** It has to wait before it could give up the processor. */
  predicate Early(k: K, e: Event)
    requires Able(k, e)
  {
    !k.sched.active && Sleeps(k, e)
  }

  /** Exactly the calls that have to wait block. */
  lemma SleepsIs(k: K, e: Event)
    requires Able(k, e)
    ensures Do(k, e).1 == Asleep <==> Sleeps(k, e)
  {
    hide Parted, Filled, Drained, Inherit, CloseFd, AllClosed, Ticked, Bury;
  }

  // ---------------------------------------------------------------- every call keeps the invariant

  /** What the invariant says of the process that runs. */
  lemma Runner(k: K, p: nat)
    requires KernelInv(k) && k.sched.cpu.Runs? && k.sched.cpu.who == p
    ensures Current(k, p) && k.procs[p].state == Running && |k.procs[p].fds| == FD_MAX && |k.pipes| == PIPE_MAX
    ensures forall f :: 0 <= f < FD_MAX ==> FdOk(k.procs[p].fds[f])
    ensures p < k.nextPid && PID_NONE < p && k.nextPid !in k.procs
    ensures TodoOk(k, p, k.procs[p]) && p !in k.exited
  {
    assert ProcOk(k, p);
    assert k.nextPid in k.procs ==> ProcOk(k, k.nextPid);
  }

  /** A free slot of the pool is reused without dropping anybody from its wait queues. */
  lemma FreshPipe(k: K, i: nat)
    requires KernelInv(k) && i < PIPE_MAX && k.pipes[i].refCount == 0
    ensures k.pipes[i].readers == [] && k.pipes[i].writers == []
    ensures KernelInv(k.(pipes := k.pipes[i := FREE_PIPE]))
  {
    UnreferencedUnwaited(k, i);
    assert k.(pipes := k.pipes[i := FREE_PIPE]) == SetStream(k, i, [], [], []);
    SetStreamInv(k, i, [], [], []);
  }

  lemma TwoEndsInv(k: K, p: nat, i: nat, r: nat, w: nat)
    requires KernelInv(k) && p in k.procs && r < |k.procs[p].fds| && w < |k.procs[p].fds| && k.procs[p].todo == User
    requires i < PIPE_MAX
    ensures KernelInv(PutFd(PutFd(k, p, r, PipeEnd(i, ReadEnd)), p, w, PipeEnd(i, WriteEnd)))
  {
    hide KernelInv, Recount;
    PutFdInv(k, p, r, PipeEnd(i, ReadEnd));
    PutFdInv(PutFd(k, p, r, PipeEnd(i, ReadEnd)), p, w, PipeEnd(i, WriteEnd));
  }

  lemma SysPipeInv(k: K, p: nat)
    requires KernelInv(k) && k.sched.cpu.Runs? && k.sched.cpu.who == p && p in k.procs && k.procs[p].todo == User
    ensures KernelInv(SysPipe(k, p).0)
  {
    hide KernelInv, PutFd, FreeSlot;
    Runner(k, p);
    var fds, i := k.procs[p].fds, FreePipe(k.pipes, 0);
    if i < |k.pipes| {
      FreshPipe(k, i);
      var r := FreeSlot(fds, FD_STDIO);
      if r < |fds| {
        var w := FreeSlot(fds, r + 1);
        if w < |fds| {
          TwoEndsInv(k.(pipes := k.pipes[i := FREE_PIPE]), p, i, r, w);
        }
      }
    }
  }

  lemma SysDup2Inv(k: K, p: nat, o: int, n: int)
    requires KernelInv(k) && k.sched.cpu.Runs? && k.sched.cpu.who == p && p in k.procs && k.procs[p].todo == User
    ensures KernelInv(SysDup2(k, p, o, n).0)
  {
    Runner(k, p);
    hide KernelInv, CloseFd, PutFd, Current;
    if 0 <= n < |k.procs[p].fds| && Slot(k, p, o) != NoFd && o != n {
      if Slot(k, p, n) == NoFd {
        PutFdInv(k, p, n, Slot(k, p, o));
      } else {
        CloseFdInv(k, p, n);
        CloseFdSame(k, p, n);
        assert SameProcess(k.procs[p], CloseFd(k, p, n).procs[p]);
        PutFdInv(CloseFd(k, p, n), p, n, Slot(k, p, o));
      }
    }
  }

  /** Going to sleep keeps the invariant if and only if the scheduler is active. */
  lemma PartedInv(k: K, p: nat, t: Todo)
    requires KernelInv(k) && Current(k, p) && MaySleep(k, p, t)
    ensures KernelInv(Parted(Sleep(k, p, t), p)) <==> k.sched.active
  {
    if k.sched.active {
      hide KernelInv, MaySleep;
      SleepInv(k, p, t);
      DispatchInv(Sleep(k, p, t));
    } else {
      assert !SchedOk(Parted(Sleep(k, p, t), p));
    }
  }

  lemma ReadSegmentInv(k: K, p: nat, i: nat, want: nat)
    requires KernelInv(k) && Current(k, p) && i < PIPE_MAX && want > 0 && Holds(k.procs[p].fds, i, ReadEnd)
    requires i < |k.pipes|
    ensures KernelInv(ReadSegment(k, p, i, want).0) <==> k.sched.active || !ReadSleeps(k.pipes[i])
  {
    hide KernelInv, Holds;
    AwakeInv(k, p);
    var pp := k.pipes[i];
    Contents(k, i);
    if |pp.contents| > 0 {
      var n := Min(|pp.contents|, want);
      assert pp.contents == pp.contents[..n] + pp.contents[n..];
      var k1 := SetStream(Awake(k, p), i, pp.contents[n..], pp.accepted, pp.delivered + pp.contents[..n]);
      SetStreamInv(Awake(k, p), i, pp.contents[n..], pp.accepted, pp.delivered + pp.contents[..n]);
      WakeInv(k1, i, WriteEnd, 1);
    } else if pp.writeRefs > 0 {
      PartedInv(k, p, InRead(i, want));
    }
  }

  lemma WriteSegmentInv(k: K, p: nat, i: nat, rest: seq<byte>, written: nat)
    requires KernelInv(k) && Current(k, p) && i < PIPE_MAX && rest != [] && Holds(k.procs[p].fds, i, WriteEnd)
    requires i < |k.pipes|
    ensures KernelInv(WriteSegment(k, p, i, rest, written).0) <==> k.sched.active || !WriteSleeps(k.pipes[i], rest)
  {
    hide KernelInv, Holds;
    AwakeInv(k, p);
    var pp := k.pipes[i];
    Contents(k, i);
    if pp.readRefs > 0 {
      var n := Min(PIPE_BUF - |pp.contents|, |rest|);
      FilledInv(k, p, i, rest[..n]);
      DormantUnwaited(k, i, ReadEnd);
      FilledKeeps(k, p, i, rest[..n]);
      hide Filled;
      if n < |rest| {
        PartedInv(Filled(k, p, i, rest[..n]), p, InWrite(i, rest[n..], written + n));
      }
    }
  }

  /** The pipes after data went into one of them. */
  lemma FilledPipes(k: K, p: nat, i: nat, data: seq<byte>)
    requires p in k.procs && i < |k.pipes|
    ensures var k' := Filled(k, p, i, data);
            && |k'.pipes| == |k.pipes| && k'.pipes[i].contents == k.pipes[i].contents + data
            && k'.pipes[i].accepted == k.pipes[i].accepted + data && k'.pipes[i].delivered == k.pipes[i].delivered
            && k'.pipes[i].writers == k.pipes[i].writers && k'.pipes[i].readRefs == k.pipes[i].readRefs
            && k'.pipes[i].writeRefs == k.pipes[i].writeRefs
            && k'.pipes[i].readers == (if k.pipes[i].readers == [] then [] else k.pipes[i].readers[1..])
            && forall j :: 0 <= j < |k.pipes| && j != i ==> k'.pipes[j] == k.pipes[j]
  {
  }

  /** The pipes after data was taken from one of them. */
  lemma DrainedPipes(k: K, p: nat, i: nat, n: nat)
    requires p in k.procs && i < |k.pipes| && n <= |k.pipes[i].contents|
    ensures var k' := Drained(k, p, i, n);
            && |k'.pipes| == |k.pipes| && k'.pipes[i].contents == k.pipes[i].contents[n..]
            && k'.pipes[i].accepted == k.pipes[i].accepted
            && k'.pipes[i].delivered == k.pipes[i].delivered + k.pipes[i].contents[..n]
  {
  }

  lemma SleepingReader(k: K, p: nat, i: nat, want: nat)
    requires p in k.procs && i < |k.pipes|
    ensures Parted(Sleep(k, p, InRead(i, want)), p).pipes
              == k.pipes[i := k.pipes[i].(readers := k.pipes[i].readers + [p])]
  {
    hide Schedule;
  }

  lemma SleepingWriter(k: K, p: nat, i: nat, rest: seq<byte>, written: nat)
    requires p in k.procs && i < |k.pipes|
    ensures Parted(Sleep(k, p, InWrite(i, rest, written)), p).pipes
              == k.pipes[i := k.pipes[i].(writers := k.pipes[i].writers + [p])]
  {
    hide Schedule;
  }

  /** What filling leaves alone. */
  lemma FilledKeeps(k: K, p: nat, i: nat, data: seq<byte>)
    requires p in k.procs && i < |k.pipes|
    ensures var k' := Filled(k, p, i, data);
            && k'.procs[p].fds == k.procs[p].fds && |k'.pipes| == |k.pipes| && k'.sched.cpu == k.sched.cpu
            && k'.sched.active == (k.sched.active || k.pipes[i].readers != [])
  {
  }

  /** Nobody waits anywhere before the scheduler is active. */
  lemma DormantUnwaited(k: K, i: nat, d: Dir)
    requires KernelInv(k) && i < |k.pipes|
    ensures !k.sched.active ==> Waiters(k.pipes[i], d) == []
  {
    assert PipeOk(k, i);
    var w := Waiters(k.pipes[i], d);
    assert w != [] ==> SleepsIn(k, w[0], i, d);
  }

  lemma FilledInv(k: K, p: nat, i: nat, data: seq<byte>)
    requires KernelInv(k) && Current(k, p) && i < PIPE_MAX && i < |k.pipes|
    requires |k.pipes[i].contents| + |data| <= PIPE_BUF
    ensures KernelInv(Filled(k, p, i, data)) && Current(Filled(k, p, i, data), p)
    ensures Filled(k, p, i, data).procs[p].fds == k.procs[p].fds && |Filled(k, p, i, data).pipes| == |k.pipes|
  {
    hide KernelInv, Wake, SetStream;
    Contents(k, i);
    FilledKeeps(k, p, i, data);
    var pp := k.pipes[i];
    AwakeInv(k, p);
    assert pp.accepted + data == pp.delivered + (pp.contents + data);
    SetStreamInv(Awake(k, p), i, pp.contents + data, pp.accepted + data, pp.delivered);
    SetStreamSize(Awake(k, p), i, pp.contents + data, pp.accepted + data, pp.delivered);
    WakeInv(SetStream(Awake(k, p), i, pp.contents + data, pp.accepted + data, pp.delivered), i, ReadEnd, 1);
  }

  lemma SetStreamSize(k: K, i: nat, contents: seq<byte>, accepted: seq<byte>, delivered: seq<byte>)
    requires i < |k.pipes|
    ensures |SetStream(k, i, contents, accepted, delivered).pipes| == |k.pipes|
  {
  }

  lemma Contents(k: K, i: nat)
    requires KernelInv(k) && i < PIPE_MAX
    ensures i < |k.pipes| && k.pipes[i].accepted == k.pipes[i].delivered + k.pipes[i].contents
    ensures |k.pipes[i].contents| <= PIPE_BUF
  {
    hide ProcOk, SchedOk, LogOk, QueuesOk, CountsOk;
    assert PipeOk(k, i);
  }

  lemma {:induction false} InheritInv(k: K, c: nat, fds: seq<Fd>, n: nat)
    requires KernelInv(k) && c in k.procs && k.procs[c].todo == User && n <= |fds|
    requires forall f :: 0 <= f < |fds| ==> FdOk(fds[f])
    ensures KernelInv(Inherit(k, c, fds, n)) && SameProcesses(k, Inherit(k, c, fds, n))
    decreases |fds| - n
  {
    hide KernelInv;
    if n < |fds| && n < |k.procs[c].fds| {
      var k1 := PutFd(k, c, n, Inherited(fds[n], n));
      PutFdInv(k, c, n, Inherited(fds[n], n));
      assert SameProcesses(k, k1) by { hide Recount; }
      InheritInv(k1, c, fds, n + 1);
      SameTransitive(k, k1, Inherit(k1, c, fds, n + 1));
    }
  }

  lemma SysExecInv(k: K, p: nat, load: Load)
    requires KernelInv(k) && k.sched.cpu.Runs? && k.sched.cpu.who == p && p in k.procs
    ensures KernelInv(SysExec(k, p, load).0)
  {
    hide KernelInv, Refused;
    Runner(k, p);
    if HasSlot(k) && load.Loaded? {
      SpawnInv(k, p);
      InheritInv(Spawn(k, p), k.nextPid, k.procs[p].fds, 0);
    } else {
      RefusedInv(k, load);
    }
  }

  lemma RefusedTable(k: K, load: Load)
    requires TableOk(k) && DormantOk(k) && k.nextPid !in k.procs && PID_NONE < k.nextPid
    ensures TableOk(Refused(k, load)) && DormantOk(Refused(k, load))
  {
  }

  lemma NextPidFree(k: K)
    requires KernelInv(k)
    ensures k.nextPid !in k.procs && k.nextPid !in k.stranded && PID_NONE < k.nextPid && TableOk(k) && DormantOk(k)
  {
    assert k.nextPid in k.procs ==> ProcOk(k, k.nextPid);
  }

  /** A pid is used up, and perhaps an entry of the table. */
  lemma PidUsed(k: K, stranded: set<nat>)
    requires KernelInv(k) && TableOk(k.(nextPid := k.nextPid + 1, stranded := stranded))
    ensures KernelInv(k.(nextPid := k.nextPid + 1, stranded := stranded))
  {
    hide ProcOk, CountsOk, QueuesOk, TableOk;
    var k' := k.(nextPid := k.nextPid + 1, stranded := stranded);
    forall q | q in k'.procs ensures ProcOk(k', q) {
      ProcFrame(k, k', q);
    }
    forall i: nat | i < PIPE_MAX ensures PipeOk(k', i) {
      assert PipeOk(k, i);
      QueuesFrame(k, k', i);
      CountsFrame(k, k', i);
    }
  }

  lemma RefusedInv(k: K, load: Load)
    requires KernelInv(k)
    ensures KernelInv(Refused(k, load))
  {
    hide KernelInv, TableOk, DormantOk;
    NextPidFree(k);
    RefusedTable(k, load);
    if HasSlot(k) {
      PidUsed(k, if load.NoMemory? then k.stranded + {k.nextPid} else k.stranded);
    }
  }

  lemma KernelExecInv(k: K, load: Load)
    requires KernelInv(k) && !k.sched.cpu.Runs?
    ensures KernelInv(KernelExec(k, load).0)
  {
    hide KernelInv, Refused;
    Bounds(k);
    if HasSlot(k) && load.Loaded? {
      SpawnInv(k, PID_NONE);
      InheritInv(Spawn(k, PID_NONE), k.nextPid, [Console, Console, Console], 0);
    } else {
      RefusedInv(k, load);
    }
  }

  lemma ZombieIdle(k: K, c: nat)
    requires KernelInv(k) && c in k.procs && k.procs[c].state == Zombie
    ensures k.procs[c].todo == User && |k.procs[c].fds| == FD_MAX
  {
    assert ProcOk(k, c);
  }

  /** A zombie can be taken out once its parent is back in user code. */
  lemma ReapInv(k: K, p: nat, c: nat)
    requires KernelInv(k) && Current(k, p) && k.procs[p].todo == User
    requires c in k.procs && k.procs[c].parent == p && k.procs[c].state == Zombie
    ensures KernelInv(Reap(k, c).0)
  {
    assert ProcOk(k, c);
    hide KernelInv;
    AllClosedInv(k, c, 0);
    var k1 := AllClosed(k, c, 0);
    assert SameProcess(k.procs[c], k1.procs[c]) && SameProcess(k.procs[p], k1.procs[p]);
    VacateInv(k1, c);
  }

  /** A process with a parent was put in the ready queue. */
  lemma ParentIsActive(k: K, p: nat, c: nat)
    requires KernelInv(k) && c in k.procs && k.procs[c].parent == p && p != PID_NONE
    ensures k.sched.active
  {
  }

  lemma SysWaitpidInv(k: K, p: nat, c: nat)
    requires KernelInv(k) && Current(k, p) && k.procs[p].todo == User
    ensures KernelInv(SysWaitpid(k, p, c).0)
  {
    hide KernelInv;
    Bounds(k);
    if c in k.procs && k.procs[c].parent == p {
      if k.procs[c].state == Zombie {
        ReapInv(k, p, c);
      } else {
        ParentIsActive(k, p, c);
        PartedInv(k, p, InWait(c));
      }
    }
  }

  /** A process that wakes up in waitpid finds its child there, and a zombie. */
  lemma WokenFindsZombie(k: K, p: nat)
    requires KernelInv(k) && Current(k, p) && k.procs[p].todo.InWait?
    ensures var c := k.procs[p].todo.child;
            c in k.procs && c != p && k.procs[c].parent == p && k.procs[c].state == Zombie
  {
    assert ProcOk(k, p);
  }

  lemma WaitResumedInv(k: K, p: nat)
    requires KernelInv(k) && Current(k, p) && k.procs[p].todo.InWait?
    ensures KernelInv(WaitResumed(k, p, k.procs[p].todo.child).0)
  {
    WokenFindsZombie(k, p);
    AwakeInv(k, p);
    hide KernelInv;
    ReapInv(Awake(k, p), p, k.procs[p].todo.child);
  }

  lemma SysExitInv(k: K, p: nat, code: int)
    requires KernelInv(k) && Current(k, p) && k.procs[p].todo == User
    ensures KernelInv(SysExit(k, p, code).0)
  {
    hide KernelInv;
    Bounds(k);
    Runner(k, p);
    if k.procs[p].parent != PID_NONE {
      ParentIsActive(k, k.procs[p].parent, p);
      BuryInv(k, p, code);
      DispatchInv(Bury(k, p, code));
    } else {
      AllClosedInv(k, p, 0);
      var k1 := AllClosed(k, p, 0);
      assert SameProcess(k.procs[p], k1.procs[p]);
      VacateInv(k1, p);
    }
  }

  lemma TickedInv(k: K)
    requires KernelInv(k)
    ensures KernelInv(Ticked(k))
  {
    if k.sched.active {
      if k.sched.ticks <= 1 {
        YieldedSchedules(k);
      } else {
        SlicedInv(k);
      }
    }
  }

  lemma SlicedInv(k: K)
    requires KernelInv(k) && k.sched.ticks > 1
    ensures KernelInv(k.(sched := k.sched.(ticks := k.sched.ticks - 1)))
  {
    hide ProcOk, CountsOk, QueuesOk, TableOk, DormantOk;
    TableFrame(k, k.(sched := k.sched.(ticks := k.sched.ticks - 1)));
    var k' := k.(sched := k.sched.(ticks := k.sched.ticks - 1));
    forall q | q in k'.procs ensures ProcOk(k', q) {
      ProcFrame(k, k', q);
    }
    forall i: nat | i < PIPE_MAX ensures PipeOk(k', i) {
      assert PipeOk(k, i);
      QueuesFrame(k, k', i);
      CountsFrame(k, k', i);
    }
  }
}
