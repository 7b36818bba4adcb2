/**
 Processes and pipes as one state, and the primitive changes that system calls are
 made of (src/kernel/process/process.c, src/kernel/syscall/fd_table.c, sys_io.c,
 sys_proc.c, src/kernel/usermode/exec.c, src/kernel/sync/wait_queue.c).

 A segment of a system call runs from one block, yield or return of a process to the
 next and is taken as atomic; timer ticks fall between segments.  The scheduler is not active
 until the first process is put in the ready queue, and a process cannot give up the processor
 before that.
 */
module Kernel {
  import opened Sched

  const FD_MAX := 16
  const FD_STDIO := 3
  const PIPE_MAX := 16
  const PIPE_BUF := 4096
  const PROCESS_MAX := 64
  const PID_NONE := 0

  type byte = x: int | 0 <= x < 256

  datatype Dir = ReadEnd | WriteEnd {
    function Other(): Dir { if ReadEnd? then WriteEnd else ReadEnd }
  }

  datatype Fd = NoFd | Console | File | PipeEnd(pipe: nat, dir: Dir)

  datatype ProcState = Running | ReadyToRun | Blocked | Zombie

  /** What a process does when it next runs: user code, or the rest of a blocking call. */
  datatype Todo =
    | User
    | InRead(pipe: nat, want: nat)
    | InWrite(pipe: nat, rest: seq<byte>, written: nat)
    | InWait(child: nat)

  datatype Proc = Proc(parent: nat, state: ProcState, waitFor: nat, exitCode: int, fds: seq<Fd>, todo: Todo)

  /** A pipe: the bytes in its ring, its reference counts, its two wait queues, and its history. */
  datatype Pipe = Pipe(
    contents: seq<byte>, readRefs: int, writeRefs: int, refCount: int,
    readers: seq<nat>, writers: seq<nat>, accepted: seq<byte>, delivered: seq<byte>)

  /** An exit code on its way from a child to its parent. */
  datatype Delivery = Delivery(child: nat, parent: nat, code: int)

  /**
   The process table is `procs` and `stranded`, the entries of processes for which there was no
   memory: READY, with a pid, without parent and descriptors.  `exited` and `log` are history:
   what each process exited with, and what waitpid handed over.
   */
  datatype K = K(
    procs: map<nat, Proc>, stranded: set<nat>, pipes: seq<Pipe>, sched: State<nat>, nextPid: nat,
    exited: map<nat, Delivery>, log: seq<Delivery>)

  // ---------------------------------------------------------------- the invariant

  function Waiters(p: Pipe, d: Dir): seq<nat> {
    if d.ReadEnd? then p.readers else p.writers
  }

  function Refs(p: Pipe, d: Dir): int {
    if d.ReadEnd? then p.readRefs else p.writeRefs
  }

  /** The descriptor slots, over all processes, that refer to this end of pipe `i`. */
  ghost function Ends(procs: map<nat, Proc>, i: nat, d: Dir): set<(nat, nat)> {
    set p, f | p in procs && 0 <= f < |procs[p].fds| && procs[p].fds[f] == PipeEnd(i, d) :: (p, f)
  }

  predicate Holds(fds: seq<Fd>, i: nat, d: Dir) {
    exists f :: 0 <= f < |fds| && fds[f] == PipeEnd(i, d)
  }

  predicate FdOk(fd: Fd) {
    fd.PipeEnd? ==> fd.pipe < PIPE_MAX
  }

  /** What a process in the middle of a call keeps open, and whom it waits for. */
  predicate TodoOk(k: K, p: nat, pr: Proc) {
    match pr.todo
    case User => true
    case InRead(i, want) => i < |k.pipes| && Holds(pr.fds, i, ReadEnd) && want > 0
    case InWrite(i, rest, _) => i < |k.pipes| && Holds(pr.fds, i, WriteEnd) && rest != []
    case InWait(c) => c in k.procs && k.procs[c].parent == p && (pr.state == Blocked <==> k.procs[c].state != Zombie)
  }

  predicate Placed(k: K, p: nat, pr: Proc) {
    match pr.state
    case Running => k.sched.cpu == Runs(p, true)
    case ReadyToRun => p in k.sched.queue
    case Zombie => pr.todo == User && p in k.exited && k.exited[p] == Delivery(p, pr.parent, pr.exitCode)
    case Blocked =>
      match pr.todo
      case User => false
      case InRead(i, _) => i < |k.pipes| && p in k.pipes[i].readers
      case InWrite(i, _, _) => i < |k.pipes| && p in k.pipes[i].writers
      case InWait(c) => true
  }

  predicate ProcOk(k: K, p: nat)
    requires p in k.procs
  {
    var pr := k.procs[p];
    && PID_NONE < p < k.nextPid && pr.parent < k.nextPid
    && |pr.fds| == FD_MAX && (forall f :: 0 <= f < FD_MAX ==> FdOk(pr.fds[f]))
    && TodoOk(k, p, pr) && Placed(k, p, pr)
    && (pr.state != Zombie ==> p !in k.exited)
    && pr.waitFor == (if pr.state == Blocked && pr.todo.InWait? then pr.todo.child else PID_NONE)
  }

  predicate SleepsIn(k: K, p: nat, i: nat, d: Dir) {
    && p in k.procs && k.procs[p].state == Blocked
    && match d
       case ReadEnd => k.procs[p].todo.InRead? && k.procs[p].todo.pipe == i
       case WriteEnd => k.procs[p].todo.InWrite? && k.procs[p].todo.pipe == i
  }

  /** The reference counts are the numbers of open ends. */
  ghost predicate CountsOk(k: K, i: nat)
    requires i < |k.pipes|
  {
    && k.pipes[i].readRefs == |Ends(k.procs, i, ReadEnd)|
    && k.pipes[i].writeRefs == |Ends(k.procs, i, WriteEnd)|
    && k.pipes[i].refCount == k.pipes[i].readRefs + k.pipes[i].writeRefs
  }

  /** Everything accepted is delivered or still in the ring. */
  predicate StreamOk(p: Pipe) {
    p.accepted == p.delivered + p.contents && |p.contents| <= PIPE_BUF
  }

  predicate QueuesOk(k: K, i: nat)
    requires i < |k.pipes|
  {
    && Distinct(k.pipes[i].readers) && Distinct(k.pipes[i].writers)
    && (forall p :: p in k.pipes[i].readers ==> SleepsIn(k, p, i, ReadEnd))
    && (forall p :: p in k.pipes[i].writers ==> SleepsIn(k, p, i, WriteEnd))
  }

  ghost predicate PipeOk(k: K, i: nat)
    requires i < |k.pipes|
  {
    QueuesOk(k, i) && CountsOk(k, i) && StreamOk(k.pipes[i])
  }

  predicate SchedOk(k: K) {
    && Sched.Inv(k.sched)
    && (forall p :: p in k.sched.queue ==> p in k.procs && k.procs[p].state == ReadyToRun)
    && (k.sched.cpu.Runs? ==>
          k.sched.cpu.runnable && k.sched.cpu.who in k.procs && k.procs[k.sched.cpu.who].state == Running)
  }

  /** Before the scheduler is active, whatever is there runs in user code, and was started by the kernel. */
  predicate DormantOk(k: K) {
    !k.sched.active ==>
      forall p :: p in k.procs ==>
        k.procs[p].state == Running && k.procs[p].parent == PID_NONE && k.procs[p].todo == User
  }

  /** Entries of the process table in use. */
  function TableSize(k: K): nat {
    |k.procs| + |k.stranded|
  }

  predicate TableOk(k: K) {
    && TableSize(k) <= PROCESS_MAX
    && forall p :: p in k.stranded ==> PID_NONE < p < k.nextPid && p !in k.procs
  }

  /** Each delivery is what the child exited with, to its parent, once; and the child is gone. */
  predicate LogOk(k: K) {
    && (forall p :: p in k.exited ==> p < k.nextPid && k.exited[p].child == p)
    && (forall n :: 0 <= n < |k.log| ==>
          k.log[n].child in k.exited && k.log[n].child !in k.procs && k.exited[k.log[n].child] == k.log[n])
    && (forall m, n :: 0 <= m < n < |k.log| ==> k.log[m].child != k.log[n].child)
  }

  ghost predicate KernelInv(k: K) {
    && |k.pipes| == PIPE_MAX && PID_NONE < k.nextPid && SchedOk(k) && DormantOk(k) && TableOk(k) && LogOk(k)
    && (forall p :: p in k.procs ==> ProcOk(k, p))
    && (forall i: nat :: i < PIPE_MAX ==> PipeOk(k, i))
  }

  const FREE_PIPE := Pipe([], 0, 0, 0, [], [], [], [])

  /** The kernel before the first program: no process, every pipe slot free. */
  predicate Boot(k: K) {
    && k.procs == map[] && k.stranded == {} && k.exited == map[] && k.log == [] && k.nextPid == 1
    && k.sched == State([], Nobody, TIME_SLICE, false)
    && |k.pipes| == PIPE_MAX && forall i :: 0 <= i < PIPE_MAX ==> k.pipes[i] == FREE_PIPE
  }

  lemma BootPipe(k: K, i: nat)
    requires Boot(k) && i < PIPE_MAX
    ensures PipeOk(k, i)
  {
    assert Ends(k.procs, i, ReadEnd) == {};
    assert Ends(k.procs, i, WriteEnd) == {};
  }

  lemma BootInv(k: K)
    requires Boot(k)
    ensures KernelInv(k)
  {
    hide PipeOk;
    forall i: nat | i < PIPE_MAX ensures PipeOk(k, i) {
      BootPipe(k, i);
    }
  }

  // ---------------------------------------------------------------- where a process is

  datatype Place = OnCpu | InReady | InReaders(pipe: nat) | InWriters(pipe: nat) | InWaitpid | Dead

  /** The process is at this place. */
  predicate IsAt(k: K, p: nat, x: Place) {
    match x
    case OnCpu => k.sched.cpu.Runs? && k.sched.cpu.who == p
    case InReady => p in k.sched.queue
    case InReaders(i) => i < |k.pipes| && p in k.pipes[i].readers
    case InWriters(i) => i < |k.pipes| && p in k.pipes[i].writers
    case InWaitpid => p in k.procs && k.procs[p].waitFor != PID_NONE
    case Dead => p in k.procs && k.procs[p].state == Zombie
  }

  function PlaceOf(pr: Proc): Place {
    match pr.state
    case Running => OnCpu
    case ReadyToRun => InReady
    case Zombie => Dead
    case Blocked =>
      match pr.todo
      case InRead(i, _) => InReaders(i)
      case InWrite(i, _, _) => InWriters(i)
      case _ => InWaitpid
  }

  /** Every process is in exactly one place, and only processes are anywhere: stranded entries are in none. */
  lemma OnePlace(k: K, p: nat, x: Place)
    requires KernelInv(k)
    ensures IsAt(k, p, x) ==> p in k.procs
    ensures p in k.procs ==> (IsAt(k, p, x) <==> x == PlaceOf(k.procs[p]))
    ensures p in k.stranded ==> !IsAt(k, p, x)
  {
    if p in k.procs {
      assert ProcOk(k, p);
      if k.procs[p].todo.InWait? { assert ProcOk(k, k.procs[p].todo.child); }
    }
    if x.InReaders? || x.InWriters? {
      assert x.pipe < PIPE_MAX ==> PipeOk(k, x.pipe);
    }
    if IsAt(k, p, x) && x.InReaders? {
      assert SleepsIn(k, p, x.pipe, ReadEnd);
    }
    if IsAt(k, p, x) && x.InWriters? {
      assert SleepsIn(k, p, x.pipe, WriteEnd);
    }
  }

  /** A slot of the pool that nobody refers to has nobody waiting on it. */
  lemma UnreferencedUnwaited(k: K, i: nat)
    requires KernelInv(k) && i < PIPE_MAX
    ensures k.pipes[i].refCount >= 0
    ensures k.pipes[i].readRefs == 0 ==> k.pipes[i].readers == []
    ensures k.pipes[i].writeRefs == 0 ==> k.pipes[i].writers == []
    ensures k.pipes[i].refCount == 0 ==> k.pipes[i].readRefs == 0 && k.pipes[i].writeRefs == 0
  {
    assert PipeOk(k, i);
    var pp := k.pipes[i];
    if pp.readers != [] {
      var p := pp.readers[0];
      assert SleepsIn(k, p, i, ReadEnd) && ProcOk(k, p);
      var f :| 0 <= f < |k.procs[p].fds| && k.procs[p].fds[f] == PipeEnd(i, ReadEnd);
      assert (p, f) in Ends(k.procs, i, ReadEnd);
    }
    if pp.writers != [] {
      var p := pp.writers[0];
      assert SleepsIn(k, p, i, WriteEnd) && ProcOk(k, p);
      var f :| 0 <= f < |k.procs[p].fds| && k.procs[p].fds[f] == PipeEnd(i, WriteEnd);
      assert (p, f) in Ends(k.procs, i, WriteEnd);
    }
  }

  // ---------------------------------------------------------------- frames

  /** `k'` keeps `q` where it was, and whatever `q` relies on. */
  predicate Undisturbed(k: K, k': K, q: nat)
    requires q in k.procs && q in k'.procs
  {
    var pr := k.procs[q];
    && k'.procs[q] == pr && k.nextPid <= k'.nextPid && |k'.pipes| == |k.pipes|
    && (q in k.sched.queue ==> q in k'.sched.queue)
    && (pr.state == Running ==> k'.sched.cpu == k.sched.cpu)
    && (q in k.exited <==> q in k'.exited) && (q in k.exited ==> k'.exited[q] == k.exited[q])
    && (pr.todo.InRead? && pr.todo.pipe < |k.pipes| ==>
          (q in k.pipes[pr.todo.pipe].readers ==> q in k'.pipes[pr.todo.pipe].readers))
    && (pr.todo.InWrite? && pr.todo.pipe < |k.pipes| ==>
          (q in k.pipes[pr.todo.pipe].writers ==> q in k'.pipes[pr.todo.pipe].writers))
    && (pr.todo.InWait? && pr.todo.child in k.procs ==>
          pr.todo.child in k'.procs && k'.procs[pr.todo.child].parent == k.procs[pr.todo.child].parent
          && (k'.procs[pr.todo.child].state == Zombie <==> k.procs[pr.todo.child].state == Zombie))
  }

  lemma ProcFrame(k: K, k': K, q: nat)
    requires q in k.procs && q in k'.procs && ProcOk(k, q) && Undisturbed(k, k', q)
    ensures ProcOk(k', q)
  {
  }

  /** Nobody joined or left the table, and if the scheduler is not active, nothing changed at all. */
  lemma TableFrame(k: K, k': K)
    requires TableOk(k) && DormantOk(k) && k'.procs.Keys == k.procs.Keys && k'.stranded == k.stranded
    requires k.nextPid <= k'.nextPid && (k.sched.active ==> k'.sched.active)
    requires !k'.sched.active ==>
               forall p :: p in k.procs ==>
                 && k'.procs[p].state == k.procs[p].state && k'.procs[p].parent == k.procs[p].parent
                 && (k'.procs[p].todo == k.procs[p].todo || k'.procs[p].todo == User)
    ensures TableOk(k') && DormantOk(k')
  {
    assert |k'.procs| == |k'.procs.Keys| && |k.procs| == |k.procs.Keys|;
  }

  /** Open ends depend on the descriptors only. */
  lemma CountsFrame(k: K, k': K, i: nat)
    requires i < |k.pipes| && i < |k'.pipes| && CountsOk(k, i)
    requires k.procs.Keys == k'.procs.Keys && forall p :: p in k.procs ==> k'.procs[p].fds == k.procs[p].fds
    requires k'.pipes[i].readRefs == k.pipes[i].readRefs && k'.pipes[i].writeRefs == k.pipes[i].writeRefs
    requires k'.pipes[i].refCount == k.pipes[i].refCount
    ensures CountsOk(k', i)
  {
    assert Ends(k'.procs, i, ReadEnd) == Ends(k.procs, i, ReadEnd);
    assert Ends(k'.procs, i, WriteEnd) == Ends(k.procs, i, WriteEnd);
  }

  /** The wait queues of a pipe stay right when they, and the sleepers, stay. */
  lemma QueuesFrame(k: K, k': K, i: nat)
    requires i < |k.pipes| && i < |k'.pipes| && QueuesOk(k, i)
    requires k'.pipes[i].readers == k.pipes[i].readers && k'.pipes[i].writers == k.pipes[i].writers
    requires forall p :: p in k.procs && k.procs[p].state == Blocked && !k.procs[p].todo.InWait? ==>
               p in k'.procs && k'.procs[p].state == Blocked && k'.procs[p].todo == k.procs[p].todo
    ensures QueuesOk(k', i)
  {
    forall p | p in k'.pipes[i].readers ensures SleepsIn(k', p, i, ReadEnd) {
      assert SleepsIn(k, p, i, ReadEnd);
    }
    forall p | p in k'.pipes[i].writers ensures SleepsIn(k', p, i, WriteEnd) {
      assert SleepsIn(k, p, i, WriteEnd);
    }
  }
}
