/**
 The primitive changes of the kernel state, each keeping the invariant: waking,
 descriptor stores, pipe transfers, sleeping, dispatching, creating, exiting, removing.
 */
module KernelOps {
  import opened Sched
  import opened Kernel

  // ---------------------------------------------------------------- waking (wait_queue_wake_one, wait_queue_wake_all)

  function WithWaiters(p: Pipe, d: Dir, w: seq<nat>): Pipe {
    if d.ReadEnd? then p.(readers := w) else p.(writers := w)
  }

  /** The first `n` waiters, or all of them. */
  function Woken(p: Pipe, d: Dir, n: nat): seq<nat> {
    if n <= |Waiters(p, d)| then Waiters(p, d)[..n] else Waiters(p, d)
  }

  /** Wake the first `n` waiters at one end of pipe `i`. */
  function Wake(k: K, i: nat, d: Dir, n: nat): K
    requires i < |k.pipes|
  {
    var woken := Woken(k.pipes[i], d, n);
    k.(pipes := k.pipes[i := WithWaiters(k.pipes[i], d, Waiters(k.pipes[i], d)[|woken|..])],
       procs := map p | p in k.procs :: if p in woken then k.procs[p].(state := ReadyToRun) else k.procs[p],
       sched := k.sched.(queue := k.sched.queue + woken, active := k.sched.active || woken != []))
  }

  /** The woken are asleep here, distinct, and not among those who stay. */
  lemma WokenAre(k: K, i: nat, d: Dir, n: nat)
    requires i < |k.pipes| && QueuesOk(k, i)
    ensures var w, woken := Waiters(k.pipes[i], d), Woken(k.pipes[i], d, n);
            && w == woken + w[|woken|..] && Distinct(woken) && Distinct(w[|woken|..])
            && (forall p :: p in woken ==> SleepsIn(k, p, i, d))
            && (forall p :: p in w[|woken|..] ==> p !in woken)
  {
    var w, woken := Waiters(k.pipes[i], d), Woken(k.pipes[i], d, n);
    assert w == woken + w[|woken|..];
    forall p | p in woken ensures SleepsIn(k, p, i, d) {
      assert p in w;
    }
  }

  lemma WakeProc(k: K, i: nat, d: Dir, n: nat, q: nat)
    requires i < |k.pipes| && QueuesOk(k, i) && q in k.procs && ProcOk(k, q)
    ensures ProcOk(Wake(k, i, d, n), q)
  {
    hide QueuesOk;
    WokenAre(k, i, d, n);
    var k' := Wake(k, i, d, n);
    if q !in Woken(k.pipes[i], d, n) {
      assert Undisturbed(k, k', q);
      ProcFrame(k, k', q);
    }
  }

  lemma WakeQueue(k: K, i: nat, d: Dir, n: nat, j: nat)
    requires i < |k.pipes| && j < |k.pipes| && QueuesOk(k, i) && QueuesOk(k, j)
    ensures QueuesOk(Wake(k, i, d, n), j)
  {
    var k' := Wake(k, i, d, n);
    WokenAre(k, i, d, n);
    forall p | p in k'.pipes[j].readers ensures SleepsIn(k', p, j, ReadEnd) {
      assert SleepsIn(k, p, j, ReadEnd);
    }
    forall p | p in k'.pipes[j].writers ensures SleepsIn(k', p, j, WriteEnd) {
      assert SleepsIn(k, p, j, WriteEnd);
    }
  }

  lemma SetTwice<T>(s: seq<T>, i: nat, a: T, b: T)
    requires i < |s|
    ensures s[i := a][i := b] == s[i := b] && s[i := a][i] == a
  {
  }

  lemma DistinctAppend<T>(a: seq<T>, b: seq<T>)
    requires Distinct(a) && Distinct(b) && forall x :: x in b ==> x !in a
    ensures Distinct(a + b)
  {
    forall i, j | 0 <= i < j < |a + b| ensures (a + b)[i] != (a + b)[j] {
      if i < |a| <= j { assert b[j - |a|] in b; }
    }
  }

  lemma WakeSched(k: K, i: nat, d: Dir, n: nat)
    requires i < |k.pipes| && QueuesOk(k, i) && SchedOk(k)
    ensures SchedOk(Wake(k, i, d, n))
  {
    hide QueuesOk;
    WokenAre(k, i, d, n);
    var woken := Woken(k.pipes[i], d, n);
    forall p | p in woken ensures p !in k.sched.queue {
      assert SleepsIn(k, p, i, d);
    }
    DistinctAppend(k.sched.queue, woken);
  }

  lemma WakeInv(k: K, i: nat, d: Dir, n: nat)
    requires KernelInv(k) && i < PIPE_MAX
    ensures KernelInv(Wake(k, i, d, n))
  {
    hide ProcOk, QueuesOk, CountsOk, SchedOk, DormantOk, TableOk;
    var k' := Wake(k, i, d, n);
    assert PipeOk(k, i);
    WakeSched(k, i, d, n);
    TableFrame(k, k');
    forall q | q in k'.procs ensures ProcOk(k', q) {
      WakeProc(k, i, d, n, q);
    }
    forall j: nat | j < PIPE_MAX ensures PipeOk(k', j) {
      assert PipeOk(k, j);
      WakeQueue(k, i, d, n, j);
      CountsFrame(k, k', j);
    }
  }

  // ---------------------------------------------------------------- descriptor stores

  /** The reference counts of a pipe after `delta` more references to its end `d`. */
  function Counted(p: Pipe, d: Dir, delta: int): Pipe {
    if d.ReadEnd? then p.(readRefs := p.readRefs + delta, refCount := p.refCount + delta)
    else p.(writeRefs := p.writeRefs + delta, refCount := p.refCount + delta)
  }

  function Recount(pipes: seq<Pipe>, fd: Fd, delta: int): (r: seq<Pipe>)
    ensures |r| == |pipes|
  {
    if fd.PipeEnd? && fd.pipe < |pipes| then pipes[fd.pipe := Counted(pipes[fd.pipe], fd.dir, delta)] else pipes
  }

  /** Store `fd` in slot `f` of process `p`, counting the reference lost and the one gained. */
  function PutFd(k: K, p: nat, f: nat, fd: Fd): K
    requires p in k.procs && f < |k.procs[p].fds|
  {
    k.(procs := k.procs[p := k.procs[p].(fds := k.procs[p].fds[f := fd])],
       pipes := Recount(Recount(k.pipes, k.procs[p].fds[f], -1), fd, 1))
  }

  lemma WithoutOne<T>(s: set<T>, x: T)
    ensures |s| == |s - {x}| + (if x in s then 1 else 0)
  {
    if x !in s { assert s - {x} == s; }
  }

  lemma PutFdEnds(procs: map<nat, Proc>, p: nat, f: nat, fd: Fd, i: nat, d: Dir)
    requires p in procs && f < |procs[p].fds|
    ensures var after := Ends(procs[p := procs[p].(fds := procs[p].fds[f := fd])], i, d);
            |after| == |Ends(procs, i, d)| - (if procs[p].fds[f] == PipeEnd(i, d) then 1 else 0)
              + (if fd == PipeEnd(i, d) then 1 else 0)
  {
    var procs' := procs[p := procs[p].(fds := procs[p].fds[f := fd])];
    var before, after := Ends(procs, i, d), Ends(procs', i, d);
    PutFdOthers(procs, p, f, fd, i, d);
    EndsAt(procs, i, d, p, f);
    EndsAt(procs', i, d, p, f);
    hide Ends;
    WithoutOne(before, (p, f));
    WithoutOne(after, (p, f));
  }

  lemma EndsAt(procs: map<nat, Proc>, i: nat, d: Dir, p: nat, f: nat)
    requires p in procs && f < |procs[p].fds|
    ensures (p, f) in Ends(procs, i, d) <==> procs[p].fds[f] == PipeEnd(i, d)
  {
  }

  lemma PutFdOthers(procs: map<nat, Proc>, p: nat, f: nat, fd: Fd, i: nat, d: Dir)
    requires p in procs && f < |procs[p].fds|
    ensures Ends(procs[p := procs[p].(fds := procs[p].fds[f := fd])], i, d) - {(p, f)} == Ends(procs, i, d) - {(p, f)}
  {
    var procs' := procs[p := procs[p].(fds := procs[p].fds[f := fd])];
    forall q: nat, g: nat | (q, g) != (p, f) ensures (q, g) in Ends(procs', i, d) <==> (q, g) in Ends(procs, i, d) {
      if q in procs && g < |procs[q].fds| {
        EndsAt(procs, i, d, q, g);
        EndsAt(procs', i, d, q, g);
      }
    }
  }

  lemma PutFdCounts(k: K, p: nat, f: nat, fd: Fd, i: nat)
    requires p in k.procs && f < |k.procs[p].fds| && i < |k.pipes| && CountsOk(k, i)
    requires fd.PipeEnd? ==> fd.pipe < |k.pipes|
    requires k.procs[p].fds[f].PipeEnd? ==> k.procs[p].fds[f].pipe < |k.pipes|
    ensures CountsOk(PutFd(k, p, f, fd), i)
  {
    hide Ends;
    PutFdEnds(k.procs, p, f, fd, i, ReadEnd);
    PutFdEnds(k.procs, p, f, fd, i, WriteEnd);
  }

  /** A store leaves contents, queues and history alone. */
  lemma PutFdPipe(k: K, p: nat, f: nat, fd: Fd, i: nat)
    requires p in k.procs && f < |k.procs[p].fds| && i < |k.pipes|
    ensures var a, b := k.pipes[i], PutFd(k, p, f, fd).pipes[i];
            b == a.(readRefs := b.readRefs, writeRefs := b.writeRefs, refCount := b.refCount)
  {
  }

  lemma PutFdProc(k: K, p: nat, f: nat, fd: Fd, q: nat)
    requires p in k.procs && f < FD_MAX && k.procs[p].todo == User && FdOk(fd) && q in k.procs
    requires |k.procs[p].fds| == FD_MAX
    requires ProcOk(k, q)
    ensures ProcOk(PutFd(k, p, f, fd), q)
  {
    hide Counted;
    var k' := PutFd(k, p, f, fd);
    var i := if k.procs[q].todo.InRead? || k.procs[q].todo.InWrite? then k.procs[q].todo.pipe else 0;
    if i < |k.pipes| {
      PutFdPipe(k, p, f, fd, i);
    }
    hide Recount;
    if q != p {
      assert Undisturbed(k, k', q);
      ProcFrame(k, k', q);
    }
  }

  lemma PutFdInv(k: K, p: nat, f: nat, fd: Fd)
    requires KernelInv(k) && p in k.procs && f < |k.procs[p].fds| && k.procs[p].todo == User && FdOk(fd)
    ensures KernelInv(PutFd(k, p, f, fd))
  {
    hide ProcOk, QueuesOk, CountsOk, StreamOk, Recount, DormantOk, TableOk;
    PutFdSlot(k, p, f);
    var k' := PutFd(k, p, f, fd);
    TableFrame(k, k');
    forall q | q in k'.procs ensures ProcOk(k', q) {
      PutFdProc(k, p, f, fd, q);
    }
    forall i: nat | i < PIPE_MAX ensures PipeOk(k', i) {
      assert PipeOk(k, i);
      PutFdPipe(k, p, f, fd, i);
      PutFdQueues(k, p, f, fd, i);
      PutFdCounts(k, p, f, fd, i);
    }
  }

  lemma PutFdQueues(k: K, p: nat, f: nat, fd: Fd, i: nat)
    requires p in k.procs && f < |k.procs[p].fds| && i < |k.pipes| && QueuesOk(k, i) && StreamOk(k.pipes[i])
    ensures QueuesOk(PutFd(k, p, f, fd), i) && StreamOk(PutFd(k, p, f, fd).pipes[i])
  {
    hide QueuesOk, Recount;
    PutFdPipe(k, p, f, fd, i);
    QueuesFrame(k, PutFd(k, p, f, fd), i);
  }

  lemma PutFdSlot(k: K, p: nat, f: nat)
    requires p in k.procs && ProcOk(k, p) && f < |k.procs[p].fds|
    ensures f < FD_MAX && |k.procs[p].fds| == FD_MAX && FdOk(k.procs[p].fds[f])
  {
  }

  // ---------------------------------------------------------------- transfers

  /** Pipe `i` with other contents and history. */
  function SetStream(k: K, i: nat, contents: seq<byte>, accepted: seq<byte>, delivered: seq<byte>): K
    requires i < |k.pipes|
  {
    k.(pipes := k.pipes[i := k.pipes[i].(contents := contents, accepted := accepted, delivered := delivered)])
  }

  lemma SetStreamInv(k: K, i: nat, contents: seq<byte>, accepted: seq<byte>, delivered: seq<byte>)
    requires KernelInv(k) && i < PIPE_MAX && |contents| <= PIPE_BUF && accepted == delivered + contents
    ensures KernelInv(SetStream(k, i, contents, accepted, delivered))
  {
    hide ProcOk, QueuesOk, CountsOk, DormantOk, TableOk;
    var k' := SetStream(k, i, contents, accepted, delivered);
    TableFrame(k, k');
    forall q | q in k'.procs ensures ProcOk(k', q) {
      ProcFrame(k, k', q);
    }
    forall j: nat | j < PIPE_MAX ensures PipeOk(k', j) {
      assert PipeOk(k, j);
      QueuesFrame(k, k', j);
      CountsFrame(k, k', j);
    }
  }

  // ---------------------------------------------------------------- giving up and taking the processor

  /** The process that runs. */
  predicate Current(k: K, p: nat) {
    k.sched.cpu == Runs(p, true) && p in k.procs
  }

  function Joined(pipes: seq<Pipe>, t: Todo, p: nat): (r: seq<Pipe>)
    ensures |r| == |pipes|
  {
    match t
    case InRead(i, _) => if i < |pipes| then pipes[i := pipes[i].(readers := pipes[i].readers + [p])] else pipes
    case InWrite(i, _, _) => if i < |pipes| then pipes[i := pipes[i].(writers := pipes[i].writers + [p])] else pipes
    case _ => pipes
  }

  /** The current process goes to sleep until `t` can go on; the processor is left to the idle process. */
  function Sleep(k: K, p: nat, t: Todo): K
    requires p in k.procs
  {
    var asleep := k.procs[p].(state := Blocked, todo := t, waitFor := if t.InWait? then t.child else PID_NONE);
    k.(procs := k.procs[p := asleep], pipes := Joined(k.pipes, t, p), sched := k.sched.(cpu := Idle))
  }

  /** What a process may go to sleep on. */
  predicate MaySleep(k: K, p: nat, t: Todo)
    requires Current(k, p)
  {
    match t
    case User => false
    case InRead(i, want) => i < |k.pipes| && Holds(k.procs[p].fds, i, ReadEnd) && want > 0
    case InWrite(i, rest, _) => i < |k.pipes| && Holds(k.procs[p].fds, i, WriteEnd) && rest != []
    case InWait(c) => c in k.procs && k.procs[c].parent == p && k.procs[c].state != Zombie
  }

  lemma SleepProc(k: K, p: nat, t: Todo, q: nat)
    requires Current(k, p) && MaySleep(k, p, t) && k.procs[p].state == Running && ProcOk(k, p)
    requires q in k.procs && ProcOk(k, q)
    ensures ProcOk(Sleep(k, p, t), q)
  {
    var k' := Sleep(k, p, t);
    if q != p {
      assert Undisturbed(k, k', q);
      ProcFrame(k, k', q);
    }
  }

  lemma SleepQueue(k: K, p: nat, t: Todo, i: nat)
    requires Current(k, p) && MaySleep(k, p, t) && k.procs[p].state == Running && i < |k.pipes| && QueuesOk(k, i)
    ensures QueuesOk(Sleep(k, p, t), i)
  {
    var k' := Sleep(k, p, t);
    assert !SleepsIn(k, p, i, ReadEnd) && !SleepsIn(k, p, i, WriteEnd);
    forall q | q in k'.pipes[i].readers ensures SleepsIn(k', q, i, ReadEnd) {
      assert q != p ==> SleepsIn(k, q, i, ReadEnd);
    }
    forall q | q in k'.pipes[i].writers ensures SleepsIn(k', q, i, WriteEnd) {
      assert q != p ==> SleepsIn(k, q, i, WriteEnd);
    }
  }

  lemma SleepSched(k: K, p: nat, t: Todo)
    requires SchedOk(k) && Current(k, p)
    ensures SchedOk(Sleep(k, p, t)) && k.procs[p].state == Running
  {
  }

  lemma SleepInv(k: K, p: nat, t: Todo)
    requires KernelInv(k) && Current(k, p) && MaySleep(k, p, t) && k.sched.active
    ensures KernelInv(Sleep(k, p, t))
  {
    hide ProcOk, QueuesOk, CountsOk, MaySleep, SchedOk, DormantOk, TableOk;
    var k' := Sleep(k, p, t);
    TableFrame(k, k');
    SleepSched(k, p, t);
    forall q | q in k'.procs ensures ProcOk(k', q) {
      SleepProc(k, p, t, q);
    }
    forall i: nat | i < PIPE_MAX ensures PipeOk(k', i) {
      assert PipeOk(k, i);
      SleepQueue(k, p, t, i);
      CountsFrame(k, k', i);
    }
  }

  /** The current process goes to the back of the ready queue. */
  function Requeue(k: K, p: nat): K
    requires p in k.procs
  {
    k.(procs := k.procs[p := k.procs[p].(state := ReadyToRun)],
       sched := k.sched.(queue := k.sched.queue + [p], cpu := Idle))
  }

  lemma RequeueProc(k: K, p: nat, q: nat)
    requires Current(k, p) && k.procs[p].state == Running && q in k.procs && ProcOk(k, q)
    ensures ProcOk(Requeue(k, p), q)
  {
    var k' := Requeue(k, p);
    if q != p {
      assert Undisturbed(k, k', q);
      ProcFrame(k, k', q);
    }
  }

  lemma RequeueSched(k: K, p: nat)
    requires SchedOk(k) && Current(k, p) && k.sched.active
    ensures SchedOk(Requeue(k, p)) && k.procs[p].state == Running
  {
    DistinctAppend(k.sched.queue, [p]);
  }

  lemma RequeueInv(k: K, p: nat)
    requires KernelInv(k) && Current(k, p) && k.sched.active
    ensures KernelInv(Requeue(k, p))
  {
    hide ProcOk, CountsOk, QueuesOk, SchedOk, DormantOk, TableOk;
    var k' := Requeue(k, p);
    TableFrame(k, k');
    RequeueSched(k, p);
    forall q | q in k'.procs ensures ProcOk(k', q) {
      RequeueProc(k, p, q);
    }
    forall i: nat | i < PIPE_MAX ensures PipeOk(k', i) {
      assert PipeOk(k, i);
      QueuesFrame(k, k', i);
      CountsFrame(k, k', i);
    }
  }

  /** With nobody running, the head of the ready queue takes the processor. */
  function Dispatch(k: K): K {
    k.(sched := Schedule(k.sched),
       procs := if k.sched.queue == [] || k.sched.queue[0] !in k.procs then k.procs
                else k.procs[k.sched.queue[0] := k.procs[k.sched.queue[0]].(state := Running)])
  }

  lemma DispatchSched(k: K)
    requires SchedOk(k) && !k.sched.cpu.Runs?
    ensures (forall p :: p in k.sched.queue ==> p in k.procs) && SchedOk(Dispatch(k))
    ensures forall p :: p in k.procs && k.procs[p].state == Blocked ==> Dispatch(k).procs[p] == k.procs[p]
    ensures LogOk(k) ==> LogOk(Dispatch(k))
  {
  }

  lemma DispatchInv(k: K)
    requires KernelInv(k) && !k.sched.cpu.Runs? && k.sched.active
    ensures KernelInv(Dispatch(k))
  {
    hide ProcOk, CountsOk, QueuesOk, SchedOk, LogOk, DormantOk, TableOk;
    DispatchSched(k);
    var k' := Dispatch(k);
    TableFrame(k, k');
    forall q | q in k'.procs ensures ProcOk(k', q) {
      DispatchProc(k, q);
    }
    forall i: nat | i < PIPE_MAX ensures PipeOk(k', i) {
      assert PipeOk(k, i);
      QueuesFrame(k, k', i);
      CountsFrame(k, k', i);
    }
  }

  lemma DispatchProc(k: K, q: nat)
    requires SchedOk(k) && !k.sched.cpu.Runs? && q in k.procs && ProcOk(k, q)
    ensures ProcOk(Dispatch(k), q)
  {
    var k' := Dispatch(k);
    if k.sched.queue == [] || q != k.sched.queue[0] {
      assert Undisturbed(k, k', q);
      ProcFrame(k, k', q);
    }
  }

  /** scheduler_yield of process `p`, which may not go on: nothing happens while the scheduler is not active. */
  function Parted(k: K, p: nat): K {
    if k.sched.active then Dispatch(k) else k.(sched := k.sched.(cpu := Runs(p, false)))
  }

  /** schedule(), whoever runs. */
  function Yielded(k: K): K {
    if k.sched.cpu.Runs? && k.sched.cpu.who in k.procs then Dispatch(Requeue(k, k.sched.cpu.who)) else Dispatch(k)
  }

  /** Queueing the current process before the head is taken is what schedule() does. */
  lemma YieldedSchedules(k: K)
    requires KernelInv(k) && k.sched.active
    ensures Yielded(k).sched == Schedule(k.sched) && KernelInv(Yielded(k))
  {
    hide KernelInv;
    if k.sched.cpu.Runs? {
      RunsIsCurrent(k);
      RequeueInv(k, k.sched.cpu.who);
      DispatchInv(Requeue(k, k.sched.cpu.who));
      if k.sched.queue != [] {
        assert (k.sched.queue + [k.sched.cpu.who])[1..] == k.sched.queue[1..] + [k.sched.cpu.who];
      }
    } else {
      DispatchInv(k);
    }
  }

  lemma RunsIsCurrent(k: K)
    requires KernelInv(k) && k.sched.cpu.Runs?
    ensures Current(k, k.sched.cpu.who)
  {
  }

  /** So is sleeping, then yielding: schedule() never looks at a process that cannot run. */
  lemma SleepSchedules(k: K, p: nat, t: Todo)
    requires KernelInv(k) && Current(k, p)
    ensures Parted(Sleep(k, p, t), p).sched == Step(k.sched, Stop)
  {
  }

  /** The current process is back in user code. */
  function Awake(k: K, p: nat): K
    requires p in k.procs
  {
    k.(procs := k.procs[p := k.procs[p].(todo := User)])
  }

  lemma AwakeProc(k: K, p: nat, q: nat)
    requires Current(k, p) && k.procs[p].state == Running && q in k.procs && ProcOk(k, q)
    ensures ProcOk(Awake(k, p), q)
  {
    var k' := Awake(k, p);
    if q != p {
      assert Undisturbed(k, k', q);
      ProcFrame(k, k', q);
    }
  }

  lemma AwakeSched(k: K, p: nat)
    requires SchedOk(k) && Current(k, p)
    ensures SchedOk(Awake(k, p)) && k.procs[p].state == Running
  {
  }

  lemma AwakeInv(k: K, p: nat)
    requires KernelInv(k) && Current(k, p)
    ensures KernelInv(Awake(k, p))
  {
    hide ProcOk, CountsOk, QueuesOk, SchedOk, DormantOk, TableOk;
    var k' := Awake(k, p);
    TableFrame(k, k');
    AwakeSched(k, p);
    forall q | q in k'.procs ensures ProcOk(k', q) {
      AwakeProc(k, p, q);
    }
    forall i: nat | i < PIPE_MAX ensures PipeOk(k', i) {
      assert PipeOk(k, i);
      QueuesFrame(k, k', i);
      CountsFrame(k, k', i);
    }
  }

  // ---------------------------------------------------------------- creating, exiting, removing

  /** A new process without descriptors: current at once when the kernel starts it, queued otherwise. */
  function Spawn(k: K, parent: nat): K {
    var c, first := k.nextPid, parent == PID_NONE;
    k.(procs := k.procs[c := Proc(parent, if first then Running else ReadyToRun, PID_NONE, 0,
                                  seq(FD_MAX, f => NoFd), User)],
       nextPid := k.nextPid + 1,
       sched := if first
                then k.sched.(cpu := Runs(c, true))
                else k.sched.(queue := k.sched.queue + [c], active := true))
  }

  lemma SpawnSched(k: K, parent: nat)
    requires KernelInv(k) && (parent == PID_NONE ==> !k.sched.cpu.Runs?)
    ensures k.nextPid !in k.procs && SchedOk(Spawn(k, parent))
  {
    assert k.nextPid in k.procs ==> ProcOk(k, k.nextPid);
    DistinctAppend(k.sched.queue, [k.nextPid]);
  }

  lemma SpawnCounts(k: K, parent: nat, i: nat)
    requires k.nextPid !in k.procs && i < |k.pipes| && CountsOk(k, i)
    ensures CountsOk(Spawn(k, parent), i)
  {
    var k' := Spawn(k, parent);
    assert Ends(k'.procs, i, ReadEnd) == Ends(k.procs, i, ReadEnd);
    assert Ends(k'.procs, i, WriteEnd) == Ends(k.procs, i, WriteEnd);
  }

  lemma SpawnProc(k: K, parent: nat, q: nat)
    requires k.nextPid !in k.procs && q in k.procs && ProcOk(k, q)
    requires (parent == PID_NONE ==> k.procs[q].state != Running)
    ensures ProcOk(Spawn(k, parent), q)
  {
    assert Undisturbed(k, Spawn(k, parent), q);
    ProcFrame(k, Spawn(k, parent), q);
  }

  lemma SpawnedOk(k: K, parent: nat)
    requires KernelInv(k) && parent < k.nextPid && (parent == PID_NONE ==> !k.sched.cpu.Runs?)
    ensures ProcOk(Spawn(k, parent), k.nextPid)
    ensures parent == PID_NONE ==> forall q :: q in k.procs ==> k.procs[q].state != Running
  {
    assert forall q :: q in k.procs ==> ProcOk(k, q);
  }

  lemma SpawnTable(k: K, parent: nat)
    requires TableOk(k) && DormantOk(k) && k.nextPid !in k.procs && TableSize(k) < PROCESS_MAX
    ensures TableOk(Spawn(k, parent)) && DormantOk(Spawn(k, parent))
  {
  }

  lemma SpawnInv(k: K, parent: nat)
    requires KernelInv(k) && parent < k.nextPid && (parent == PID_NONE ==> !k.sched.cpu.Runs?)
    requires TableSize(k) < PROCESS_MAX
    ensures KernelInv(Spawn(k, parent))
  {
    hide ProcOk, CountsOk, QueuesOk, SchedOk, DormantOk, TableOk;
    var k' := Spawn(k, parent);
    SpawnSched(k, parent);
    SpawnedOk(k, parent);
    SpawnTable(k, parent);
    forall q | q in k'.procs ensures ProcOk(k', q) {
      if q in k.procs { SpawnProc(k, parent, q); }
    }
    forall i: nat | i < PIPE_MAX ensures PipeOk(k', i) {
      assert PipeOk(k, i);
      QueuesFrame(k, k', i);
      SpawnCounts(k, parent, i);
    }
  }

  /** The parent sleeps in waitpid on exactly this child. */
  predicate Awaited(k: K, p: nat)
    requires p in k.procs
  {
    var parent := k.procs[p].parent;
    parent in k.procs && k.procs[parent].state == Blocked && k.procs[parent].waitFor == p
  }

  /** The current process becomes a zombie, and its parent is woken if it sleeps on it. */
  function Bury(k: K, p: nat, code: int): K
    requires p in k.procs
  {
    var parent := k.procs[p].parent;
    var dead := k.procs[p := k.procs[p].(state := Zombie, exitCode := code)];
    var k1 := k.(procs := dead, exited := k.exited[p := Delivery(p, parent, code)], sched := k.sched.(cpu := Idle));
    if Awaited(k1, p) then
      k1.(procs := dead[parent := dead[parent].(state := ReadyToRun, waitFor := PID_NONE)],
          sched := k1.sched.(queue := k.sched.queue + [parent], active := true))
    else k1
  }

  lemma BuryProc(k: K, p: nat, code: int, q: nat)
    requires Current(k, p) && k.procs[p].state == Running && k.procs[p].todo == User && q in k.procs && ProcOk(k, p)
    requires ProcOk(k, q)
    requires q in k.sched.queue ==> k.procs[q].state == ReadyToRun
    ensures ProcOk(Bury(k, p, code), q)
  {
    var k' := Bury(k, p, code);
    if q != p && !(q == k.procs[p].parent && k.procs[q].state == Blocked && k.procs[q].waitFor == p) {
      assert Undisturbed(k, k', q);
      ProcFrame(k, k', q);
    }
  }

  lemma BurySched(k: K, p: nat, code: int)
    requires Current(k, p) && SchedOk(k)
    ensures SchedOk(Bury(k, p, code)) && k.procs[p].state == Running
    ensures forall q :: q in k.sched.queue ==> q in k.procs && k.procs[q].state == ReadyToRun
  {
    if k.procs[p].parent !in k.sched.queue {
      DistinctAppend(k.sched.queue, [k.procs[p].parent]);
    }
  }

  lemma BuryLog(k: K, p: nat, code: int)
    requires LogOk(k) && Current(k, p) && ProcOk(k, p)
    ensures LogOk(Bury(k, p, code))
  {
  }

  lemma BuryInv(k: K, p: nat, code: int)
    requires KernelInv(k) && Current(k, p) && k.procs[p].todo == User && k.sched.active
    ensures KernelInv(Bury(k, p, code))
  {
    hide ProcOk, CountsOk, QueuesOk, SchedOk, LogOk, DormantOk, TableOk;
    var k' := Bury(k, p, code);
    TableFrame(k, k');
    BurySched(k, p, code);
    BuryLog(k, p, code);
    forall q | q in k'.procs ensures ProcOk(k', q) {
      BuryProc(k, p, code, q);
    }
    forall i: nat | i < PIPE_MAX ensures PipeOk(k', i) {
      assert PipeOk(k, i);
      BuryQueue(k, p, code, i);
      CountsFrame(k, k', i);
    }
  }

  lemma BuryQueue(k: K, p: nat, code: int, i: nat)
    requires KernelInv(k) && Current(k, p) && i < PIPE_MAX && QueuesOk(k, i)
    ensures QueuesOk(Bury(k, p, code), i)
  {
    hide QueuesOk;
    var k' := Bury(k, p, code);
    forall q | q in k.procs && k.procs[q].state == Blocked && !k.procs[q].todo.InWait?
      ensures k'.procs[q].state == Blocked && k'.procs[q].todo == k.procs[q].todo
    {
      assert ProcOk(k, q) && ProcOk(k, p);
    }
    QueuesFrame(k, k', i);
  }

  /** The process leaves the table; a zombie's exit code is handed over. */
  function Vacate(k: K, c: nat): K
    requires c in k.procs
  {
    k.(procs := k.procs - {c},
       sched := if k.sched.cpu.Runs? && k.sched.cpu.who == c then k.sched.(cpu := Nobody) else k.sched,
       log := if k.procs[c].state == Zombie && c in k.exited then k.log + [k.exited[c]] else k.log)
  }

  predicate NoPipes(fds: seq<Fd>) {
    forall f :: 0 <= f < |fds| ==> !fds[f].PipeEnd?
  }

  lemma VacateCounts(k: K, c: nat, i: nat)
    requires c in k.procs && NoPipes(k.procs[c].fds)
    requires i < |k.pipes| && CountsOk(k, i)
    ensures CountsOk(Vacate(k, c), i)
  {
    var k' := Vacate(k, c);
    assert Ends(k'.procs, i, ReadEnd) == Ends(k.procs, i, ReadEnd);
    assert Ends(k'.procs, i, WriteEnd) == Ends(k.procs, i, WriteEnd);
  }

  /** Only a zombie, or the process that runs, can leave; and nobody may be waiting for it. */
  lemma VacateInv(k: K, c: nat)
    requires KernelInv(k) && c in k.procs && NoPipes(k.procs[c].fds)
    requires k.procs[c].state == Zombie || k.procs[c].state == Running
    requires k.procs[c].parent in k.procs ==> k.procs[k.procs[c].parent].todo == User
    ensures KernelInv(Vacate(k, c))
  {
    hide ProcOk, CountsOk, QueuesOk, SchedOk, LogOk, DormantOk, TableOk;
    VacateSched(k, c);
    var k' := Vacate(k, c);
    VacateLog(k, c);
    VacateTable(k, c);
    forall q | q in k'.procs ensures ProcOk(k', q) {
      VacateProc(k, c, q);
    }
    forall i: nat | i < PIPE_MAX ensures PipeOk(k', i) {
      assert PipeOk(k, i);
      QueuesFrame(k, k', i);
      VacateCounts(k, c, i);
    }
  }

  lemma VacateSched(k: K, c: nat)
    requires SchedOk(k) && c in k.procs && ProcOk(k, c) && (k.procs[c].state == Zombie || k.procs[c].state == Running)
    ensures SchedOk(Vacate(k, c))
  {
  }

  lemma VacateTable(k: K, c: nat)
    requires TableOk(k) && DormantOk(k) && c in k.procs
    ensures TableOk(Vacate(k, c)) && DormantOk(Vacate(k, c))
  {
    assert (k.procs - {c}).Keys == k.procs.Keys - {c};
    assert |(k.procs - {c}).Keys| <= |k.procs.Keys|;
  }

  lemma VacateLog(k: K, c: nat)
    requires LogOk(k) && c in k.procs
    ensures LogOk(Vacate(k, c))
  {
  }

  lemma VacateProc(k: K, c: nat, q: nat)
    requires c in k.procs
    requires k.procs[c].parent in k.procs ==> k.procs[k.procs[c].parent].todo == User
    requires q in k.procs && q != c && ProcOk(k, q)
    ensures ProcOk(Vacate(k, c), q)
  {
    assert Undisturbed(k, Vacate(k, c), q);
    ProcFrame(k, Vacate(k, c), q);
  }
}
