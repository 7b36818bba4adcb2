/**
 Over every run, the bytes that reads of a pipe returned against those its writers reported as
 written (src/kernel/syscall/sys_io.c).
 */
module KernelStreams {
  import opened Kernel
  import opened KernelOps
  import opened KernelCalls
  import opened KernelRuns
  import Sched

  // ---------------------------------------------------------------- the history of a pipe

  predicate SameStream(k: K, k': K, i: nat) {
    && i < |k.pipes| && i < |k'.pipes|
    && k'.pipes[i].accepted == k.pipes[i].accepted && k'.pipes[i].delivered == k.pipes[i].delivered
  }

  predicate SameStreams(k: K, k': K) {
    |k'.pipes| == |k.pipes| && forall i: nat :: i < |k.pipes| ==> SameStream(k, k', i)
  }

  /** References only go; the history stays, unless the last reference went. */
  predicate Closing(k: K, k': K, i: nat) {
    && i < |k.pipes| && i < |k'.pipes| && 0 <= k'.pipes[i].refCount <= k.pipes[i].refCount
    && (SameStream(k, k', i) || k'.pipes[i].refCount == 0)
  }

  lemma WakeStreams(k: K, i: nat, d: Dir, n: nat)
    requires i < |k.pipes|
    ensures SameStreams(k, Wake(k, i, d, n)) && Wake(k, i, d, n).pipes[i].refCount == k.pipes[i].refCount
  {
  }

  lemma PutFdStreams(k: K, p: nat, f: nat, fd: Fd)
    requires p in k.procs && f < |k.procs[p].fds|
    ensures SameStreams(k, PutFd(k, p, f, fd))
  {
  }

  lemma CloseFdStreams(k: K, p: nat, f: nat, i: nat)
    requires KernelInv(k) && p in k.procs && f < |k.procs[p].fds| && k.procs[p].todo == User && i < PIPE_MAX
    ensures Closing(k, CloseFd(k, p, f), i)
  {
    hide KernelInv, Wake;
    Bounds(k);
    CloseFdInv(k, p, f);
    UnreferencedUnwaited(CloseFd(k, p, f), i);
    UnreferencedUnwaited(k, i);
    var fd := k.procs[p].fds[f];
    var k1 := PutFd(k, p, f, NoFd);
    if fd.PipeEnd? && fd.pipe < |k.pipes| {
      WakeStreams(k1, fd.pipe, fd.dir.Other(), |Waiters(k1.pipes[fd.pipe], fd.dir.Other())|);
      WakeOther(k1, fd.pipe, fd.dir.Other(), |Waiters(k1.pipes[fd.pipe], fd.dir.Other())|, i);
    }
  }

  lemma WakeOther(k: K, i: nat, d: Dir, n: nat, j: nat)
    requires i < |k.pipes| && j < |k.pipes|
    ensures var k' := Wake(k, i, d, n);
            |k'.pipes| == |k.pipes| && k'.pipes[j].refCount == k.pipes[j].refCount && SameStream(k, k', j)
  {
  }

  lemma {:induction false} AllClosedStreams(k: K, p: nat, n: nat, i: nat)
    requires KernelInv(k) && p in k.procs && n <= |k.procs[p].fds| && k.procs[p].todo == User && i < PIPE_MAX
    ensures Closing(k, AllClosed(k, p, n), i)
    decreases |k.procs[p].fds| - n
  {
    hide KernelInv, CloseFd;
    Bounds(k);
    UnreferencedUnwaited(k, i);
    if n < |k.procs[p].fds| {
      CloseFdInv(k, p, n);
      CloseFdSame(k, p, n);
      CloseFdStreams(k, p, n, i);
      var k1 := CloseFd(k, p, n);
      assert SameProcess(k.procs[p], k1.procs[p]);
      AllClosedStreams(k1, p, n + 1, i);
    }
  }

  lemma {:induction false} InheritStreams(k: K, c: nat, fds: seq<Fd>, n: nat)
    requires c in k.procs && n <= |fds|
    ensures SameStreams(k, Inherit(k, c, fds, n))
    decreases |fds| - n
  {
    if n < |fds| && n < |k.procs[c].fds| {
      var k1 := PutFd(k, c, n, Inherited(fds[n], n));
      PutFdStreams(k, c, n, Inherited(fds[n], n));
      InheritStreams(k1, c, fds, n + 1);
      StreamsTrans(k, k1, Inherit(k1, c, fds, n + 1));
    }
  }

  lemma StreamsTrans(a: K, b: K, c: K)
    requires SameStreams(a, b) && SameStreams(b, c)
    ensures SameStreams(a, c)
  {
    forall i: nat | i < |a.pipes| ensures SameStream(a, c, i) {
      assert SameStream(a, b, i) && SameStream(b, c, i);
    }
  }

  // ---------------------------------------------------------------- what a step transfers

  /** The pipe that the event reads from or writes to. */
  function Target(k: K, e: Event): (r: int)
    requires Able(k, e)
    ensures r >= -1
  {
    match e
    case Read(f, _) => var fd := Slot(k, k.sched.cpu.who, f); if fd.PipeEnd? then fd.pipe else -1
    case Write(f, _) => var fd := Slot(k, k.sched.cpu.who, f); if fd.PipeEnd? then fd.pipe else -1
    case Resume =>
      (match k.procs[k.sched.cpu.who].todo
       case InRead(i, _) => i
       case InWrite(i, _, _) => i
       case _ => -1)
    case _ => -1
  }

  /** The bytes the event returns from pipe `i`. */
  function ReadFrom(k: K, e: Event, i: nat): seq<byte>
    requires Able(k, e)
  {
    if Target(k, e) == i && Do(k, e).1.Bytes? then Do(k, e).1.b else []
  }

  /** What the event has to write, and how much the call wrote before. */
  function Pending(k: K, e: Event): (seq<byte>, nat)
    requires Able(k, e)
  {
    match e
    case Write(_, data) => (data, 0)
    case Resume =>
      (match k.procs[k.sched.cpu.who].todo
       case InWrite(_, rest, written) => (rest, written)
       case _ => ([], 0))
    case _ => ([], 0)
  }

  /** How many bytes of a pending write went out: by its result, or, if it sleeps, by what it still has. */
  function Progress(k: K, e: Event): int
    requires Able(k, e)
  {
    var (rest, written) := Pending(k, e);
    var (k', ret) := Do(k, e);
    match ret
    case Value(v) => if v >= written then v - written else 0
    case Asleep =>
      if k.sched.cpu.Runs? && k.sched.cpu.who in k'.procs && k'.procs[k.sched.cpu.who].todo.InWrite?
      then |rest| - |k'.procs[k.sched.cpu.who].todo.rest| else 0
    case _ => 0
  }

  /** The bytes the event writes to pipe `i`. */
  function WrittenTo(k: K, e: Event, i: nat): seq<byte>
    requires Able(k, e)
  {
    var n := Progress(k, e);
    if Target(k, e) == i && 0 <= n <= |Pending(k, e).0| then Pending(k, e).0[..n] else []
  }

  /** Pipe `i` has transferred what the event did. */
  predicate Transferred(k: K, e: Event, i: nat)
    requires Able(k, e)
  {
    var k' := Do(k, e).0;
    && i < |k.pipes| && i < |k'.pipes|
    && k'.pipes[i].delivered == k.pipes[i].delivered + ReadFrom(k, e, i)
    && k'.pipes[i].accepted == k.pipes[i].accepted + WrittenTo(k, e, i)
  }

  lemma ReadStreams(k: K, p: nat, i: nat, want: nat, j: nat)
    requires KernelInv(k) && Current(k, p) && i < PIPE_MAX && i < |k.pipes| && j < PIPE_MAX && want > 0
    ensures var (k', ret) := ReadSegment(k, p, i, want);
            && (ret.Bytes? || ret == Asleep) && |k'.pipes| == |k.pipes| && j < |k.pipes|
            && (j != i ==> SameStream(k, k', j))
            && k'.pipes[i].accepted == k.pipes[i].accepted
            && k'.pipes[i].delivered == k.pipes[i].delivered + (if ret.Bytes? then ret.b else [])
            && (ret == Asleep ==> p in k'.procs && k'.procs[p].todo == InRead(i, want))
  {
    hide KernelInv;
    Bounds(k);
  }

  lemma WriteStreams(k: K, p: nat, i: nat, rest: seq<byte>, written: nat, j: nat)
    requires KernelInv(k) && Current(k, p) && i < PIPE_MAX && i < |k.pipes| && j < PIPE_MAX && rest != []
    ensures var (k', ret) := WriteSegment(k, p, i, rest, written);
            && (ret.Value? || ret == Asleep) && |k'.pipes| == |k.pipes| && j < |k.pipes|
            && (j != i ==> SameStream(k, k', j))
            && k'.pipes[i].delivered == k.pipes[i].delivered
            && (ret.Value? && ret.v >= written ==>
                  0 <= ret.v - written <= |rest| &&
                  k'.pipes[i].accepted == k.pipes[i].accepted + rest[..ret.v - written])
            && (ret.Value? && ret.v < written ==> k'.pipes[i].accepted == k.pipes[i].accepted)
            && (ret == Asleep ==> p in k'.procs && k'.procs[p].todo.InWrite? && |k'.procs[p].todo.rest| <= |rest|
                                  && k'.pipes[i].accepted == k.pipes[i].accepted
                                       + rest[..|rest| - |k'.procs[p].todo.rest|])
  {
    hide KernelInv;
    Bounds(k);
  }

  lemma TransferRead(k: K, e: Event, j: nat)
    requires KernelInv(k) && Able(k, e) && j < PIPE_MAX && e.Read?
    ensures Transferred(k, e, j)
  {
    hide KernelInv, ReadSegment;
    var p := k.sched.cpu.who;
    Runner(k, p);
    var fd := Slot(k, p, e.f);
    if e.want > 0 && fd.PipeEnd? && fd.dir == ReadEnd { ReadStreams(k, p, fd.pipe, e.want, j); }
  }

  lemma TransferWrite(k: K, e: Event, j: nat)
    requires KernelInv(k) && Able(k, e) && j < PIPE_MAX && e.Write?
    ensures Transferred(k, e, j)
  {
    hide KernelInv, WriteSegment;
    var p := k.sched.cpu.who;
    Runner(k, p);
    var fd := Slot(k, p, e.f);
    if e.data != [] && fd.PipeEnd? && fd.dir == WriteEnd { WriteStreams(k, p, fd.pipe, e.data, 0, j); }
  }

  lemma TransferResume(k: K, e: Event, j: nat)
    requires KernelInv(k) && Able(k, e) && j < PIPE_MAX && e.Resume? && !k.procs[k.sched.cpu.who].todo.InWait?
    ensures Transferred(k, e, j)
  {
    hide KernelInv, ReadSegment, WriteSegment;
    var p := k.sched.cpu.who;
    Runner(k, p);
    match k.procs[p].todo
    case InRead(i, want) => ReadStreams(k, p, i, want, j);
    case InWrite(i, rest, written) => WriteStreams(k, p, i, rest, written, j);
  }

  // ---------------------------------------------------------------- every other step

  /** Some descriptor refers to pipe `i`. */
  predicate InUse(k: K, i: nat) {
    i < |k.pipes| && k.pipes[i].refCount > 0
  }

  lemma ReapStreams(k: K, c: nat, j: nat)
    requires KernelInv(k) && c in k.procs && k.procs[c].todo == User && j < PIPE_MAX
    requires InUse(Vacate(AllClosed(k, c, 0), c), j)
    ensures SameStream(k, Vacate(AllClosed(k, c, 0), c), j)
  {
    hide KernelInv, AllClosed;
    AllClosedStreams(k, c, 0, j);
  }

  /** dup2 cannot release the pipe it duplicates: the old slot still refers to it. */
  lemma Dup2Streams(k: K, p: nat, o: int, n: int, j: nat)
    requires KernelInv(k) && Current(k, p) && k.procs[p].todo == User && j < PIPE_MAX && InUse(SysDup2(k, p, o, n).0, j)
    ensures SameStream(k, SysDup2(k, p, o, n).0, j)
  {
    hide KernelInv, CloseFd;
    Runner(k, p);
    if 0 <= n < FD_MAX && Slot(k, p, o) != NoFd && o != n {
      var fd := Slot(k, p, o);
      var k1 := if Slot(k, p, n) == NoFd then k else CloseFd(k, p, n);
      if Slot(k, p, n) != NoFd {
        CloseFdInv(k, p, n);
        CloseFdStreams(k, p, n, j);
        if fd.PipeEnd? && fd.pipe == j { StillReferred(k1, p, o, j, fd.dir); }
      }
      PutFdStreams(k1, p, n, fd);
      assert SameStream(k1, PutFd(k1, p, n, fd), j);
    }
  }

  lemma StillReferred(k: K, p: nat, f: nat, i: nat, d: Dir)
    requires KernelInv(k) && p in k.procs && i < PIPE_MAX && f < |k.procs[p].fds| && k.procs[p].fds[f] == PipeEnd(i, d)
    ensures InUse(k, i)
  {
    assert PipeOk(k, i);
    assert (p, f) in Ends(k.procs, i, d);
  }

  lemma PipeStreams(k: K, p: nat, j: nat)
    requires p in k.procs && InUse(k, j)
    ensures SameStream(k, SysPipe(k, p).0, j)
  {
    hide PutFd;
    var i := FreePipe(k.pipes, 0);
    if i < |k.pipes| {
      var k1, fds := k.(pipes := k.pipes[i := FREE_PIPE]), k.procs[p].fds;
      var r := if FD_STDIO <= |fds| then FreeSlot(fds, FD_STDIO) else |fds|;
      if r < |fds| {
        PutFdStreams(k1, p, r, PipeEnd(i, ReadEnd));
        PutFdSlots(k1, p, r, PipeEnd(i, ReadEnd));
        var w := FreeSlot(fds, r + 1);
        if w < |fds| {
          var k2 := PutFd(k1, p, r, PipeEnd(i, ReadEnd));
          PutFdStreams(k2, p, w, PipeEnd(i, WriteEnd));
          assert SameStream(k1, k2, j) && SameStream(k2, PutFd(k2, p, w, PipeEnd(i, WriteEnd)), j);
        }
      }
    }
  }

  lemma PutFdSlots(k: K, p: nat, f: nat, fd: Fd)
    requires p in k.procs && f < |k.procs[p].fds|
    ensures p in PutFd(k, p, f, fd).procs && |PutFd(k, p, f, fd).procs[p].fds| == |k.procs[p].fds|
  {
  }

  lemma ExecStreams(k: K, parent: nat, fds: seq<Fd>, j: nat)
    requires j < |k.pipes|
    ensures k.nextPid in Spawn(k, parent).procs && SameStream(k, Inherit(Spawn(k, parent), k.nextPid, fds, 0), j)
  {
    InheritStreams(Spawn(k, parent), k.nextPid, fds, 0);
    hide Inherit;
    assert SameStream(Spawn(k, parent), Inherit(Spawn(k, parent), k.nextPid, fds, 0), j);
  }

  lemma WaitStreams(k: K, e: Event, j: nat)
    requires KernelInv(k) && Able(k, e) && j < PIPE_MAX && InUse(Do(k, e).0, j)
    requires e.Waitpid? || e.Exit? || (e.Resume? && k.procs[k.sched.cpu.who].todo.InWait?)
    ensures SameStream(k, Do(k, e).0, j)
  {
    hide KernelInv, AllClosed;
    var p := k.sched.cpu.who;
    Runner(k, p);
    match e
    case Waitpid(c) =>
      if c in k.procs && k.procs[c].parent == p && k.procs[c].state == Zombie {
        ZombieIdle(k, c);
        ReapStreams(k, c, j);
      }
    case Exit(code) => if k.procs[p].parent == PID_NONE { ReapStreams(k, p, j); }
    case Resume =>
      var c := k.procs[p].todo.child;
      WokenFindsZombie(k, p);
      ZombieIdle(k, c);
      AwakeInv(k, p);
      ReapStreams(Awake(k, p), c, j);
  }

  /** A step transfers through a pipe that stays in use exactly what its result says. */
  lemma StepStream(k: K, e: Event, j: nat)
    requires KernelInv(k) && Able(k, e) && j < PIPE_MAX && InUse(k, j) && InUse(Do(k, e).0, j)
    ensures Transferred(k, e, j)
  {
    if e.Read? {
      TransferRead(k, e, j);
    } else if e.Write? {
      TransferWrite(k, e, j);
    } else if e.Resume? && !k.procs[k.sched.cpu.who].todo.InWait? {
      TransferResume(k, e, j);
    } else {
      QuietStream(k, e, j);
    }
  }

  lemma StartStream(k: K, e: Event, j: nat)
    requires KernelInv(k) && Able(k, e) && j < PIPE_MAX && (e.Timer? || e.Start?) && j < |k.pipes|
    ensures SameStream(k, Do(k, e).0, j)
  {
    hide KernelInv, Inherit, Sched.Schedule, Spawn;
    if e.Start? {
      ExecStreams(k, PID_NONE, [Console, Console, Console], j);
    }
  }

  lemma QuietStream(k: K, e: Event, j: nat)
    requires KernelInv(k) && Able(k, e) && j < PIPE_MAX && InUse(k, j) && InUse(Do(k, e).0, j)
    requires !e.Read? && !e.Write? && (e.Resume? ==> k.procs[k.sched.cpu.who].todo.InWait?)
    ensures Transferred(k, e, j)
  {
    hide KernelInv, Do;
    assert Target(k, e) == -1;
    if e.Waitpid? || e.Exit? || e.Resume? {
      WaitStreams(k, e, j);
    } else if e.Timer? || e.Start? {
      StartStream(k, e, j);
    } else {
      CallStream(k, e, j);
    }
  }

  lemma CallStream(k: K, e: Event, j: nat)
    requires KernelInv(k) && Able(k, e) && j < PIPE_MAX && InUse(k, j) && InUse(Do(k, e).0, j)
    requires e.PipeCall? || e.Dup2? || e.Close? || e.Open? || e.Exec?
    ensures SameStream(k, Do(k, e).0, j)
  {
    hide KernelInv, CloseFd, PutFd, Inherit, SysDup2, SysPipe;
    var p := k.sched.cpu.who;
    Runner(k, p);
    match e
    case PipeCall => PipeStreams(k, p, j);
    case Dup2(o, n) => Dup2Streams(k, p, o, n, j);
    case Close(f) => if f >= FD_STDIO && Slot(k, p, f) != NoFd { CloseFdStreams(k, p, f, j); }
    case Open =>
      var f := FreeSlot(k.procs[p].fds, FD_STDIO);
      if f < FD_MAX {
        PutFdStreams(k, p, f, File);
        assert SameStream(k, PutFd(k, p, f, File), j);
      }
    case Exec(load) => ExecStreams(k, p, k.procs[p].fds, j);
  }

  // ---------------------------------------------------------------- whole runs

  /** Pipe `i` is in use all through the run. */
  predicate Held(k: K, run: seq<Event>, i: nat)
    requires Possible(k, run)
    decreases |run|
  {
    InUse(k, i) && (run == [] || Held(Do(k, run[0]).0, run[1..], i))
  }

  /** All bytes that reads of pipe `i` returned in the run. */
  function Returned(k: K, run: seq<Event>, i: nat): seq<byte>
    requires Possible(k, run)
    decreases |run|
  {
    if run == [] then [] else ReadFrom(k, run[0], i) + Returned(Do(k, run[0]).0, run[1..], i)
  }

  /** All bytes that writes to pipe `i` wrote in the run. */
  function Sent(k: K, run: seq<Event>, i: nat): seq<byte>
    requires Possible(k, run)
    decreases |run|
  {
    if run == [] then [] else WrittenTo(k, run[0], i) + Sent(Do(k, run[0]).0, run[1..], i)
  }

  lemma {:induction false} RunStream(k: K, run: seq<Event>, i: nat)
    requires KernelInv(k) && Possible(k, run) && i < PIPE_MAX && Held(k, run, i)
    ensures var k' := Final(k, run);
            && i < |k.pipes| && i < |k'.pipes|
            && k'.pipes[i].delivered == k.pipes[i].delivered + Returned(k, run, i)
            && k'.pipes[i].accepted == k.pipes[i].accepted + Sent(k, run, i)
    decreases |run|
  {
    hide KernelInv, Do, ReadFrom, WrittenTo, Early;
    if run != [] {
      var k1 := Do(k, run[0]).0;
      assert InUse(k1, i);
      StepStream(k, run[0], i);
      DoInv(k, run[0]);
      if Early(k, run[0]) {
        EarlySpins(k, run[0]);
        SpinsForever(k1, run[1..]);
        SpinsSilently(k1, run[1..], i);
      } else {
        RunStream(k1, run[1..], i);
      }
    }
  }

  /** No byte moves any more once a process waits with the processor in its hands. */
  lemma {:induction false} SpinsSilently(k: K, run: seq<Event>, i: nat)
    requires Spinning(k) && Possible(k, run)
    ensures Returned(k, run, i) == [] && Sent(k, run, i) == []
    decreases |run|
  {
    if run != [] {
      assert run[0] == Timer;
      assert ReadFrom(k, Timer, i) == [] && WrittenTo(k, Timer, i) == [];
      SpinsSilently(k, run[1..], i);
    }
  }

  /**
   The pipe is a stream: over every run in which it stays in use, whoever reads and writes,
   what was in the ring and what was written since is what was read, followed by what is in the ring now.
   */
  lemma PipeIsStream(k: K, run: seq<Event>, i: nat)
    requires KernelInv(k) && Possible(k, run) && i < PIPE_MAX && Held(k, run, i)
    ensures var k' := Final(k, run);
            && i < |k.pipes| && i < |k'.pipes| && |k'.pipes[i].contents| <= PIPE_BUF
            && k.pipes[i].contents + Sent(k, run, i) == Returned(k, run, i) + k'.pipes[i].contents
  {
    hide KernelInv, Possible, Final, Held, Sent, Returned;
    RunStream(k, run, i);
    Contents(k, i);
    RunPipes(k, run, i);
    Balance(k.pipes[i].delivered, k.pipes[i].contents, Sent(k, run, i), Returned(k, run, i),
            Final(k, run).pipes[i].contents);
  }

  lemma Balance(before: seq<byte>, was: seq<byte>, sent: seq<byte>, returned: seq<byte>, now: seq<byte>)
    requires (before + was) + sent == (before + returned) + now
    ensures was + sent == returned + now
  {
    assert was + sent == ((before + was) + sent)[|before|..];
    assert returned + now == ((before + returned) + now)[|before|..];
  }
}
