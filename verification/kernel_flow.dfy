/**
 When a pipe cannot get stuck: nobody sleeps at an end that could make progress, in every
 run with at most one process asleep at each end; and exactly how it fails with more.
 */
module KernelFlow {
  import opened Kernel
  import opened KernelOps
  import opened KernelCalls
  import opened KernelRuns
  import Sched

  /** Sleeping readers mean an empty pipe that can still fill; sleeping writers a full one that can still drain. */
  predicate Flowing(p: Pipe) {
    && (p.readers != [] ==> p.contents == [] && p.writeRefs > 0)
    && (p.writers != [] ==> |p.contents| == PIPE_BUF && p.readRefs > 0)
  }

  predicate Flows(k: K) {
    forall i :: 0 <= i < |k.pipes| ==> Flowing(k.pipes[i])
  }

  predicate Sparse(k: K) {
    forall i :: 0 <= i < |k.pipes| ==> |k.pipes[i].readers| <= 1 && |k.pipes[i].writers| <= 1
  }

  /** Appending data keeps the pipe flowing exactly when at most one reader was asleep. */
  lemma FilledFlows(k: K, p: nat, i: nat, data: seq<byte>)
    requires p in k.procs && i < |k.pipes| && Flowing(k.pipes[i]) && |k.pipes[i].contents| + |data| <= PIPE_BUF
    requires data != []
    ensures Flowing(Filled(k, p, i, data).pipes[i]) <==> |k.pipes[i].readers| <= 1
    ensures forall j :: 0 <= j < |k.pipes| && j != i ==> Filled(k, p, i, data).pipes[j] == k.pipes[j]
  {
    assert (k.pipes[i].contents + data)[|k.pipes[i].contents|] == data[0];
  }

  /** Taking data keeps the pipe flowing exactly when at most one writer was asleep. */
  lemma DrainedFlows(k: K, p: nat, i: nat, n: nat)
    requires p in k.procs && i < |k.pipes| && Flowing(k.pipes[i]) && 0 < n <= |k.pipes[i].contents|
    requires |k.pipes[i].contents| <= PIPE_BUF
    ensures Flowing(Drained(k, p, i, n).pipes[i]) <==> |k.pipes[i].writers| <= 1
    ensures forall j :: 0 <= j < |k.pipes| && j != i ==> Drained(k, p, i, n).pipes[j] == k.pipes[j]
  {
  }

  /** Two readers asleep, one byte written: one reader sleeps on beside the data. */
  lemma TwoReadersStick(k: K, p: nat, i: nat, data: seq<byte>)
    requires p in k.procs && i < |k.pipes| && |k.pipes[i].readers| == 2 && Flowing(k.pipes[i]) && 0 < |data| <= PIPE_BUF
    ensures var after := Filled(k, p, i, data).pipes[i];
            after.readers == [k.pipes[i].readers[1]] && after.contents == data
  {
  }

  lemma ReadSegmentFlows(k: K, p: nat, i: nat, want: nat)
    requires KernelInv(k) && Current(k, p) && i < PIPE_MAX && i < |k.pipes| && want > 0 && Flows(k) && Sparse(k)
    ensures Flows(ReadSegment(k, p, i, want).0)
  {
    Contents(k, i);
    hide KernelInv, Drained, Sched.Schedule;
    assert Flowing(k.pipes[i]);
    if |k.pipes[i].contents| > 0 {
      DrainedFlows(k, p, i, Min(|k.pipes[i].contents|, want));
      DrainedPipes(k, p, i, Min(|k.pipes[i].contents|, want));
    }
  }

  lemma OneFlows(k: K, k2: K, i: nat)
    requires Flows(k) && |k2.pipes| == |k.pipes| && i < |k.pipes| && Flowing(k2.pipes[i])
    requires forall j :: 0 <= j < |k.pipes| && j != i ==> k2.pipes[j] == k.pipes[j]
    ensures Flows(k2)
  {
    hide Flowing;
  }

  /** All data went in. */
  lemma WroteAll(k: K, p: nat, i: nat, data: seq<byte>)
    requires p in k.procs && i < |k.pipes| && Flows(k) && |k.pipes[i].readers| <= 1 && data != []
    requires |k.pipes[i].contents| + |data| <= PIPE_BUF
    ensures Flows(Filled(k, p, i, data))
  {
    FilledPipes(k, p, i, data);
    hide Filled;
    assert Flowing(k.pipes[i]);
    OneFlows(k, Filled(k, p, i, data), i);
  }

  /** The pipe is full and the writer asleep. */
  lemma WrotePart(k: K, p: nat, i: nat, data: seq<byte>, rest: seq<byte>, written: nat)
    requires p in k.procs && i < |k.pipes| && Flows(k) && |k.pipes[i].readers| <= 1 && k.pipes[i].readRefs > 0
    requires |k.pipes[i].contents| + |data| == PIPE_BUF
    ensures Flows(Parted(Sleep(Filled(k, p, i, data), p, InWrite(i, rest, written)), p))
  {
    FilledPipes(k, p, i, data);
    SleepingWriter(Filled(k, p, i, data), p, i, rest, written);
    hide Filled, Sleep, Parted;
    assert Flowing(k.pipes[i]);
    OneFlows(k, Parted(Sleep(Filled(k, p, i, data), p, InWrite(i, rest, written)), p), i);
  }

  lemma AwakeFlows(k: K, p: nat)
    requires p in k.procs && Flows(k)
    ensures Flows(Awake(k, p))
  {
  }

  lemma WroteFlows(k: K, p: nat, i: nat, rest: seq<byte>, written: nat)
    requires p in k.procs && i < |k.pipes| && rest != [] && Flows(k) && |k.pipes[i].readers| <= 1
    requires |k.pipes[i].contents| <= PIPE_BUF
    ensures Flows(WriteSegment(k, p, i, rest, written).0)
  {
    hide Filled, Sleep, Parted, Flows, Awake;
    var pp := k.pipes[i];
    var n := Min(PIPE_BUF - |pp.contents|, |rest|);
    if pp.readRefs <= 0 {
      AwakeFlows(k, p);
    } else if n == |rest| {
      assert rest[..n] == rest;
      WroteAll(k, p, i, rest);
    } else {
      WrotePart(k, p, i, rest[..n], rest[n..], written + n);
    }
  }

  lemma WriteSegmentFlows(k: K, p: nat, i: nat, rest: seq<byte>, written: nat)
    requires KernelInv(k) && Current(k, p) && i < PIPE_MAX && i < |k.pipes| && rest != [] && Flows(k) && Sparse(k)
    ensures Flows(WriteSegment(k, p, i, rest, written).0)
  {
    hide KernelInv, WriteSegment, Flows;
    Contents(k, i);
    WroteFlows(k, p, i, rest, written);
  }

  /** Closing an end wakes whoever could wait for it forever. */
  lemma CloseFdFlows(k: K, p: nat, f: nat)
    requires KernelInv(k) && p in k.procs && f < |k.procs[p].fds| && k.procs[p].todo == User && Flows(k)
    ensures Flows(CloseFd(k, p, f))
  {
    hide KernelInv, PutFd, Alarm, Settle;
    Bounds(k);
    PutFdInv(k, p, f, NoFd);
    var fd := k.procs[p].fds[f];
    var k1 := PutFd(k, p, f, NoFd);
    EmptiedPipes(k, p, f);
    if fd.PipeEnd? && fd.pipe < |k.pipes| {
      AlarmInv(k1, fd.pipe, fd.dir);
      AlarmFlows(k1, fd.pipe, fd.dir, k.pipes[fd.pipe]);
      SettleFlows(Alarm(k1, fd.pipe, fd.dir), fd.pipe);
    }
  }

  /** Emptying a slot counts down its pipe and no other. */
  lemma EmptiedPipes(k: K, p: nat, f: nat)
    requires p in k.procs && f < |k.procs[p].fds|
    ensures var fd, k1 := k.procs[p].fds[f], PutFd(k, p, f, NoFd);
            && |k1.pipes| == |k.pipes|
            && (fd.PipeEnd? && fd.pipe < |k.pipes| ==> k1.pipes[fd.pipe] == Counted(k.pipes[fd.pipe], fd.dir, -1))
            && forall j :: 0 <= j < |k.pipes| && !(fd.PipeEnd? && fd.pipe == j) ==> k1.pipes[j] == k.pipes[j]
  {
  }

  lemma AlarmInv(k: K, i: nat, d: Dir)
    requires KernelInv(k) && i < |k.pipes|
    ensures KernelInv(Alarm(k, i, d))
  {
    hide KernelInv, Wake;
    Bounds(k);
    WakeInv(k, i, d.Other(), |Waiters(k.pipes[i], d.Other())|);
  }

  /** A pool slot given back has nobody asleep on it. */
  lemma SettleFlows(k: K, i: nat)
    requires KernelInv(k) && i < |k.pipes| && Flows(k)
    ensures Flows(Settle(k, i))
  {
    hide KernelInv;
    Bounds(k);
    if k.pipes[i].refCount <= 0 { ReleaseInv(k, i); }
  }

  lemma AlarmFlows(k: K, i: nat, d: Dir, before: Pipe)
    requires i < |k.pipes| && Flowing(before) && k.pipes[i] == Counted(before, d, -1)
    ensures var k' := Alarm(k, i, d);
            && |k'.pipes| == |k.pipes| && Flowing(k'.pipes[i])
            && forall j :: 0 <= j < |k.pipes| && j != i ==> k'.pipes[j] == k.pipes[j]
  {
  }

  lemma {:induction false} AllClosedFlows(k: K, p: nat, n: nat)
    requires KernelInv(k) && p in k.procs && n <= |k.procs[p].fds| && k.procs[p].todo == User && Flows(k)
    ensures Flows(AllClosed(k, p, n))
    decreases |k.procs[p].fds| - n
  {
    hide KernelInv, CloseFd, Flows;
    if n < |k.procs[p].fds| {
      CloseFdInv(k, p, n);
      CloseFdSame(k, p, n);
      CloseFdFlows(k, p, n);
      assert SameProcess(k.procs[p], CloseFd(k, p, n).procs[p]);
      AllClosedFlows(CloseFd(k, p, n), p, n + 1);
    }
  }

  lemma PutFdFlows(k: K, p: nat, f: nat, fd: Fd)
    requires p in k.procs && f < |k.procs[p].fds| && k.procs[p].fds[f] == NoFd && Flows(k)
    ensures Flows(PutFd(k, p, f, fd))
  {
  }

  lemma {:induction false} InheritFlows(k: K, c: nat, fds: seq<Fd>, n: nat)
    requires c in k.procs && n <= |fds| && Flows(k)
    requires forall f :: n <= f < |k.procs[c].fds| ==> k.procs[c].fds[f] == NoFd
    ensures Flows(Inherit(k, c, fds, n))
    decreases |fds| - n
  {
    hide Flows;
    if n < |fds| && n < |k.procs[c].fds| {
      PutFdFlows(k, c, n, Inherited(fds[n], n));
      InheritFlows(PutFd(k, c, n, Inherited(fds[n], n)), c, fds, n + 1);
    }
  }

  lemma ReapFlows(k: K, c: nat)
    requires KernelInv(k) && c in k.procs && k.procs[c].todo == User && Flows(k)
    ensures Flows(Vacate(AllClosed(k, c, 0), c))
  {
    hide KernelInv, AllClosed;
    AllClosedFlows(k, c, 0);
  }

  lemma ExecFlows(k: K, parent: nat, fds: seq<Fd>)
    requires Flows(k)
    ensures k.nextPid in Spawn(k, parent).procs
    ensures Flows(Inherit(Spawn(k, parent), k.nextPid, fds, 0))
  {
    hide Inherit, Flowing;
    InheritFlows(Spawn(k, parent), k.nextPid, fds, 0);
  }

  lemma StartFlows(k: K, e: Event)
    requires KernelInv(k) && Able(k, e) && Flows(k) && (e.Timer? || e.Start? || e.Exec?)
    ensures Flows(Do(k, e).0)
  {
    hide KernelInv, Inherit, Sched.Schedule, Flowing, Spawn;
    match e
    case Timer =>
    case Start(load) => if HasSlot(k) && load.Loaded? { ExecFlows(k, PID_NONE, [Console, Console, Console]); }
    case Exec(load) =>
      if HasSlot(k) && load.Loaded? { ExecFlows(k, k.sched.cpu.who, k.procs[k.sched.cpu.who].fds); }
  }

  lemma WaitpidFlows(k: K, c: nat)
    requires KernelInv(k) && Able(k, Waitpid(c)) && Flows(k)
    ensures Flows(Do(k, Waitpid(c)).0)
  {
    hide KernelInv, AllClosed, Sched.Schedule, Flowing, Vacate;
    if c in k.procs && k.procs[c].state == Zombie {
      ZombieIdle(k, c);
      ReapFlows(k, c);
    }
  }

  lemma ExitFlows(k: K, code: int)
    requires KernelInv(k) && Able(k, Exit(code)) && Flows(k)
    ensures Flows(Do(k, Exit(code)).0)
  {
    hide KernelInv, AllClosed, Sched.Schedule, Flowing;
    ReapFlows(k, k.sched.cpu.who);
  }

  lemma ProcessCallFlows(k: K, e: Event)
    requires KernelInv(k) && Able(k, e) && Flows(k) && (e.Timer? || e.Start? || e.Exec? || e.Waitpid? || e.Exit?)
    ensures Flows(Do(k, e).0)
  {
    hide KernelInv, Do, Flows;
    if e.Waitpid? {
      WaitpidFlows(k, e.c);
    } else if e.Exit? {
      ExitFlows(k, e.code);
    } else {
      StartFlows(k, e);
    }
  }

  lemma ResumeFlows(k: K, e: Event)
    requires KernelInv(k) && Able(k, e) && Flows(k) && Sparse(k) && e.Resume?
    ensures Flows(Do(k, e).0)
  {
    hide KernelInv, ReadSegment, WriteSegment, Holds, AllClosed;
    var p := k.sched.cpu.who;
    Runner(k, p);
    match k.procs[p].todo
    case InRead(i, want) => ReadSegmentFlows(k, p, i, want);
    case InWrite(i, rest, written) => WriteSegmentFlows(k, p, i, rest, written);
    case InWait(c) =>
      WokenFindsZombie(k, p);
      AwakeInv(k, p);
      ZombieIdle(k, c);
      ReapFlows(Awake(k, p), c);
  }

  lemma DescriptorCallFlows(k: K, e: Event)
    requires KernelInv(k) && Able(k, e) && Flows(k) && Sparse(k)
    requires e.PipeCall? || e.Dup2? || e.Close? || e.Open? || e.Read? || e.Write?
    ensures Flows(Do(k, e).0)
  {
    hide KernelInv, ReadSegment, WriteSegment, CloseFd, PutFd, Flows, Sparse;
    var p := k.sched.cpu.who;
    Runner(k, p);
    match e
    case PipeCall => PipeFlows(k, p);
    case Dup2(o, n) =>
      if 0 <= n < FD_MAX && Slot(k, p, o) != NoFd && o != n {
        if Slot(k, p, n) == NoFd {
          PutFdFlows(k, p, n, Slot(k, p, o));
        } else {
          CloseFdFlows(k, p, n);
          PutFdFlows(CloseFd(k, p, n), p, n, Slot(k, p, o));
        }
      }
    case Close(f) => if f >= FD_STDIO && Slot(k, p, f) != NoFd { CloseFdFlows(k, p, f); }
    case Open =>
      var f := FreeSlot(k.procs[p].fds, FD_STDIO);
      if f < FD_MAX { PutFdFlows(k, p, f, File); }
    case Read(f, want) =>
      var fd := Slot(k, p, f);
      if want > 0 && fd.PipeEnd? && fd.dir == ReadEnd { ReadSegmentFlows(k, p, fd.pipe, want); }
    case Write(f, data) =>
      var fd := Slot(k, p, f);
      if data != [] && fd.PipeEnd? && fd.dir == WriteEnd { WriteSegmentFlows(k, p, fd.pipe, data, 0); }
  }

  lemma PipeFlows(k: K, p: nat)
    requires p in k.procs && Flows(k)
    ensures Flows(SysPipe(k, p).0)
  {
    hide Recount;
    var fds, i := k.procs[p].fds, FreePipe(k.pipes, 0);
    if i < |k.pipes| && FD_STDIO <= |fds| {
      var k1 := k.(pipes := k.pipes[i := FREE_PIPE]);
      assert Flows(k1);
      var r := FreeSlot(fds, FD_STDIO);
      if r < |fds| {
        var w := FreeSlot(fds, r + 1);
        if w < |fds| {
          PutFdFlows(k1, p, r, PipeEnd(i, ReadEnd));
          PutFdFlows(PutFd(k1, p, r, PipeEnd(i, ReadEnd)), p, w, PipeEnd(i, WriteEnd));
        }
      }
    }
  }

  lemma DoFlows(k: K, e: Event)
    requires KernelInv(k) && Able(k, e) && Flows(k) && Sparse(k)
    ensures Flows(Do(k, e).0)
  {
    hide KernelInv, Flows, Sparse, Do;
    if e.Resume? {
      ResumeFlows(k, e);
    } else if e.Timer? || e.Start? || e.Exec? || e.Waitpid? || e.Exit? {
      ProcessCallFlows(k, e);
    } else {
      DescriptorCallFlows(k, e);
    }
  }

  /** At most one process is asleep at each end, all along the run. */
  predicate SparseRun(k: K, run: seq<Event>)
    requires Possible(k, run)
    decreases |run|
  {
    Sparse(k) && (run == [] || SparseRun(Do(k, run[0]).0, run[1..]))
  }

  /** Then no pipe is ever stuck. */
  lemma {:induction false} RunFlows(k: K, run: seq<Event>)
    requires KernelInv(k) && Possible(k, run) && Flows(k) && SparseRun(k, run)
    ensures Flows(Final(k, run))
    decreases |run|
  {
    hide KernelInv, Flows, Sparse, Do, Early;
    if run != [] {
      DoInv(k, run[0]);
      DoFlows(k, run[0]);
      if Early(k, run[0]) {
        EarlySpins(k, run[0]);
        SpinsForever(Do(k, run[0]).0, run[1..]);
      } else {
        RunFlows(Do(k, run[0]).0, run[1..]);
      }
    }
  }

  /**
   From boot, with one sleeper per end: every sleeping reader faces an empty pipe with an open
   write end, every sleeping writer a full one with an open read end.
   */
  lemma NeverStuck(k: K, run: seq<Event>, i: nat)
    requires Boot(k) && Possible(k, run) && SparseRun(k, run) && i < PIPE_MAX
    ensures var k' := Final(k, run);
            && i < |k'.pipes|
            && (k'.pipes[i].readers != [] ==> k'.pipes[i].contents == [] && Ends(k'.procs, i, WriteEnd) != {})
            && (k'.pipes[i].writers != [] ==> |k'.pipes[i].contents| == PIPE_BUF && Ends(k'.procs, i, ReadEnd) != {})
  {
    hide KernelInv, Ends;
    BootInv(k);
    RunPipes(k, run, i);
    RunFlows(k, run);
  }
}
