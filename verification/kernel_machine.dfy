/**
 The kernel state as an object that the calls update in place, with the loops of the
 source: each method changes the state as the corresponding segment says
 (src/kernel/sync/wait_queue.c, src/kernel/syscall/fd_table.c, sys_io.c, sys_proc.c,
 src/kernel/usermode/exec.c, src/kernel/process/process.c).
 */
module KernelMachine {
  import opened Kernel
  import opened KernelOps
  import opened KernelCalls
  import opened KernelRuns
  import opened Ring
  import Sched

  /** Waking one more continues where waking `n` stopped. */
  lemma WakeNext(k: K, i: nat, d: Dir, n: nat)
    requires i < |k.pipes| && n < |Waiters(k.pipes[i], d)|
    ensures Wake(Wake(k, i, d, n), i, d, 1) == Wake(k, i, d, n + 1)
  {
    var a, b := Wake(Wake(k, i, d, n), i, d, 1), Wake(k, i, d, n + 1);
    WakeNextRest(k, i, d, n);
    WakeKeys(k, i, d, n);
    WakeKeys(k, i, d, n + 1);
    WakeKeys(Wake(k, i, d, n), i, d, 1);
    forall p | p in k.procs ensures a.procs[p] == b.procs[p] {
      WakeNextProc(k, i, d, n, p);
    }
    hide Wake;
    assert a.procs == b.procs;
  }

  lemma WakeNextRest(k: K, i: nat, d: Dir, n: nat)
    requires i < |k.pipes| && n < |Waiters(k.pipes[i], d)|
    ensures var a, b := Wake(Wake(k, i, d, n), i, d, 1), Wake(k, i, d, n + 1);
            && a.pipes == b.pipes && a.sched == b.sched && a.nextPid == b.nextPid && a.exited == b.exited
            && a.log == b.log && a.stranded == b.stranded
  {
    var w := Waiters(k.pipes[i], d);
    var a, b := Wake(Wake(k, i, d, n), i, d, 1), Wake(k, i, d, n + 1);
    assert w[..n + 1] == w[..n] + [w[n]];
    assert w[n..][..1] == [w[n]];
    assert w[n..][1..] == w[n + 1..];
    assert a.sched.queue == b.sched.queue;
    assert a.pipes == b.pipes;
  }

  lemma WakeKeys(k: K, i: nat, d: Dir, n: nat)
    requires i < |k.pipes|
    ensures Wake(k, i, d, n).procs.Keys == k.procs.Keys && |Wake(k, i, d, n).pipes| == |k.pipes|
  {
  }

  lemma WakeNextProc(k: K, i: nat, d: Dir, n: nat, p: nat)
    requires i < |k.pipes| && n < |Waiters(k.pipes[i], d)| && p in k.procs
    ensures p in Wake(k, i, d, n).procs && Wake(Wake(k, i, d, n), i, d, 1).procs[p] == Wake(k, i, d, n + 1).procs[p]
  {
    var w := Waiters(k.pipes[i], d);
    var k1 := Wake(k, i, d, n);
    assert Woken(k1.pipes[i], d, 1) == [w[n]];
    assert w[..n + 1] == w[..n] + [w[n]];
  }

  lemma WakeNone(k: K, i: nat, d: Dir)
    requires i < |k.pipes|
    ensures Wake(k, i, d, 0) == k
  {
    var w := Waiters(k.pipes[i], d);
    assert w[..0] == [] && w[0..] == w;
    assert k.sched.queue + [] == k.sched.queue;
    assert (map p | p in k.procs :: if p in w[..0] then k.procs[p].(state := ReadyToRun) else k.procs[p]) == k.procs;
    assert k.pipes[i := WithWaiters(k.pipes[i], d, w)] == k.pipes;
  }

  /** The ring holds these bytes. */
  ghost predicate Mirrors(r: PipeRing, s: seq<byte>)
    reads r, r.data
  {
    r.Valid() && r.Contents() == s
  }

  class Machine {
    var procs: map<nat, Proc>
    var stranded: set<nat>
    var pipes: seq<Pipe>
    var sched: Sched.State<nat>
    var nextPid: nat
    ghost var exited: map<nat, Delivery>
    ghost var log: seq<Delivery>
    /** The buffers of the pipe pool; `contents` of a pipe is what its ring holds. */
    const rings: seq<PipeRing>

    ghost function View(): K
      reads this
    {
      K(procs, stranded, pipes, sched, nextPid, exited, log)
    }

    ghost function Cells(): set<object>
      reads rings
    {
      set r | r in rings :: r.data
    }

    /** The rings are different objects with different buffers. */
    ghost predicate Apart()
      reads rings
    {
      forall i, j :: 0 <= i < j < |rings| ==> rings[i] != rings[j] && rings[i].data != rings[j].data
    }

    ghost predicate Rings()
      reads this`pipes, rings, Cells()
    {
      |rings| == |pipes| && Apart() && forall i :: 0 <= i < |rings| ==> Mirrors(rings[i], pipes[i].contents)
    }

    /** The kernel before the first program, with a pool of empty rings. */
    constructor ()
      ensures Boot(View()) && Rings() && fresh(rings) && fresh(Cells())
    {
      procs, stranded, nextPid, exited, log := map[], {}, 1, map[], [];
      sched := Sched.State([], Sched.Nobody, Sched.TIME_SLICE, false);
      pipes := seq(PIPE_MAX, _ => FREE_PIPE);
      var rs: seq<PipeRing> := [];
      while |rs| < PIPE_MAX
        invariant |rs| <= PIPE_MAX && fresh(rs)
        invariant (forall i :: 0 <= i < |rs| ==> fresh(rs[i].data) && Mirrors(rs[i], []))
        invariant forall i, j :: 0 <= i < j < |rs| ==> rs[i] != rs[j] && rs[i].data != rs[j].data
      {
        var r := new PipeRing();
        rs := rs + [r];
      }
      rings := rs;
    }

    /** scheduler_ready. */
    method SchedulerReady(p: nat)
      requires p in procs
      modifies this`procs, this`sched
      ensures procs == old(procs)[p := old(procs)[p].(state := ReadyToRun)]
      ensures sched == old(sched).(queue := old(sched).queue + [p], active := true)
    {
      procs := procs[p := procs[p].(state := ReadyToRun)];
      sched := sched.(queue := sched.queue + [p], active := true);
    }

    /** wait_queue_wake_one. */
    method WakeOne(i: nat, d: Dir)
      requires i < |pipes| && (forall p :: p in Waiters(pipes[i], d) ==> p in procs) && Rings()
      modifies this`procs, this`sched, this`pipes
      ensures View() == Wake(old(View()), i, d, 1) && Rings()
    {
      var w := Waiters(pipes[i], d);
      if w != [] {
        var p := w[0];
        assert w[..1] == [p];
        pipes := pipes[i := WithWaiters(pipes[i], d, w[1..])];
        SchedulerReady(p);
        assert procs == Wake(old(View()), i, d, 1).procs;
      } else {
        WakeNone(View(), i, d);
        assert Woken(pipes[i], d, 1) == Woken(pipes[i], d, 0);
      }
    }

    /** wait_queue_wake_all. */
    method WakeAll(i: nat, d: Dir)
      requires i < |pipes| && (forall p :: p in Waiters(pipes[i], d) ==> p in procs) && Rings()
      modifies this`procs, this`sched, this`pipes
      ensures View() == Wake(old(View()), i, d, |old(Waiters(pipes[i], d))|) && Rings()
    {
      ghost var before := View();
      ghost var n := 0;
      WakeNone(before, i, d);
      while Waiters(pipes[i], d) != []
        invariant i < |pipes| == |before.pipes| && n <= |Waiters(before.pipes[i], d)|
        invariant View() == Wake(before, i, d, n) && Rings()
        decreases |Waiters(pipes[i], d)|
      {
        WokenLeft(before, i, d, n);
        WakeNext(before, i, d, n);
        WakeOne(i, d);
        n := n + 1;
        WokenLeft(before, i, d, n);
      }
      WokenLeft(before, i, d, n);
    }

    /** The loop body shared by fd_free and process_destroy: give up slot `f` of `p`. */
    method CloseSlot(p: nat, f: nat)
      requires KernelInv(View()) && p in procs && f < |procs[p].fds| && procs[p].todo == User && Rings()
      modifies this`procs, this`sched, this`pipes, rings
      ensures View() == CloseFd(old(View()), p, f) && KernelInv(View()) && Rings()
    {
      hide KernelInv;
      ghost var before := View();
      CloseFdInv(before, p, f);
      PutFdInv(before, p, f, NoFd);
      var fd := procs[p].fds[f];
      procs := procs[p := procs[p].(fds := procs[p].fds[f := NoFd])];
      if fd.PipeEnd? && fd.pipe < |pipes| {
        var i := fd.pipe;
        pipes := pipes[i := Counted(pipes[i], fd.dir, -1)];
        WakesAreLive(PutFd(before, p, f, NoFd), i, fd.dir.Other());
        if Refs(pipes[i], fd.dir) <= 0 {
          WakeAll(i, fd.dir.Other());
        }
        if pipes[i].refCount <= 0 {
          PipeRelease(i);
        }
      }
    }

    /** pipe_release. */
    method PipeRelease(i: nat)
      requires i < |pipes| && Rings()
      modifies this`pipes, rings
      ensures View() == Release(old(View()), i) && Rings()
    {
      rings[i].Reset();
      pipes := pipes[i := pipes[i].(refCount := 0, readRefs := 0, writeRefs := 0, contents := [], accepted := [],
                                    delivered := [])];
    }

    /** fd_free. */
    method FdFree(p: nat, f: int) returns (r: int)
      requires KernelInv(View()) && p in procs && procs[p].todo == User && |procs[p].fds| == FD_MAX && Rings()
      modifies this`procs, this`sched, this`pipes, rings
      ensures KernelInv(View()) && Rings()
      ensures old(Slot(View(), p, f)) == NoFd ==> r == -1 && View() == old(View())
      ensures old(Slot(View(), p, f)) != NoFd ==> r == 0 && View() == CloseFd(old(View()), p, f)
    {
      hide KernelInv;
      if f < 0 || f >= FD_MAX || procs[p].fds[f] == NoFd {
        return -1;
      }
      CloseSlot(p, f);
      return 0;
    }

    /** process_destroy: close every slot, then free the table entry. */
    method ProcessDestroy(c: nat)
      requires KernelInv(View()) && c in procs && procs[c].todo == User && |procs[c].fds| == FD_MAX && Rings()
      modifies this, rings
      ensures View() == Vacate(AllClosed(old(View()), c, 0), c) && Rings()
    {
      ghost var before := View();
      hide KernelInv, CloseFd, SameProcesses;
      for f := 0 to FD_MAX
        invariant KernelInv(View()) && c in procs && procs[c].todo == User && |procs[c].fds| == FD_MAX && Rings()
        invariant AllClosed(View(), c, f) == AllClosed(before, c, 0)
      {
        CloseFdSame(View(), c, f);
        SameOne(View(), CloseFd(View(), c, f), c);
        CloseSlot(c, f);
      }
      if procs[c].state == Zombie && c in exited {
        log := log + [exited[c]];
      }
      if sched.cpu.Runs? && sched.cpu.who == c {
        sched := sched.(cpu := Sched.Nobody);
      }
      procs := procs - {c};
    }

    /** pipe_alloc: the first slot of the pool that nobody refers to. */
    method PipeAlloc() returns (i: nat)
      requires Rings()
      modifies this`pipes, rings
      ensures i == FreePipe(old(pipes), 0) && Rings()
      ensures pipes ==
              if i < |old(pipes)|
              then old(pipes)[i := FREE_PIPE.(readRefs := 1, writeRefs := 1, refCount := 2)]
              else old(pipes)
    {
      i := 0;
      while i < |pipes| && pipes[i].refCount != 0
        invariant i <= |pipes| && FreePipe(pipes, 0) == FreePipe(pipes, i)
      {
        i := i + 1;
      }
      if i < |pipes| {
        rings[i].Reset();
        pipes := pipes[i := FREE_PIPE.(readRefs := 1, writeRefs := 1, refCount := 2)];
      }
    }

    /** The first two empty slots from the third on. */
    static method TwoSlots(fds: seq<Fd>) returns (r: int, w: int)
      requires |fds| == FD_MAX
      ensures if FreeSlot(fds, FD_STDIO) < |fds| then r == FreeSlot(fds, FD_STDIO) else r == w == -1
      ensures FreeSlot(fds, FD_STDIO) < |fds| ==>
                if FreeSlot(fds, r + 1) < |fds| then w == FreeSlot(fds, r + 1) else w == -1
    {
      r, w := -1, -1;
      var f := FD_STDIO;
      while f < FD_MAX && (r < 0 || w < 0)
        invariant FD_STDIO <= f <= FD_MAX
        invariant r < 0 ==> r == w == -1 && FreeSlot(fds, FD_STDIO) == FreeSlot(fds, f)
        invariant r >= 0 ==> FD_STDIO <= r < f && r == FreeSlot(fds, FD_STDIO)
        invariant r >= 0 && w < 0 ==> w == -1 && FreeSlot(fds, r + 1) == FreeSlot(fds, f)
        invariant w >= 0 ==> r >= 0 && w < FD_MAX && w == FreeSlot(fds, r + 1)
      {
        if fds[f] == NoFd {
          if r < 0 { r := f; } else { w := f; }
        }
        f := f + 1;
      }
    }

    /** sys_pipe. */
    method PipeSystemCall(p: nat) returns (ret: Ret)
      requires KernelInv(View()) && p in procs && |procs[p].fds| == FD_MAX && Rings()
      modifies this`pipes, this`procs, rings
      ensures (View(), ret) == SysPipe(old(View()), p) && Rings()
    {
      hide KernelInv, Rings, FreePipe;
      ghost var before := View();
      var i := PipeAlloc();
      if i == |pipes| {
        return Value(ENOBUFS);
      }
      ret := PlaceEnds(p, i, before);
    }

    /** The second half of sys_pipe: two slots for the ends of the new pipe, or it is given back. */
    method PlaceEnds(p: nat, i: nat, ghost before: K) returns (ret: Ret)
      requires p in procs && |procs[p].fds| == FD_MAX && i < |pipes| && i < |before.pipes| && Rings()
      requires View() == before.(pipes := before.pipes[i := FREE_PIPE.(readRefs := 1, writeRefs := 1, refCount := 2)])
      modifies this`pipes, this`procs, rings
      ensures (View(), ret) == WithEnds(before.(pipes := before.pipes[i := FREE_PIPE]), p, i) && Rings()
    {
      hide PutFd, FreeSlot;
      var r, w := TwoSlots(procs[p].fds);
      if r < 0 || w < 0 {
        PipeRelease(i);
        assert pipes == before.pipes[i := FREE_PIPE];
        return Value(EMFILE);
      }
      InstallEnds(p, i, r, w, before);
      return Value(0);
    }

    /** The two descriptors of a new pipe. */
    method InstallEnds(p: nat, i: nat, r: nat, w: nat, ghost before: K)
      requires p in procs && r < |procs[p].fds| && w < |procs[p].fds| && r != w && i < |pipes| && p in before.procs
      requires procs[p].fds[r] == procs[p].fds[w] == NoFd && i < |before.pipes| && Rings()
      requires View() == before.(pipes := before.pipes[i := FREE_PIPE.(readRefs := 1, writeRefs := 1, refCount := 2)])
      modifies this`procs
      ensures View() == PutFd(PutFd(before.(pipes := before.pipes[i := FREE_PIPE]), p, r, PipeEnd(i, ReadEnd)),
                              p, w, PipeEnd(i, WriteEnd)) && Rings()
    {
      hide Recount;
      procs := procs[p := procs[p].(fds := procs[p].fds[r := PipeEnd(i, ReadEnd)])];
      procs := procs[p := procs[p].(fds := procs[p].fds[w := PipeEnd(i, WriteEnd)])];
      FreshRefs(before.pipes, i);
    }

    /** sys_dup2. */
    method Dup2SystemCall(p: nat, o: int, n: int) returns (ret: Ret)
      requires KernelInv(View()) && p in procs && procs[p].todo == User && |procs[p].fds| == FD_MAX && Rings()
      modifies this`procs, this`sched, this`pipes, rings
      ensures (View(), ret) == SysDup2(old(View()), p, o, n) && Rings()
    {
      ghost var before := View();
      hide KernelInv, Recount, CloseFd;
      if o < 0 || o >= FD_MAX || n < 0 || n >= FD_MAX || procs[p].fds[o] == NoFd {
        return Value(EBADF);
      }
      if o == n {
        return Value(n);
      }
      if procs[p].fds[n] != NoFd {
        var _ := FdFree(p, n);
      }
      var fd := procs[p].fds[o];
      procs := procs[p := procs[p].(fds := procs[p].fds[n := fd])];
      NoRecount(pipes);
      RecountContents(pipes, fd, 1);
      pipes := Recount(pipes, fd, 1);
      return Value(n);
    }

    /** exec_program: a child with the parent's descriptors, put in the ready queue. */
    method ExecProgram(p: nat, load: Load) returns (ret: Ret)
      requires KernelInv(View()) && Current(View(), p) && |procs[p].fds| == FD_MAX && Rings()
      modifies this
      ensures (View(), ret) == SysExec(old(View()), p, load) && Rings()
    {
      hide KernelInv, Inherit;
      ghost var before := View();
      Runner(before, p);
      var fds := procs[p].fds;
      var ok, c := Reserve(load);
      if !ok {
        return Value(ENOENT);
      }
      procs := procs[c := Proc(p, ReadyToRun, PID_NONE, 0, seq(FD_MAX, f => NoFd), User)];
      sched := sched.(queue := sched.queue + [c], active := true);
      assert View() == Spawn(before, p);
      InheritFds(c, fds);
      return Value(c);
    }

    /** process_create and the loader: a slot and a pid, or what a failure leaves of them. */
    method Reserve(load: Load) returns (ok: bool, c: nat)
      requires Rings()
      modifies this`nextPid, this`stranded
      ensures (ok <==> HasSlot(old(View())) && load.Loaded?) && Rings()
      ensures View() == if ok then old(View()).(nextPid := old(nextPid) + 1) else Refused(old(View()), load)
      ensures ok ==> c == old(nextPid)
    {
      c := nextPid;
      if |procs| + |stranded| >= PROCESS_MAX {
        return false, c;
      }
      nextPid := nextPid + 1;
      if load.NoMemory? {
        stranded := stranded + {c};
        return false, c;
      }
      return load.Loaded?, c;
    }

    /** The descriptor loop of exec_program. */
    method InheritFds(c: nat, fds: seq<Fd>)
      requires c in procs && |procs[c].fds| == FD_MAX && |fds| <= FD_MAX && Rings()
      requires forall g :: 0 <= g < FD_MAX ==> procs[c].fds[g] == NoFd
      modifies this`procs, this`pipes
      ensures View() == Inherit(old(View()), c, fds, 0) && Rings()
    {
      ghost var before := View();
      hide Recount, Inherit;
      for f := 0 to |fds|
        invariant c in procs && |procs[c].fds| == FD_MAX && Rings()
        invariant forall g :: f <= g < FD_MAX ==> procs[c].fds[g] == NoFd
        invariant Inherit(View(), c, fds, f) == Inherit(before, c, fds, 0)
      {
        InheritStep(View(), c, fds, f);
        var fd := if f < FD_STDIO || !fds[f].PipeEnd? then fds[f] else NoFd;
        procs := procs[c := procs[c].(fds := procs[c].fds[f := fd])];
        RecountContents(pipes, fd, 1);
        pipes := Recount(pipes, fd, 1);
      }
      InheritEnd(View(), c, fds);
    }

    /** schedule(), the current process having given up the processor. */
    method SwitchAway()
      requires forall p :: p in sched.queue ==> p in procs
      modifies this`sched, this`procs
      ensures View() == Dispatch(old(View()))
    {
      if sched.queue != [] {
        procs := procs[sched.queue[0] := procs[sched.queue[0]].(state := Running)];
      }
      sched := Sched.Schedule(sched);
    }

    /** scheduler_yield of `p`, which may not go on. */
    method GiveUp(p: nat)
      requires forall q :: q in sched.queue ==> q in procs
      modifies this`sched, this`procs
      ensures View() == Parted(old(View()), p)
    {
      if !sched.active {
        sched := sched.(cpu := Sched.Runs(p, false));
        return;
      }
      SwitchAway();
    }

    /**
     usermode_exit: a zombie if there is a parent to collect it, otherwise back to the kernel
     shell that started it.
     */
    method UsermodeExit(p: nat, code: int) returns (ret: Ret)
      requires KernelInv(View()) && Current(View(), p) && procs[p].todo == User && Rings()
      modifies this, rings
      ensures (View(), ret) == SysExit(old(View()), p, code) && Rings()
    {
      hide KernelInv, Bury, AllClosed, Vacate;
      Runner(View(), p);
      if procs[p].parent != PID_NONE {
        ParentIsActive(View(), procs[p].parent, p);
        BuryInv(View(), p, code);
        BecomeZombie(p, code);
        QueuedAreLive(View());
        GiveUp(p);
        return Over;
      }
      ProcessDestroy(p);
      return Value(code);
    }

    method BecomeZombie(p: nat, code: int)
      requires Current(View(), p)
      modifies this`procs, this`exited, this`sched
      ensures View() == Bury(old(View()), p, code)
    {
      var parent := procs[p].parent;
      procs := procs[p := procs[p].(state := Zombie, exitCode := code)];
      exited := exited[p := Delivery(p, parent, code)];
      sched := sched.(cpu := Sched.Idle);
      if parent in procs && procs[parent].state == Blocked && procs[parent].waitFor == p {
        procs := procs[parent := procs[parent].(waitFor := PID_NONE)];
        SchedulerReady(parent);
      }
    }

    /** sys_waitpid, up to its return or its sleep. */
    method WaitpidSystemCall(p: nat, c: nat) returns (ret: Ret)
      requires KernelInv(View()) && Current(View(), p) && procs[p].todo == User && Rings()
      modifies this, rings
      ensures (View(), ret) == SysWaitpid(old(View()), p, c) && Rings()
    {
      hide KernelInv, AllClosed;
      ghost var before := View();
      if c !in procs {
        return Value(if c in stranded then ECHILD else ESRCH);
      }
      if procs[c].parent != p {
        return Value(ECHILD);
      }
      if procs[c].state == Zombie {
        var code := procs[c].exitCode;
        ZombieIdle(before, c);
        ProcessDestroy(c);
        return Value(code);
      }
      QueuedAreLive(before);
      procs := procs[p := procs[p].(state := Blocked, todo := InWait(c), waitFor := c)];
      sched := sched.(cpu := Sched.Idle);
      GiveUp(p);
      return Asleep;
    }

    /** sys_waitpid after its sleep. */
    method WaitpidResumed(p: nat, c: nat) returns (ret: Ret)
      requires KernelInv(View()) && Current(View(), p) && procs[p].todo == InWait(c) && Rings()
      modifies this, rings
      ensures (View(), ret) == WaitResumed(old(View()), p, c) && Rings()
    {
      hide KernelInv, AllClosed;
      WokenFindsZombie(View(), p);
      AwakeInv(View(), p);
      procs := procs[p := procs[p].(todo := User)];
      if c in procs && procs[c].state == Zombie {
        var code := procs[c].exitCode;
        ZombieIdle(View(), c);
        ProcessDestroy(c);
        return Value(code);
      }
      return Value(ESRCH);
    }

    /** sys_close. */
    method CloseSystemCall(p: nat, f: int) returns (ret: Ret)
      requires KernelInv(View()) && p in procs && procs[p].todo == User && |procs[p].fds| == FD_MAX && Rings()
      modifies this`procs, this`sched, this`pipes, rings
      ensures (View(), ret) == SysClose(old(View()), p, f) && Rings()
    {
      hide KernelInv, CloseFd;
      if f < FD_STDIO {
        return Value(EINVAL);
      }
      var r := FdFree(p, f);
      if r != 0 {
        return Value(EBADF);
      }
      return Value(0);
    }

    /** fd_alloc, and sys_open when the file could be opened. */
    method OpenSystemCall(p: nat) returns (ret: Ret)
      requires KernelInv(View()) && p in procs && |procs[p].fds| == FD_MAX && Rings()
      modifies this`procs
      ensures (View(), ret) == SysOpen(old(View()), p) && Rings()
    {
      hide KernelInv, Recount;
      var f := FD_STDIO;
      while f < FD_MAX && procs[p].fds[f] != NoFd
        invariant FD_STDIO <= f <= FD_MAX && FreeSlot(procs[p].fds, FD_STDIO) == FreeSlot(procs[p].fds, f)
      {
        f := f + 1;
      }
      if f == FD_MAX {
        return Value(EMFILE);
      }
      NoRecount(pipes);
      FileRecount(pipes);
      procs := procs[p := procs[p].(fds := procs[p].fds[f := File])];
      return Value(f);
    }

    /** wait_queue_block at one end of pipe `i`. */
    method BlockOn(p: nat, t: Todo)
      requires KernelInv(View()) && Current(View(), p) && MaySleep(View(), p, t) && !t.InWait? && Rings()
      modifies this`procs, this`sched, this`pipes
      ensures View() == Parted(Sleep(old(View()), p, t), p) && Rings()
    {
      hide KernelInv;
      QueuedAreLive(View());
      procs := procs[p := procs[p].(state := Blocked, todo := t, waitFor := PID_NONE)];
      pipes := Joined(pipes, t, p);
      sched := sched.(cpu := Sched.Idle);
      GiveUp(p);
    }

    /** The pipe branch of sys_read, from its start or after a sleep, to its return or its sleep. */
    method ReadPipe(p: nat, i: nat, want: nat) returns (ret: Ret)
      requires KernelInv(View()) && Current(View(), p) && i < |pipes| && want > 0 && Holds(procs[p].fds, i, ReadEnd)
      requires Rings()
      modifies this`procs, this`sched, this`pipes, rings, Cells()
      ensures (View(), ret) == ReadSegment(old(View()), p, i, want) && Rings()
    {
      hide KernelInv;
      ghost var before := View();
      assert Mirrors(rings[i], pipes[i].contents);
      if rings[i].count == 0 {
        if pipes[i].writeRefs <= 0 {
          procs := procs[p := procs[p].(todo := User)];
          return Bytes([]);
        }
        BlockOn(p, InRead(i, want));
        return Asleep;
      }
      AwakeInv(before, p);
      WakesAreLive(Awake(before, p), i, WriteEnd);
      procs := procs[p := procs[p].(todo := User)];
      var bytes := TakeFrom(i, want);
      WakeOne(i, WriteEnd);
      return Bytes(bytes);
    }

    /** The copying loop of a read. */
    method TakeFrom(i: nat, want: nat) returns (bytes: seq<byte>)
      requires i < |pipes| && Rings()
      modifies this`pipes, rings, Cells()
      ensures var pp := old(pipes)[i]; var n := Min(|pp.contents|, want);
              && bytes == pp.contents[..n]
              && pipes == old(pipes)[i := pp.(contents := pp.contents[n..],
                                              delivered := pp.delivered + pp.contents[..n])]
      ensures Rings()
    {
      ghost var pp := pipes[i];
      assert Mirrors(rings[i], pp.contents);
      bytes := rings[i].Read(want);
      assert bytes == pp.contents[..|bytes|] && rings[i].Contents() == pp.contents[|bytes|..];
      pipes := pipes[i := pipes[i].(contents := pipes[i].contents[|bytes|..], delivered := pipes[i].delivered + bytes)];
      assert Mirrors(rings[i], pipes[i].contents);
    }

    /** The copying loop of a write, until the data or the room is used up. */
    method PutInto(i: nat, data: seq<byte>) returns (n: nat)
      requires i < |pipes| && Rings() && |pipes[i].contents| <= PIPE_BUF
      modifies this`pipes, rings, Cells()
      ensures n == Min(PIPE_BUF - |old(pipes)[i].contents|, |data|)
      ensures var pp := old(pipes)[i];
              pipes == old(pipes)[i := pp.(contents := pp.contents + data[..n], accepted := pp.accepted + data[..n])]
      ensures Rings()
    {
      ghost var pp := pipes[i];
      assert Mirrors(rings[i], pp.contents);
      n := rings[i].Write(data);
      pipes := pipes[i := pipes[i].(contents := pipes[i].contents + data[..n],
                                    accepted := pipes[i].accepted + data[..n])];
      assert Mirrors(rings[i], pipes[i].contents);
    }

    /** Put in what fits and wake a reader. */
    method FillPipe(p: nat, i: nat, data: seq<byte>) returns (n: nat)
      requires KernelInv(View()) && Current(View(), p) && i < |pipes| && Rings() && |pipes[i].contents| <= PIPE_BUF
      modifies this`procs, this`sched, this`pipes, rings, Cells()
      ensures n == Min(PIPE_BUF - |old(pipes)[i].contents|, |data|)
      ensures View() == Filled(old(View()), p, i, data[..n]) && Rings()
    {
      hide KernelInv, Wake;
      ghost var before := View();
      AwakeInv(before, p);
      WakesAreLive(Awake(before, p), i, ReadEnd);
      procs := procs[p := procs[p].(todo := User)];
      n := PutInto(i, data);
      WakeOne(i, ReadEnd);
    }

    /** The pipe branch of sys_write, from its start or after a sleep, to its return or its next sleep. */
    method WritePipe(p: nat, i: nat, rest: seq<byte>, written: nat) returns (ret: Ret)
      requires KernelInv(View()) && Current(View(), p) && i < |pipes| && rest != [] && Holds(procs[p].fds, i, WriteEnd)
      requires Rings()
      modifies this`procs, this`sched, this`pipes, rings, Cells()
      ensures (View(), ret) == WriteSegment(old(View()), p, i, rest, written) && Rings()
    {
      hide KernelInv, Filled, Parted, Sleep;
      ghost var before := View();
      Bounds(before);
      Contents(before, i);
      if pipes[i].readRefs <= 0 {
        procs := procs[p := procs[p].(todo := User)];
        return Value(if written > 0 then written else EPIPE);
      }
      var n := FillPipe(p, i, rest);
      FilledInv(before, p, i, rest[..n]);
      if n == |rest| {
        return Value(written + n);
      }
      BlockOn(p, InWrite(i, rest[n..], written + n));
      return Asleep;
    }

    /** sys_read, but for what console and files do. */
    method ReadSystemCall(p: nat, f: int, want: nat) returns (ret: Ret)
      requires KernelInv(View()) && Current(View(), p) && Rings()
      modifies this`procs, this`sched, this`pipes, rings, Cells()
      ensures (View(), ret) == SysRead(old(View()), p, f, want) && Rings()
    {
      hide KernelInv, ReadSegment;
      Runner(View(), p);
      if want == 0 {
        return Value(0);
      }
      var fd := if 0 <= f < FD_MAX then procs[p].fds[f] else NoFd;
      if fd.Console? || fd.File? {
        return Elsewhere;
      }
      if !fd.PipeEnd? || fd.dir != ReadEnd {
        return Value(EBADF);
      }
      ret := ReadPipe(p, fd.pipe, want);
    }

    /** sys_write, but for what console and files do. */
    method WriteSystemCall(p: nat, f: int, data: seq<byte>) returns (ret: Ret)
      requires KernelInv(View()) && Current(View(), p) && Rings()
      modifies this`procs, this`sched, this`pipes, rings, Cells()
      ensures (View(), ret) == SysWrite(old(View()), p, f, data) && Rings()
    {
      hide KernelInv, WriteSegment;
      Runner(View(), p);
      if data == [] {
        return Value(0);
      }
      var fd := if 0 <= f < FD_MAX then procs[p].fds[f] else NoFd;
      if fd.Console? || fd.File? {
        return Elsewhere;
      }
      if !fd.PipeEnd? {
        return Value(EBADF);
      }
      if fd.dir != WriteEnd {
        return Value(EINVAL);
      }
      ret := WritePipe(p, fd.pipe, data, 0);
    }

    /** scheduler_tick. */
    method TimerTick()
      requires (KernelInv(View()) || !sched.active) && Rings()
      modifies this`procs, this`sched
      ensures View() == Ticked(old(View())) && Rings()
    {
      hide KernelInv;
      if !sched.active {
        return;
      }
      QueuedAreLive(View());
      if sched.ticks > 1 {
        sched := sched.(ticks := sched.ticks - 1);
        return;
      }
      if sched.cpu.Runs? {
        Runner(View(), sched.cpu.who);
        var p := sched.cpu.who;
        sched := sched.(cpu := Sched.Idle);
        SchedulerReady(p);
        assert View() == Requeue(old(View()), p);
      }
      SwitchAway();
    }

    /** exec_program called by the kernel itself: a process without parent, on the console, that runs at once. */
    method StartProgram(load: Load) returns (ret: Ret)
      requires KernelInv(View()) && !sched.cpu.Runs? && Rings()
      modifies this
      ensures (View(), ret) == KernelExec(old(View()), load) && Rings()
    {
      hide KernelInv, Inherit;
      ghost var before := View();
      var ok, c := Reserve(load);
      if !ok {
        return Value(-1);
      }
      procs := procs[c := Proc(PID_NONE, Running, PID_NONE, 0, seq(FD_MAX, f => NoFd), User)];
      sched := sched.(cpu := Sched.Runs(c, true));
      assert View() == Spawn(before, PID_NONE);
      InheritFds(c, [Console, Console, Console]);
      return Over;
    }

    /** The rest of a call that slept. */
    method ResumeCall(p: nat) returns (ret: Ret)
      requires KernelInv(View()) && Current(View(), p) && procs[p].todo != User && Rings()
      modifies this, rings, Cells()
      ensures (View(), ret) == Resumed(old(View()), p) && Rings()
    {
      hide KernelInv, ReadSegment, WriteSegment, WaitResumed;
      Runner(View(), p);
      match procs[p].todo
      case InRead(i, want) => ret := ReadPipe(p, i, want);
      case InWrite(i, rest, written) => ret := WritePipe(p, i, rest, written);
      case InWait(c) => ret := WaitpidResumed(p, c);
    }

    /** The calls of the process that runs. */
    method PerformCall(p: nat, e: Event) returns (ret: Ret)
      requires KernelInv(View()) && Able(View(), e) && !e.Timer? && !e.Start? && p == sched.cpu.who && Rings()
      modifies this, rings, Cells()
      ensures (View(), ret) == Do(old(View()), e) && Rings()
    {
      hide KernelInv, SysPipe, SysDup2, SysClose, SysOpen, SysRead, SysWrite, SysExec, SysWaitpid, SysExit, Resumed,
        Rings;
      Runner(View(), p);
      match e
      case Resume => ret := ResumeCall(p);
      case PipeCall => ret := PipeSystemCall(p);
      case Dup2(o, n) => ret := Dup2SystemCall(p, o, n);
      case Close(f) => ret := CloseSystemCall(p, f);
      case Open => ret := OpenSystemCall(p);
      case Read(f, want) => ret := ReadSystemCall(p, f, want);
      case Write(f, data) => ret := WriteSystemCall(p, f, data);
      case Exec(load) => ret := ExecProgram(p, load);
      case Waitpid(c) => ret := WaitpidSystemCall(p, c);
      case Exit(code) => ret := UsermodeExit(p, code);
    }

    /** Every event of the protocol, done by the code. */
    method Perform(e: Event) returns (ret: Ret)
      requires (KernelInv(View()) || Spinning(View())) && Able(View(), e) && Rings()
      modifies this, rings, Cells()
      ensures (View(), ret) == Do(old(View()), e) && Rings()
      ensures KernelInv(View()) || Spinning(View())
    {
      hide KernelInv, KernelExec, Ticked, Rings, Early;
      if Spinning(View()) {
        SpinningTimer(View(), e);
      } else {
        DoInv(View(), e);
        if Early(View(), e) { EarlySpins(View(), e); }
      }
      if e.Timer? {
        TimerTick();
        return Over;
      }
      if e.Start? {
        ret := StartProgram(e.load);
        return;
      }
      ret := PerformCall(sched.cpu.who, e);
    }

    /** A whole run. */
    method PerformAll(run: seq<Event>)
      requires KernelInv(View()) && Possible(View(), run) && Rings()
      modifies this, rings, Cells()
      ensures View() == Final(old(View()), run) && Rings()
    {
      hide KernelInv, Spinning, Do, Rings;
      ghost var before := View();
      var n := 0;
      assert run[0..] == run;
      while n < |run|
        invariant n <= |run| && (KernelInv(View()) || Spinning(View())) && Rings()
        invariant Possible(View(), run[n..]) && Final(View(), run[n..]) == Final(before, run)
      {
        assert run[n..][0] == run[n] && run[n..][1..] == run[n + 1..];
        var _ := Perform(run[n]);
        n := n + 1;
      }
      assert run[n..] == [];
    }
  }

  lemma RecountContents(pipes: seq<Pipe>, fd: Fd, delta: int)
    ensures forall i :: 0 <= i < |pipes| ==> Recount(pipes, fd, delta)[i].contents == pipes[i].contents
  {
  }

  lemma FileRecount(pipes: seq<Pipe>)
    ensures Recount(pipes, File, 1) == pipes
  {
  }

  lemma InheritStep(k: K, c: nat, fds: seq<Fd>, f: nat)
    requires c in k.procs && f < |fds| && f < |k.procs[c].fds| && k.procs[c].fds[f] == NoFd
    ensures var fd := Inherited(fds[f], f);
            var k' := k.(procs := k.procs[c := k.procs[c].(fds := k.procs[c].fds[f := fd])],
                         pipes := Recount(k.pipes, fd, 1));
            Inherit(k, c, fds, f) == Inherit(k', c, fds, f + 1)
  {
    NoRecount(k.pipes);
  }

  lemma InheritEnd(k: K, c: nat, fds: seq<Fd>)
    requires c in k.procs
    ensures Inherit(k, c, fds, |fds|) == k
  {
  }

  lemma QueuedAreLive(k: K)
    requires KernelInv(k)
    ensures forall p :: p in k.sched.queue ==> p in k.procs
  {
  }

  /** A fresh pipe with its two ends counted. */
  lemma FreshRefs(pipes: seq<Pipe>, i: nat)
    requires i < |pipes|
    ensures var once := Recount(Recount(pipes[i := FREE_PIPE], NoFd, -1), PipeEnd(i, ReadEnd), 1);
            Recount(Recount(once, NoFd, -1), PipeEnd(i, WriteEnd), 1)
            == pipes[i := FREE_PIPE.(readRefs := 1, writeRefs := 1, refCount := 2)]
  {
    hide Recount, Counted;
    var one := Counted(FREE_PIPE, ReadEnd, 1);
    NoRecount(pipes[i := FREE_PIPE]);
    RecountAt(pipes, i, FREE_PIPE, ReadEnd);
    NoRecount(pipes[i := one]);
    RecountAt(pipes, i, one, WriteEnd);
    CountedBoth();
  }

  lemma CountedBoth()
    ensures Counted(Counted(FREE_PIPE, ReadEnd, 1), WriteEnd, 1)
              == FREE_PIPE.(readRefs := 1, writeRefs := 1, refCount := 2)
  {
  }

  /** One more reference to the pipe just put in slot `i`. */
  lemma RecountAt(pipes: seq<Pipe>, i: nat, p: Pipe, d: Dir)
    requires i < |pipes|
    ensures Recount(pipes[i := p], PipeEnd(i, d), 1) == pipes[i := Counted(p, d, 1)]
  {
    hide Counted;
    assert pipes[i := p][i] == p;
    assert pipes[i := p][i := Counted(p, d, 1)] == pipes[i := Counted(p, d, 1)];
  }

  lemma NoRecount(pipes: seq<Pipe>)
    ensures Recount(pipes, NoFd, -1) == pipes
  {
  }

  /** Whoever waits at a pipe is a live process. */
  lemma WakesAreLive(k: K, i: nat, d: Dir)
    requires KernelInv(k) && i < |k.pipes|
    ensures forall p :: p in Waiters(k.pipes[i], d) ==> p in k.procs
  {
    assert PipeOk(k, i);
    forall p | p in Waiters(k.pipes[i], d) ensures p in k.procs {
      assert SleepsIn(k, p, i, d);
    }
  }

  lemma WokenLeft(k: K, i: nat, d: Dir, n: nat)
    requires i < |k.pipes| && n <= |Waiters(k.pipes[i], d)|
    ensures Waiters(Wake(k, i, d, n).pipes[i], d) == Waiters(k.pipes[i], d)[n..]
    ensures Wake(k, i, d, n).procs.Keys == k.procs.Keys
  {
  }
}
