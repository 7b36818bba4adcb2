/**
 Where the entries of the process table are, over every run from boot: which are in no place,
 which in one, and which in two (src/kernel/process/process.c, src/kernel/scheduler/scheduler.c,
 src/kernel/sync/wait_queue.c).
 */
module KernelPlaces {
  import opened Kernel
  import opened KernelOps
  import opened KernelCalls
  import opened KernelRuns
  import Sched

  // ---------------------------------------------------------------- when the scheduler becomes active

  /** A process in user space starts a child. */
  predicate Launches(k: K, e: Event) {
    e.Exec? && e.load.Loaded? && HasSlot(k)
  }

  lemma SpawnActive(k: K, parent: nat, fds: seq<Fd>)
    requires KernelInv(k) && parent < k.nextPid && (parent == PID_NONE ==> !k.sched.cpu.Runs?) && HasSlot(k)
    requires forall f :: 0 <= f < |fds| ==> FdOk(fds[f])
    ensures k.nextPid in Spawn(k, parent).procs
    ensures Inherit(Spawn(k, parent), k.nextPid, fds, 0).sched.active == (k.sched.active || parent != PID_NONE)
    ensures Inherit(Spawn(k, parent), k.nextPid, fds, 0).stranded == k.stranded
    ensures Inherit(Spawn(k, parent), k.nextPid, fds, 0).nextPid == k.nextPid + 1
  {
    hide KernelInv, Inherit;
    SpawnInv(k, parent);
    InheritInv(Spawn(k, parent), k.nextPid, fds, 0);
  }

  /** What a step does to the table but for the processes in it, and to the scheduler. */
  predicate Moves(k: K, e: Event, active: bool, stranded: set<nat>)
    requires Able(k, e)
  {
    var k' := Do(k, e).0;
    k'.sched.active == active && k'.stranded == stranded && (!e.Start? && !e.Exec? ==> k'.nextPid == k.nextPid)
  }

  lemma StartMoves(k: K, e: Event)
    requires KernelInv(k) && Able(k, e) && (e.Start? || e.Exec?)
    ensures Moves(k, e, k.sched.active || Launches(k, e), k.stranded + if Strands(k, e) then {k.nextPid} else {})
  {
    hide KernelInv, Inherit, Spawn;
    Bounds(k);
    if e.Exec? { Runner(k, k.sched.cpu.who); }
    if HasSlot(k) && e.load.Loaded? {
      if e.Start? {
        SpawnActive(k, PID_NONE, [Console, Console, Console]);
      } else {
        SpawnActive(k, k.sched.cpu.who, k.procs[k.sched.cpu.who].fds);
      }
    }
  }

  lemma SlotMoves(k: K, e: Event)
    requires KernelInv(k) && Able(k, e) && (e.Timer? || e.PipeCall? || e.Open? || e.Close? || e.Dup2?)
    ensures Moves(k, e, k.sched.active, k.stranded)
  {
    hide KernelInv, CloseFd, Recount;
    if !e.Timer? { Runner(k, k.sched.cpu.who); }
    match e
    case Close(f) =>
      if f >= FD_STDIO && Slot(k, k.sched.cpu.who, f) != NoFd { CloseFdSame(k, k.sched.cpu.who, f); }
    case Dup2(o, n) =>
      if 0 <= n < FD_MAX && Slot(k, k.sched.cpu.who, n) != NoFd { CloseFdSame(k, k.sched.cpu.who, n); }
    case _ =>
  }

  lemma SegmentMoves(k: K, p: nat, i: nat, want: nat, rest: seq<byte>, written: nat)
    requires KernelInv(k) && Current(k, p) && i < PIPE_MAX && i < |k.pipes|
    ensures var k' := ReadSegment(k, p, i, want).0;
            k'.sched.active == k.sched.active && k'.stranded == k.stranded && k'.nextPid == k.nextPid
    ensures var k' := WriteSegment(k, p, i, rest, written).0;
            k'.sched.active == k.sched.active && k'.stranded == k.stranded && k'.nextPid == k.nextPid
  {
    DormantUnwaited(k, i, ReadEnd);
    DormantUnwaited(k, i, WriteEnd);
    hide KernelInv;
  }

  lemma TransferMoves(k: K, e: Event)
    requires KernelInv(k) && Able(k, e) && (e.Read? || e.Write? || e.Resume?)
    ensures Moves(k, e, k.sched.active, k.stranded)
  {
    hide KernelInv, ReadSegment, WriteSegment, AllClosed;
    var p := k.sched.cpu.who;
    Runner(k, p);
    match e
    case Read(f, want) =>
      var fd := Slot(k, p, f);
      if fd.PipeEnd? { SegmentMoves(k, p, fd.pipe, want, [], 0); }
    case Write(f, data) =>
      var fd := Slot(k, p, f);
      if fd.PipeEnd? { SegmentMoves(k, p, fd.pipe, 0, data, 0); }
    case Resume =>
      match k.procs[p].todo
      case InRead(i, want) => SegmentMoves(k, p, i, want, [], 0);
      case InWrite(i, rest, written) => SegmentMoves(k, p, i, 0, rest, written);
      case InWait(c) =>
        WokenFindsZombie(k, p);
        ZombieIdle(k, c);
        AwakeInv(k, p);
        ReapMoves(Awake(k, p), c);
  }

  lemma ReapMoves(k: K, c: nat)
    requires KernelInv(k) && c in k.procs && k.procs[c].todo == User
    ensures var k' := Vacate(AllClosed(k, c, 0), c);
            k'.sched.active == k.sched.active && k'.stranded == k.stranded && k'.nextPid == k.nextPid
  {
    hide KernelInv, AllClosed;
    AllClosedInv(k, c, 0);
  }

  lemma EndMoves(k: K, e: Event)
    requires KernelInv(k) && Able(k, e) && (e.Waitpid? || e.Exit?)
    ensures Moves(k, e, k.sched.active, k.stranded)
  {
    hide KernelInv, AllClosed;
    var p := k.sched.cpu.who;
    Runner(k, p);
    match e
    case Waitpid(c) =>
      if c in k.procs && k.procs[c].state == Zombie {
        ZombieIdle(k, c);
        ReapMoves(k, c);
      }
    case Exit(_) =>
      ReapMoves(k, p);
      if k.procs[p].parent != PID_NONE { ParentIsActive(k, k.procs[p].parent, p); }
  }

  /** A process is created but there is no memory for it. */
  predicate Strands(k: K, e: Event) {
    (e.Exec? || e.Start?) && e.load.NoMemory? && HasSlot(k)
  }

  /**
   The scheduler becomes active when the first child is started and at no other time; entries are
   stranded by creations without memory, and never given back.
   */
  lemma DoMoves(k: K, e: Event)
    requires KernelInv(k) && Able(k, e)
    ensures Moves(k, e, k.sched.active || Launches(k, e), k.stranded + if Strands(k, e) then {k.nextPid} else {})
  {
    hide KernelInv, Moves;
    if e.Start? || e.Exec? {
      StartMoves(k, e);
    } else {
      assert k.stranded + {} == k.stranded;
      if e.Read? || e.Write? || e.Resume? {
        TransferMoves(k, e);
      } else if e.Waitpid? || e.Exit? {
        EndMoves(k, e);
      } else {
        SlotMoves(k, e);
      }
    }
  }

  // ---------------------------------------------------------------- over whole runs

  /** A child is started in the run. */
  predicate Launched(k: K, run: seq<Event>)
    requires Possible(k, run)
    decreases |run|
  {
    run != [] && (Launches(k, run[0]) || Launched(Do(k, run[0]).0, run[1..]))
  }

  /** A process has to wait before any child was started. */
  predicate SleptFirst(k: K, run: seq<Event>)
    requires Possible(k, run)
    decreases |run|
  {
    run != [] && !Launches(k, run[0]) && (Sleeps(k, run[0]) || SleptFirst(Do(k, run[0]).0, run[1..]))
  }

  /** Process `p` is created in the run, without memory for it. */
  predicate StrandedIn(k: K, run: seq<Event>, p: nat)
    requires Possible(k, run)
    decreases |run|
  {
    run != [] && ((Strands(k, run[0]) && p == k.nextPid) || StrandedIn(Do(k, run[0]).0, run[1..], p))
  }

  /** How many processes were created in the run without memory for them. */
  function StrandCount(k: K, run: seq<Event>): nat
    requires Possible(k, run)
    decreases |run|
  {
    if run == [] then 0 else (if Strands(k, run[0]) then 1 else 0) + StrandCount(Do(k, run[0]).0, run[1..])
  }

  lemma {:induction false} SpinsIdle(k: K, run: seq<Event>, p: nat)
    requires Spinning(k) && Possible(k, run)
    ensures !Launched(k, run) && !StrandedIn(k, run, p) && StrandCount(k, run) == 0
    decreases |run|
  {
    if run != [] {
      SpinningTimer(k, run[0]);
      hide Do, Spinning;
      SpinsIdle(k, run[1..], p);
    }
  }

  /** A run in which a process waits too early ends where that happened. */
  lemma {:induction false} EndsEarly(k: K, run: seq<Event>) returns (at: K, e: Event)
    requires KernelInv(k) && Possible(k, run) && !Calm(k, run)
    ensures KernelInv(at) && Able(at, e) && Early(at, e) && Final(k, run) == Do(at, e).0
    decreases |run|
  {
    hide KernelInv, Do, Early;
    if Early(k, run[0]) {
      EarlySpins(k, run[0]);
      SpinsForever(Do(k, run[0]).0, run[1..]);
      at, e := k, run[0];
    } else {
      DoInv(k, run[0]);
      at, e := EndsEarly(Do(k, run[0]).0, run[1..]);
    }
  }

  /** At the end the scheduler is active if it was, or a child was started. */
  lemma {:induction false} RunActive(k: K, run: seq<Event>)
    requires KernelInv(k) && Possible(k, run)
    ensures Final(k, run).sched.active <==> k.sched.active || Launched(k, run)
    decreases |run|
  {
    hide KernelInv, Do, Early, Launches;
    if run != [] {
      DoMoves(k, run[0]);
      DoInv(k, run[0]);
      if Early(k, run[0]) {
        EarlySpins(k, run[0]);
        SpinsForever(Do(k, run[0]).0, run[1..]);
        SpinsIdle(Do(k, run[0]).0, run[1..], 0);
      } else {
        RunActive(Do(k, run[0]).0, run[1..]);
      }
    }
  }

  lemma {:induction false} ActiveCalm(k: K, run: seq<Event>)
    requires KernelInv(k) && Possible(k, run) && k.sched.active
    ensures Calm(k, run)
    decreases |run|
  {
    hide KernelInv, Do, Sleeps;
    if run != [] {
      DoMoves(k, run[0]);
      DoInv(k, run[0]);
      ActiveCalm(Do(k, run[0]).0, run[1..]);
    }
  }

  lemma {:induction false} CalmUnlessFirst(k: K, run: seq<Event>)
    requires KernelInv(k) && Possible(k, run) && !k.sched.active
    ensures Calm(k, run) <==> !SleptFirst(k, run)
    decreases |run|
  {
    hide KernelInv, Do, Sleeps;
    if run != [] {
      DoMoves(k, run[0]);
      DoInv(k, run[0]);
      if Launches(k, run[0]) {
        LaunchNoSleep(k, run[0]);
        ActiveCalm(Do(k, run[0]).0, run[1..]);
      } else if !Sleeps(k, run[0]) {
        CalmUnlessFirst(Do(k, run[0]).0, run[1..]);
      }
    }
  }

  lemma LaunchNoSleep(k: K, e: Event)
    requires Able(k, e) && e.Exec?
    ensures !Sleeps(k, e)
  {
  }

  /**
   From boot, the kernel invariant holds at the end of a run if and only if no process had to
   wait before the first child was started.
   */
  lemma InvExactly(k: K, run: seq<Event>)
    requires Boot(k) && Possible(k, run)
    ensures KernelInv(Final(k, run)) <==> !SleptFirst(k, run)
  {
    BootInv(k);
    hide KernelInv;
    RunInv(k, run);
    CalmUnlessFirst(k, run);
  }

  // ---------------------------------------------------------------- the table

  /** The stranded entries are those of the processes created without memory, and no others. */
  lemma {:induction false} RunStranded(k: K, run: seq<Event>, p: nat)
    requires KernelInv(k) && Possible(k, run)
    ensures p in Final(k, run).stranded <==> p in k.stranded || StrandedIn(k, run, p)
    ensures |Final(k, run).stranded| == |k.stranded| + StrandCount(k, run)
    decreases |run|
  {
    hide KernelInv, Do, Early, Strands;
    if run != [] {
      NextPidFree(k);
      DoMoves(k, run[0]);
      DoInv(k, run[0]);
      if Early(k, run[0]) {
        EarlySpins(k, run[0]);
        SpinsForever(Do(k, run[0]).0, run[1..]);
        SpinsIdle(Do(k, run[0]).0, run[1..], p);
      } else {
        RunStranded(Do(k, run[0]).0, run[1..], p);
      }
    }
  }

  /** Every process created without memory takes an entry of the table for good. */
  lemma TableLeft(k: K, run: seq<Event>)
    requires Boot(k) && Possible(k, run)
    ensures |Final(k, run).procs| + StrandCount(k, run) <= PROCESS_MAX
  {
    BootInv(k);
    hide KernelInv;
    RunStranded(k, run, 0);
    RunInv(k, run);
    if Calm(k, run) {
      NextPidFree(Final(k, run));
    } else {
      var at, e := EndsEarly(k, run);
      NextPidFree(at);
      EarlySame(at, e);
      assert |Final(k, run).procs.Keys| == |at.procs.Keys|;
    }
  }

  predicate InTable(k: K, p: nat) {
    p in k.procs || p in k.stranded
  }

  ghost predicate Nowhere(k: K, p: nat) {
    forall x :: !IsAt(k, p, x)
  }

  ghost predicate InOnePlace(k: K, p: nat) {
    exists x :: IsAt(k, p, x) && forall y :: IsAt(k, p, y) ==> y == x
  }

  lemma InvPlaces(k: K, p: nat)
    requires KernelInv(k)
    ensures p in k.procs ==> InOnePlace(k, p) && !Nowhere(k, p) && p !in k.stranded
    ensures p in k.stranded ==> Nowhere(k, p)
  {
    NextPidFree(k);
    hide KernelInv;
    forall x ensures p in k.procs ==> (IsAt(k, p, x) <==> x == PlaceOf(k.procs[p])) {
      OnePlace(k, p, x);
    }
    forall x ensures p in k.stranded ==> !IsAt(k, p, x) {
      OnePlace(k, p, x);
    }
    if p in k.procs { assert IsAt(k, p, PlaceOf(k.procs[p])); }
  }

  /** The place in a wait queue. */
  function WaitPlace(t: Todo): Place
    requires t.InRead? || t.InWrite?
  {
    if t.InRead? then InReaders(t.pipe) else InWriters(t.pipe)
  }

  lemma OnlyRunner(k: K, who: nat, p: nat)
    requires KernelInv(k) && Current(k, who) && !k.sched.active
    ensures p in k.procs ==> p == who
    ensures p in k.stranded ==> p != who && p !in k.procs
    ensures k.sched.queue == []
  {
    if p in k.procs { assert ProcOk(k, p); }
  }

  lemma PartedNowhere(k: K, who: nat, t: Todo, p: nat, x: Place)
    requires KernelInv(k) && Current(k, who) && !k.sched.active && p in k.stranded && (t.InRead? || t.InWrite?)
    ensures !IsAt(Parted(Sleep(k, who, t), who), p, x)
  {
    hide KernelInv;
    OnlyRunner(k, who, p);
    if (x.InReaders? || x.InWriters?) && x.pipe < |k.pipes| {
      DormantUnwaited(k, x.pipe, ReadEnd);
      DormantUnwaited(k, x.pipe, WriteEnd);
    }
  }

  lemma PartedTwice(k: K, who: nat, t: Todo)
    requires Current(k, who) && !k.sched.active && (t.InRead? || t.InWrite?) && t.pipe < |k.pipes|
    ensures var k' := Parted(Sleep(k, who, t), who); IsAt(k', who, OnCpu) && IsAt(k', who, WaitPlace(t))
  {
  }

  lemma PartedPlaces(k: K, who: nat, t: Todo, p: nat)
    requires KernelInv(k) && Current(k, who) && !k.sched.active && (t.InRead? || t.InWrite?) && t.pipe < |k.pipes|
    ensures var k' := Parted(Sleep(k, who, t), who);
            && (p in k'.procs ==> !InOnePlace(k', p) && !Nowhere(k', p) && p !in k'.stranded)
            && (p in k'.stranded ==> Nowhere(k', p))
  {
    hide KernelInv, IsAt;
    OnlyRunner(k, who, p);
    PartedTwice(k, who, t);
    var k' := Parted(Sleep(k, who, t), who);
    if p in k.stranded {
      forall x ensures !IsAt(k', p, x) {
        PartedNowhere(k, who, t, p, x);
      }
    }
  }

  /** Whoever waits too early is on the processor and in a wait queue, and is the only process there is. */
  lemma EarlyPlaces(k: K, e: Event, p: nat)
    requires KernelInv(k) && Able(k, e) && Early(k, e)
    ensures var k' := Do(k, e).0;
            && (p in k'.procs ==> !InOnePlace(k', p) && !Nowhere(k', p) && p !in k'.stranded)
            && (p in k'.stranded ==> Nowhere(k', p))
  {
    hide KernelInv, Filled, InOnePlace, Nowhere;
    EarlyIsTransfer(k, e);
    var who, i := k.sched.cpu.who, WaitSlot(k, e).pipe;
    Runner(k, who);
    if e.Read? {
      PartedPlaces(k, who, InRead(i, e.want), p);
    } else {
      Contents(k, i);
      DormantUnwaited(k, i, ReadEnd);
      var n := Min(Room(k.pipes[i]), |e.data|);
      FilledInv(k, who, i, e.data[..n]);
      FilledKeeps(k, who, i, e.data[..n]);
      PartedPlaces(Filled(k, who, i, e.data[..n]), who, InWrite(i, e.data[n..], n), p);
    }
  }

  /**
   From boot, for every entry of the process table at the end of any run: it is in no place if and
   only if it was created without memory, and any other is in exactly one place if and only if no
   process had to wait before the first child was started.
   */
  lemma PlacesExactly(k: K, run: seq<Event>, p: nat)
    requires Boot(k) && Possible(k, run) && InTable(Final(k, run), p)
    ensures Nowhere(Final(k, run), p) <==> StrandedIn(k, run, p)
    ensures !StrandedIn(k, run, p) ==> (InOnePlace(Final(k, run), p) <==> !SleptFirst(k, run))
  {
    BootInv(k);
    hide KernelInv, Nowhere, InOnePlace, SleptFirst, StrandedIn, Calm;
    InvExactly(k, run);
    RunInv(k, run);
    RunStranded(k, run, p);
    if Calm(k, run) {
      InvPlaces(Final(k, run), p);
    } else {
      var at, e := EndsEarly(k, run);
      EarlyPlaces(at, e, p);
    }
  }
}
