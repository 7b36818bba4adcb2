/**
 The scheduler inside the kernel: what every step of every call does to processor and ready
 queue is a sequence of scheduling events, so that bounded waiting holds in every run of the
 kernel (src/kernel/scheduler/scheduler.c).
 */
module KernelWaiting {
  import opened Kernel
  import opened KernelOps
  import opened KernelCalls
  import opened KernelRuns
  import opened Sched

  type Ev = Sched.Event<nat>

  /** Only the last event can change the processor; those before it wake processes. */
  predicate Wakes(evs: seq<Ev>) {
    forall n :: 0 <= n < |evs| ==> evs[n].Ready?
  }

  predicate WakesFirst(evs: seq<Ev>) {
    evs == [] || (Wakes(evs[..|evs| - 1]) && !evs[|evs| - 1].Remove?)
  }

  /** The scheduling events that lead from `k` to `k'`. */
  predicate Leads(k: K, k': K, evs: seq<Ev>) {
    Runnable(k.sched, evs) && After(k.sched, evs) == k'.sched
  }

  lemma LeadsNowhere(k: K, k': K)
    requires k'.sched == k.sched
    ensures Leads(k, k', [])
  {
  }

  lemma LeadsOne(k: K, k': K, e: Ev)
    requires Sched.Enabled(k.sched, e) && Sched.Step(k.sched, e) == k'.sched
    ensures Leads(k, k', [e])
  {
    assert After(Sched.Step(k.sched, e), []) == k'.sched;
  }

  lemma LeadsOn(a: K, b: K, c: K, x: seq<Ev>, y: seq<Ev>)
    requires Leads(a, b, x) && Leads(b, c, y) && Wakes(x)
    ensures Leads(a, c, x + y) && (Wakes(y) ==> Wakes(x + y)) && (WakesFirst(y) ==> WakesFirst(x + y))
  {
    RunJoin(a.sched, x, y);
    if y == [] {
      assert x + y == x;
    } else {
      assert (x + y)[..|x + y| - 1] == x + y[..|y| - 1];
    }
  }

  // ---------------------------------------------------------------- waking

  function Readies(w: seq<nat>): (r: seq<Ev>)
    ensures |r| == |w| && forall n :: 0 <= n < |w| ==> r[n] == Sched.Ready(w[n])
  {
    seq(|w|, n requires 0 <= n < |w| => Sched.Ready(w[n]))
  }

  /** Processes that are nowhere in the scheduler can be woken one after the other. */
  lemma {:induction false} ReadyAll(s: State<nat>, w: seq<nat>)
    requires Distinct(w) && forall p :: p in w ==> p !in s.queue && !(s.cpu.Runs? && s.cpu.who == p)
    ensures Runnable(s, Readies(w))
    ensures After(s, Readies(w)) == s.(queue := s.queue + w, active := s.active || w != [])
    decreases |w|
  {
    if w == [] {
      assert s.queue + w == s.queue;
    } else {
      assert w[0] in w;
      var s1 := Sched.Step(s, Sched.Ready(w[0]));
      forall p | p in w[1..] ensures p !in s1.queue {
        assert p in w && p != w[0];
      }
      ReadyAll(s1, w[1..]);
      assert Readies(w)[1..] == Readies(w[1..]);
      assert s.queue + [w[0]] + w[1..] == s.queue + w;
    }
  }

  lemma WakeLeads(k: K, i: nat, d: Dir, n: nat) returns (evs: seq<Ev>)
    requires KernelInv(k) && i < PIPE_MAX
    ensures i < |k.pipes| && Leads(k, Wake(k, i, d, n), evs) && Wakes(evs)
  {
    assert PipeOk(k, i);
    var w := Woken(k.pipes[i], d, n);
    WokenAre(k, i, d, n);
    forall p | p in w ensures p !in k.sched.queue && !(k.sched.cpu.Runs? && k.sched.cpu.who == p) {
      assert SleepsIn(k, p, i, d);
    }
    evs := Readies(w);
    ReadyAll(k.sched, w);
  }

  lemma CloseLeads(k: K, p: nat, f: nat) returns (evs: seq<Ev>)
    requires KernelInv(k) && p in k.procs && f < |k.procs[p].fds| && k.procs[p].todo == User
    ensures Leads(k, CloseFd(k, p, f), evs) && Wakes(evs)
  {
    hide KernelInv, Wake;
    Bounds(k);
    PutFdInv(k, p, f, NoFd);
    var fd := k.procs[p].fds[f];
    var k1 := PutFd(k, p, f, NoFd);
    evs := [];
    LeadsNowhere(k, k1);
    if fd.PipeEnd? && fd.pipe < |k.pipes| && Refs(k1.pipes[fd.pipe], fd.dir) <= 0 {
      evs := WakeLeads(k1, fd.pipe, fd.dir.Other(), |Waiters(k1.pipes[fd.pipe], fd.dir.Other())|);
    }
  }

  lemma {:induction false} AllClosedLeads(k: K, p: nat, n: nat) returns (evs: seq<Ev>)
    requires KernelInv(k) && p in k.procs && n <= |k.procs[p].fds| && k.procs[p].todo == User
    ensures Leads(k, AllClosed(k, p, n), evs) && Wakes(evs)
    decreases |k.procs[p].fds| - n
  {
    hide KernelInv, CloseFd, Leads;
    evs := [];
    LeadsNowhere(k, k);
    if n < |k.procs[p].fds| {
      CloseFdInv(k, p, n);
      CloseFdSame(k, p, n);
      var k1 := CloseFd(k, p, n);
      assert SameProcess(k.procs[p], k1.procs[p]);
      var x := CloseLeads(k, p, n);
      var y := AllClosedLeads(k1, p, n + 1);
      LeadsOn(k, k1, AllClosed(k1, p, n + 1), x, y);
      evs := x + y;
    }
  }

  // ---------------------------------------------------------------- every step

  /** Going to sleep and dispatching is the event Stop. */
  lemma SleepLeads(k: K, p: nat, t: Todo)
    requires KernelInv(k) && Current(k, p)
    ensures Leads(k, Parted(Sleep(k, p, t), p), [Sched.Stop])
  {
    SleepSchedules(k, p, t);
    hide KernelInv;
    LeadsOne(k, Parted(Sleep(k, p, t), p), Sched.Stop);
  }

  lemma ReadLeads(k: K, p: nat, i: nat, want: nat) returns (evs: seq<Ev>)
    requires KernelInv(k) && Current(k, p) && i < PIPE_MAX && i < |k.pipes| && want > 0
    ensures Leads(k, ReadSegment(k, p, i, want).0, evs) && WakesFirst(evs)
  {
    hide KernelInv, Wake, Parted, Sleep;
    var pp := k.pipes[i];
    if |pp.contents| == 0 {
      if pp.writeRefs <= 0 {
        evs := [];
      } else {
        SleepLeads(k, p, InRead(i, want));
        evs := [Sched.Stop];
      }
    } else {
      var n := Min(|pp.contents|, want);
      AwakeInv(k, p);
      Contents(k, i);
      SetStreamInv(Awake(k, p), i, pp.contents[n..], pp.accepted, pp.delivered + pp.contents[..n]);
      var k1 := SetStream(Awake(k, p), i, pp.contents[n..], pp.accepted, pp.delivered + pp.contents[..n]);
      evs := WakeLeads(k1, i, WriteEnd, 1);
    }
  }

  lemma FilledLeads(k: K, p: nat, i: nat, data: seq<byte>) returns (evs: seq<Ev>)
    requires KernelInv(k) && Current(k, p) && i < PIPE_MAX && i < |k.pipes|
    requires |k.pipes[i].contents| + |data| <= PIPE_BUF
    ensures Leads(k, Filled(k, p, i, data), evs) && Wakes(evs)
  {
    hide KernelInv, Wake;
    var pp := k.pipes[i];
    AwakeInv(k, p);
    Contents(k, i);
    assert pp.accepted + data == pp.delivered + (pp.contents + data);
    SetStreamInv(Awake(k, p), i, pp.contents + data, pp.accepted + data, pp.delivered);
    var k1 := SetStream(Awake(k, p), i, pp.contents + data, pp.accepted + data, pp.delivered);
    evs := WakeLeads(k1, i, ReadEnd, 1);
  }

  lemma WriteLeads(k: K, p: nat, i: nat, rest: seq<byte>, written: nat) returns (evs: seq<Ev>)
    requires KernelInv(k) && Current(k, p) && i < PIPE_MAX && i < |k.pipes| && rest != []
    requires Holds(k.procs[p].fds, i, WriteEnd)
    ensures Leads(k, WriteSegment(k, p, i, rest, written).0, evs) && WakesFirst(evs)
  {
    hide KernelInv, Filled, Parted, Sleep, Holds;
    Contents(k, i);
    if k.pipes[i].readRefs <= 0 {
      evs := [];
    } else {
      var n := Min(PIPE_BUF - |k.pipes[i].contents|, |rest|);
      evs := FilledLeads(k, p, i, rest[..n]);
      FilledInv(k, p, i, rest[..n]);
      var k1 := Filled(k, p, i, rest[..n]);
      if n < |rest| {
        hide Leads;
        var t := InWrite(i, rest[n..], written + n);
        SleepLeads(k1, p, t);
        LeadsOn(k, k1, Parted(Sleep(k1, p, t), p), evs, [Sched.Stop]);
        evs := evs + [Sched.Stop];
      }
    }
  }

  /** Exit: the parent may be woken, then the processor goes to somebody else. */
  lemma BuryLeads(k: K, p: nat, code: int) returns (evs: seq<Ev>)
    requires KernelInv(k) && Current(k, p)
    ensures Leads(k, Parted(Bury(k, p, code), p), evs) && WakesFirst(evs)
  {
    var parent := k.procs[p].parent;
    var k' := Parted(Bury(k, p, code), p);
    if parent in k.procs && parent != p && k.procs[parent].state == Blocked && k.procs[parent].waitFor == p {
      evs := [Sched.Ready(parent)] + [Sched.Stop];
      var k1 := k.(sched := Sched.Step(k.sched, Sched.Ready(parent)));
      LeadsOne(k, k1, Sched.Ready(parent));
      LeadsOne(k1, k', Sched.Stop);
      LeadsOn(k, k1, k', [Sched.Ready(parent)], [Sched.Stop]);
    } else {
      evs := [Sched.Stop];
      LeadsOne(k, k', Sched.Stop);
    }
  }

  /** The processes of a table entry that is freed: those woken by its last closes, then the processor if it had it. */
  lemma VacateLeads(k: K, c: nat) returns (evs: seq<Ev>)
    requires KernelInv(k) && c in k.procs && k.procs[c].todo == User
    ensures Leads(k, Vacate(AllClosed(k, c, 0), c), evs) && WakesFirst(evs)
  {
    hide KernelInv, AllClosed, Leads;
    evs := AllClosedLeads(k, c, 0);
    var k1 := AllClosed(k, c, 0);
    if k1.sched.cpu.Runs? && k1.sched.cpu.who == c {
      LeadsOne(k1, Vacate(k1, c), Sched.Leave);
      LeadsOn(k, k1, Vacate(k1, c), evs, [Sched.Leave]);
      evs := evs + [Sched.Leave];
    } else {
      LeadsNowhere(k1, Vacate(k1, c));
      LeadsOn(k, k1, Vacate(k1, c), evs, []);
      evs := evs + [];
    }
  }

  lemma SpawnLeads(k: K, parent: nat, fds: seq<Fd>) returns (evs: seq<Ev>)
    requires KernelInv(k) && (parent == PID_NONE ==> !k.sched.cpu.Runs?)
    ensures k.nextPid in Spawn(k, parent).procs
    ensures Leads(k, Inherit(Spawn(k, parent), k.nextPid, fds, 0), evs) && WakesFirst(evs)
  {
    NewPid(k);
    hide KernelInv, Leads;
    InheritSched(Spawn(k, parent), k.nextPid, fds, 0);
    hide Inherit;
    var e := if parent == PID_NONE then Sched.Begin(k.nextPid) else Sched.Ready(k.nextPid);
    evs := [e];
    LeadsOne(k, Inherit(Spawn(k, parent), k.nextPid, fds, 0), e);
  }

  lemma NewPid(k: K)
    requires KernelInv(k)
    ensures k.nextPid !in k.sched.queue && !(k.sched.cpu.Runs? && k.sched.cpu.who == k.nextPid)
  {
    assert k.nextPid in k.procs ==> ProcOk(k, k.nextPid);
  }

  lemma {:induction false} InheritSched(k: K, c: nat, fds: seq<Fd>, n: nat)
    requires c in k.procs && n <= |fds|
    ensures Inherit(k, c, fds, n).sched == k.sched
    decreases |fds| - n
  {
    if n < |fds| && n < |k.procs[c].fds| {
      InheritSched(PutFd(k, c, n, Inherited(fds[n], n)), c, fds, n + 1);
    }
  }

  lemma TickLeads(k: K)
    requires KernelInv(k)
    ensures Leads(k, Ticked(k), [Sched.Tick])
  {
    if k.sched.active { YieldedSchedules(k); }
    hide KernelInv, Yielded;
    LeadsOne(k, Ticked(k), Sched.Tick);
  }

  lemma DescriptorLeads(k: K, p: nat, e: KernelCalls.Event) returns (evs: seq<Ev>)
    requires KernelInv(k) && Current(k, p) && k.procs[p].todo == User && Able(k, e)
    requires e.PipeCall? || e.Dup2? || e.Close? || e.Open? || e.Read? || e.Write?
    ensures Leads(k, Do(k, e).0, evs) && WakesFirst(evs)
  {
    hide KernelInv, CloseFd, ReadSegment, WriteSegment, Recount, Leads;
    Runner(k, p);
    evs := [];
    LeadsNowhere(k, k);
    match e
    case PipeCall => LeadsNowhere(k, SysPipe(k, p).0);
    case Dup2(o, n) =>
      if 0 <= n < FD_MAX && Slot(k, p, o) != NoFd && o != n && Slot(k, p, n) != NoFd {
        evs := CloseLeads(k, p, n);
        var k1 := CloseFd(k, p, n);
        LeadsNowhere(k1, PutFd(k1, p, n, Slot(k, p, o)));
        LeadsOn(k, k1, PutFd(k1, p, n, Slot(k, p, o)), evs, []);
        evs := evs + [];
      } else {
        LeadsNowhere(k, SysDup2(k, p, o, n).0);
      }
    case Close(f) => if f >= FD_STDIO && Slot(k, p, f) != NoFd { evs := CloseLeads(k, p, f); }
    case Open => LeadsNowhere(k, SysOpen(k, p).0);
    case Read(f, want) =>
      var fd := Slot(k, p, f);
      if want > 0 && fd.PipeEnd? && fd.dir == ReadEnd { evs := ReadLeads(k, p, fd.pipe, want); }
    case Write(f, data) =>
      var fd := Slot(k, p, f);
      if data != [] && fd.PipeEnd? && fd.dir == WriteEnd { evs := WriteLeads(k, p, fd.pipe, data, 0); }
  }

  lemma WaitLeads(k: K, p: nat, c: nat) returns (evs: seq<Ev>)
    requires KernelInv(k) && Current(k, p)
    ensures Leads(k, SysWaitpid(k, p, c).0, evs) && WakesFirst(evs)
  {
    hide KernelInv, AllClosed, Leads, Parted, Sleep;
    evs := [];
    LeadsNowhere(k, k);
    if c in k.procs && k.procs[c].parent == p {
      if k.procs[c].state == Zombie {
        ZombieIdle(k, c);
        evs := VacateLeads(k, c);
      } else {
        SleepLeads(k, p, InWait(c));
        evs := [Sched.Stop];
      }
    }
  }

  lemma ResumeLeads(k: K, p: nat) returns (evs: seq<Ev>)
    requires KernelInv(k) && Current(k, p) && k.procs[p].todo != User
    ensures Leads(k, Resumed(k, p).0, evs) && WakesFirst(evs)
  {
    hide KernelInv, AllClosed, Leads, ReadSegment, WriteSegment, Holds;
    Runner(k, p);
    match k.procs[p].todo
    case InRead(i, want) => evs := ReadLeads(k, p, i, want);
    case InWrite(i, rest, written) => evs := WriteLeads(k, p, i, rest, written);
    case InWait(c) =>
      WokenFindsZombie(k, p);
      AwakeInv(k, p);
      ZombieIdle(k, c);
      evs := VacateLeads(Awake(k, p), c);
      SameStart(k, Awake(k, p), Vacate(AllClosed(Awake(k, p), c, 0), c), evs);
  }

  lemma SameStart(a: K, b: K, c: K, evs: seq<Ev>)
    requires a.sched == b.sched && Leads(b, c, evs)
    ensures Leads(a, c, evs)
  {
  }

  lemma StartLeads(k: K, load: Load) returns (evs: seq<Ev>)
    requires KernelInv(k) && !k.sched.cpu.Runs?
    ensures Leads(k, KernelExec(k, load).0, evs) && WakesFirst(evs)
  {
    hide KernelInv, Leads, Inherit;
    evs := [];
    LeadsNowhere(k, Refused(k, load));
    if HasSlot(k) && load.Loaded? {
      evs := SpawnLeads(k, PID_NONE, [Console, Console, Console]);
    }
  }

  lemma ExecLeads(k: K, p: nat, load: Load) returns (evs: seq<Ev>)
    requires KernelInv(k) && Current(k, p)
    ensures Leads(k, SysExec(k, p, load).0, evs) && WakesFirst(evs)
  {
    hide KernelInv, Leads, Inherit;
    Runner(k, p);
    evs := [];
    LeadsNowhere(k, Refused(k, load));
    if HasSlot(k) && load.Loaded? {
      evs := SpawnLeads(k, p, k.procs[p].fds);
    }
  }

  lemma ExitLeads(k: K, p: nat, code: int) returns (evs: seq<Ev>)
    requires KernelInv(k) && Current(k, p) && k.procs[p].todo == User
    ensures Leads(k, SysExit(k, p, code).0, evs) && WakesFirst(evs)
  {
    hide KernelInv, Leads, AllClosed, Bury;
    if k.procs[p].parent != PID_NONE {
      evs := BuryLeads(k, p, code);
    } else {
      evs := VacateLeads(k, p);
    }
  }

  lemma CallLeads(k: K, e: KernelCalls.Event) returns (evs: seq<Ev>)
    requires KernelInv(k) && Able(k, e) && !e.Timer? && !e.Start?
    ensures Leads(k, Do(k, e).0, evs) && WakesFirst(evs)
  {
    hide KernelInv, Leads, Resumed, SysWaitpid, SysExit, SysExec;
    var p := k.sched.cpu.who;
    Runner(k, p);
    if e.Resume? {
      evs := ResumeLeads(k, p);
    } else if e.Exec? {
      evs := ExecLeads(k, p, e.load);
    } else if e.Waitpid? {
      evs := WaitLeads(k, p, e.c);
    } else if e.Exit? {
      evs := ExitLeads(k, p, e.code);
    } else {
      evs := DescriptorLeads(k, p, e);
    }
  }

  /** Every step of the kernel is a sequence of scheduling events: wake-ups, then at most one event of another kind. */
  lemma DoLeads(k: K, e: KernelCalls.Event) returns (evs: seq<Ev>)
    requires KernelInv(k) && Able(k, e)
    ensures Leads(k, Do(k, e).0, evs) && WakesFirst(evs) && (e.Timer? ==> evs == [Sched.Tick])
  {
    hide KernelInv, Leads, Ticked, KernelExec;
    if e.Timer? {
      TickLeads(k);
      evs := [Sched.Tick];
    } else if e.Start? {
      evs := StartLeads(k, e.load);
    } else {
      evs := CallLeads(k, e);
    }
  }

  // ---------------------------------------------------------------- bounded waiting

  /** How many timer ticks a queued process still has to wait at most. */
  function Due(s: State<nat>, p: nat): nat {
    2 * Position(s.queue, p) + s.ticks
  }

  lemma StepDue(s: State<nat>, e: Ev, p: nat)
    requires Sched.Inv(s) && s.active && Sched.Enabled(s, e) && p in s.queue && !e.Remove?
    ensures var s' := Sched.Step(s, e);
            && Sched.Inv(s') && s'.active
            && (Sched.OnCpu(s', p) || (p in s'.queue && Due(s', p) <= Due(s, p) - if e.Tick? then 1 else 0))
    ensures e.Ready? ==> p in Sched.Step(s, e).queue
  {
    StepInv(s, e);
    StepForward(s, e, p);
  }

  /** Wake-ups, then one more event. */
  lemma {:induction false} LeadsDue(s: State<nat>, evs: seq<Ev>, p: nat)
    requires Sched.Inv(s) && s.active && Runnable(s, evs) && p in s.queue && WakesFirst(evs)
    ensures var s' := After(s, evs);
            Sched.OnCpu(s', p) || (p in s'.queue && Due(s', p) <= Due(s, p) - if evs == [Sched.Tick] then 1 else 0)
    decreases |evs|
  {
    hide Sched.Inv, Sched.Step, Due;
    if evs != [] {
      assert !evs[0].Remove? by { if |evs| > 1 { assert evs[..|evs| - 1][0] == evs[0]; } }
      StepDue(s, evs[0], p);
      var s1 := Sched.Step(s, evs[0]);
      if |evs| == 1 {
        assert evs == [evs[0]] && After(s1, evs[1..]) == s1;
      } else {
        assert evs[..|evs| - 1][0].Ready?;
        assert evs[1..][..|evs| - 2] == evs[..|evs| - 1][1..];
        NotBoth(s1, p);
        LeadsDue(s1, evs[1..], p);
      }
    }
  }

  lemma NotBoth(s: State<nat>, p: nat)
    requires Sched.Inv(s) && p in s.queue
    ensures !Sched.OnCpu(s, p)
  {
  }

  /** A process has the processor in the state. */
  predicate Served(k: K, p: nat) {
    k.sched.cpu.Runs? && k.sched.cpu.who == p
  }

  /** In each step a queued process gets the processor, or comes no further from it; a tick brings it nearer. */
  lemma DoDue(k: K, e: KernelCalls.Event, p: nat)
    requires KernelInv(k) && Able(k, e) && p in k.sched.queue
    ensures var k' := Do(k, e).0;
            Served(k', p) || (p in k'.sched.queue && Due(k'.sched, p) <= Due(k.sched, p) - if e.Timer? then 1 else 0)
  {
    var evs := DoLeads(k, e);
    ActiveInv(k);
    hide KernelInv, Do, Due;
    LeadsDue(k.sched, evs, p);
  }

  lemma ActiveInv(k: K)
    requires KernelInv(k)
    ensures Sched.Inv(k.sched) && (k.sched.queue != [] ==> k.sched.active)
  {
  }

  /** At some point of the run the process has the processor. */
  predicate ServedIn(k: K, run: seq<KernelCalls.Event>, p: nat)
    requires Possible(k, run)
    decreases |run|
  {
    Served(k, p) || (run != [] && ServedIn(Do(k, run[0]).0, run[1..], p))
  }

  function Timers(run: seq<KernelCalls.Event>): nat {
    if run == [] then 0 else (if run[0].Timer? then 1 else 0) + Timers(run[1..])
  }

  /**
   Bounded waiting in the kernel: from position `n` of the ready queue a process gets the
   processor within 2 (n + 1) timer ticks, whatever calls processes make in between.
   */
  lemma {:induction false} WaitingBounded(k: K, run: seq<KernelCalls.Event>, p: nat)
    requires KernelInv(k) && Possible(k, run) && p in k.sched.queue
    requires Timers(run) >= Due(k.sched, p)
    ensures ServedIn(k, run, p)
    decreases |run|
  {
    ActiveInv(k);
    hide KernelInv, Do, Served, Sleeps;
    if run != [] {
      DoDue(k, run[0], p);
      DoInv(k, run[0]);
      var k1 := Do(k, run[0]).0;
      if !Served(k1, p) {
        WaitingBounded(k1, run[1..], p);
      }
    }
  }

  lemma WaitingTicks(k: K, run: seq<KernelCalls.Event>, p: nat)
    requires KernelInv(k) && Possible(k, run) && p in k.sched.queue
    requires Timers(run) >= 2 * (Position(k.sched.queue, p) + 1)
    ensures ServedIn(k, run, p)
  {
    ActiveInv(k);
    hide KernelInv, Possible;
    WaitingBounded(k, run, p);
  }
}
