/**
 A run from boot that leaves a reader asleep beside data: a program opens a pipe, starts two
 children that read from it, and writes one byte (src/kernel/syscall/sys_io.c).
 */
module KernelStuck {
  import opened Kernel
  import opened KernelOps
  import opened KernelCalls
  import opened KernelRuns
  import opened KernelPlaces
  import opened KernelFlow
  import opened KernelEffects
  import Sched

  /** Process `cpu` runs, `queue` waits, and the processes are 1 to `n`. */
  ghost predicate Stage(k: K, cpu: nat, queue: seq<nat>, ticks: nat, n: nat) {
    && k.sched == Sched.State(queue, Sched.Runs(cpu, true), ticks, n > 1) && k.nextPid == n + 1
    && |k.pipes| == PIPE_MAX && k.stranded == {} && forall p :: p in k.procs <==> 1 <= p <= n
  }

  /** Process `p` is in user code and has these descriptors. */
  predicate Has(k: K, p: nat, fds: seq<Fd>) {
    p in k.procs && k.procs[p].fds == fds && k.procs[p].todo == User && |fds| == FD_MAX
  }

  /** Every process but `p` has the descriptors and the call in progress that it had. */
  predicate Others(k: K, k': K, p: nat) {
    forall q :: q in k.procs && q != p ==>
      q in k'.procs && k'.procs[q].fds == k.procs[q].fds && k'.procs[q].todo == k.procs[q].todo
  }

  const R := PipeEnd(0, ReadEnd)
  const W := PipeEnd(0, WriteEnd)

  // ---------------------------------------------------------------- the steps

  lemma Started(k: K)
    requires Boot(k)
    ensures Able(k, Start(Loaded)) && Stage(Do(k, Start(Loaded)).0, 1, [], 2, 1)
    ensures Do(k, Start(Loaded)).0.pipes == k.pipes
    ensures var k' := Do(k, Start(Loaded)).0; Has(k', 1, k'.procs[1].fds)
    ensures var fds := Do(k, Start(Loaded)).0.procs[1].fds;
            fds[0] == fds[1] == fds[2] == Console && forall f :: 3 <= f < FD_MAX ==> fds[f] == NoFd
  {
    hide PutFd;
    var k1, c := Spawn(k, PID_NONE), [Console, Console, Console];
    ConsolePut(k1, 1, 0);
    var k2 := PutFd(k1, 1, 0, Console);
    ConsolePut(k2, 1, 1);
    var k3 := PutFd(k2, 1, 1, Console);
    ConsolePut(k3, 1, 2);
    var k4 := PutFd(k3, 1, 2, Console);
    assert Inherit(k4, 1, c, 3) == k4;
    assert Inherit(k3, 1, c, 2) == k4;
    assert Inherit(k2, 1, c, 1) == k4;
  }

  lemma ConsolePut(k: K, p: nat, f: nat)
    requires p in k.procs && f < |k.procs[p].fds| && k.procs[p].fds[f] == NoFd
    ensures PutFd(k, p, f, Console) == k.(procs := k.procs[p := k.procs[p].(fds := k.procs[p].fds[f := Console])])
  {
  }

  lemma Piped(k: K, fds: seq<Fd>)
    requires Stage(k, 1, [], 2, 1) && Has(k, 1, fds) && k.pipes[0] == FREE_PIPE && fds[3] == fds[4] == NoFd
    ensures Able(k, PipeCall) && Stage(Do(k, PipeCall).0, 1, [], 2, 1) && Has(Do(k, PipeCall).0, 1, fds[3 := R][4 := W])
    ensures Do(k, PipeCall).0.pipes[0] == Counted(Counted(FREE_PIPE, ReadEnd, 1), WriteEnd, 1)
  {
    hide PutFd, Counted;
    assert FreePipe(k.pipes, 0) == 0;
    assert FreeSlot(fds, 3) == 3 && FreeSlot(fds, 4) == 4;
    var k1 := k.(pipes := k.pipes[0 := FREE_PIPE]);
    PutEmpty(k1, 1, 3, 0, ReadEnd);
    PutEmpty(PutFd(k1, 1, 3, R), 1, 4, 0, WriteEnd);
  }

  /** dup2 of a pipe end over a console slot. */
  lemma Duped(k: K, fds: seq<Fd>, o: nat, n: nat, d: Dir)
    requires Stage(k, 1, [], 2, 1) && Has(k, 1, fds) && o < FD_MAX && n < FD_MAX && o != n
    requires fds[o] == PipeEnd(0, d) && fds[n] == Console
    ensures Able(k, Dup2(o, n)) && Stage(Do(k, Dup2(o, n)).0, 1, [], 2, 1)
    ensures Has(Do(k, Dup2(o, n)).0, 1, fds[n := fds[o]])
    ensures Do(k, Dup2(o, n)).0.pipes[0] == Counted(k.pipes[0], d, 1)
  {
    ConsoleClosed(k, 1, n);
    hide PutFd, CloseFd, Counted;
    PutEmpty(CloseFd(k, 1, n), 1, n, 0, d);
    SetTwice(fds, n, NoFd, fds[o]);
  }

  lemma ConsoleClosed(k: K, p: nat, f: nat)
    requires p in k.procs && f < |k.procs[p].fds| && k.procs[p].fds[f] == Console
    ensures CloseFd(k, p, f) == k.(procs := k.procs[p := k.procs[p].(fds := k.procs[p].fds[f := NoFd])])
  {
  }

  /** Slots that are not pipe ends leave the pipes alone. */
  lemma {:induction false} InheritRest(k: K, c: nat, fds: seq<Fd>, n: nat)
    requires c in k.procs && |k.procs[c].fds| == |fds| && n <= |fds|
    requires forall f :: n <= f < |fds| ==> k.procs[c].fds[f] == NoFd && !Inherited(fds[f], f).PipeEnd?
    ensures Inherit(k, c, fds, n).pipes == k.pipes
    decreases |fds| - n
  {
    if n < |fds| {
      InheritRest(PutFd(k, c, n, Inherited(fds[n], n)), c, fds, n + 1);
    }
  }

  /** A child with pipe ends on its first two slots counts both. */
  lemma InheritTwo(k: K, c: nat, fds: seq<Fd>)
    requires c in k.procs && |k.procs[c].fds| == |fds| == FD_MAX
    requires (forall f :: 0 <= f < FD_MAX ==> k.procs[c].fds[f] == NoFd)
    requires 0 < |k.pipes| && fds[0] == R && fds[1] == W && !fds[2].PipeEnd?
    ensures var k' := Inherit(k, c, fds, 0);
            |k'.pipes| == |k.pipes| && k'.pipes[0] == Counted(Counted(k.pipes[0], ReadEnd, 1), WriteEnd, 1)
  {
    hide PutFd, Counted;
    PutEmpty(k, c, 0, 0, ReadEnd);
    var k1 := PutFd(k, c, 0, R);
    PutEmpty(k1, c, 1, 0, WriteEnd);
    var k2 := PutFd(k1, c, 1, W);
    InheritRest(k2, c, fds, 2);
    assert Inherit(k1, c, fds, 1) == Inherit(k2, c, fds, 2);
  }

  lemma FewProcesses(procs: map<nat, Proc>, n: nat)
    requires n <= 3 && forall p :: p in procs <==> 1 <= p <= n
    ensures |procs| < PROCESS_MAX
  {
    assert procs.Keys <= {1, 2, 3};
    Subset(procs.Keys, {1, 2, 3});
  }

  lemma {:induction false} Subset(a: set<nat>, b: set<nat>)
    requires a <= b
    ensures |a| <= |b|
  {
    if a != {} {
      var x :| x in a;
      Subset(a - {x}, b - {x});
    }
  }

  /** exec of a child that reads the pipe. */
  lemma Spawned(k: K, queue: seq<nat>, n: nat, fds: seq<Fd>)
    requires Stage(k, 1, queue, 2, n) && 1 <= n <= 3 && Has(k, 1, fds) && fds[0] == R && fds[1] == W && !fds[2].PipeEnd?
    ensures Able(k, Exec(Loaded))
    ensures var k' := Do(k, Exec(Loaded)).0;
            && Stage(k', 1, queue + [n + 1], 2, n + 1) && Others(k, k', n + 1) && Has(k', n + 1, k'.procs[n + 1].fds)
            && k'.procs[n + 1].fds[0] == R && Launches(k, Exec(Loaded))
            && k'.pipes[0] == Counted(Counted(k.pipes[0], ReadEnd, 1), WriteEnd, 1)
  {
    hide Inherit, Counted;
    FewProcesses(k.procs, n);
    InheritTwo(Spawn(k, 1), n + 1, fds);
    InheritFds(Spawn(k, 1), n + 1, fds, 0);
  }

  lemma TickedOnce(k: K, p: nat, queue: seq<nat>, n: nat)
    requires Stage(k, p, queue, 2, n) && n > 1
    ensures Stage(Do(k, Timer).0, p, queue, 1, n) && Do(k, Timer).0.procs == k.procs && Do(k, Timer).0.pipes == k.pipes
  {
  }

  /** The slice is over. */
  lemma TickedOut(k: K, p: nat, q: nat, rest: seq<nat>, n: nat)
    requires Stage(k, p, [q] + rest, 1, n) && 1 <= p <= n && 1 <= q <= n && n > 1
    ensures var k' := Do(k, Timer).0; Stage(k', q, rest + [p], 2, n) && Others(k, k', 0) && k'.pipes == k.pipes
  {
    assert ([q] + rest + [p])[1..] == rest + [p];
  }

  /** A reader of the empty pipe goes to sleep. */
  lemma Slept(k: K, p: nat, q: nat, rest: seq<nat>, n: nat, fds: seq<Fd>)
    requires Stage(k, p, [q] + rest, 2, n) && p != q && 1 <= q <= n && n > 1 && Has(k, p, fds) && fds[0] == R
    requires k.pipes[0].contents == [] && k.pipes[0].writeRefs > 0
    ensures Able(k, Read(0, 1))
    ensures var k' := Do(k, Read(0, 1)).0;
            && Stage(k', q, rest, 2, n) && Others(k, k', p)
            && k'.pipes[0] == k.pipes[0].(readers := k.pipes[0].readers + [p])
  {
    assert ([q] + rest)[1..] == rest;
  }

  /** One byte wakes one reader. */
  lemma WroteOne(k: K, n: nat, fds: seq<Fd>)
    requires Stage(k, 1, [], 2, n) && Has(k, 1, fds) && fds[1] == W
    requires k.pipes[0].contents == [] && k.pipes[0].readRefs > 0 && k.pipes[0].readers == [2, 3]
    ensures Able(k, Write(1, [7]))
    ensures var k' := Do(k, Write(1, [7])).0;
            |k'.pipes| == PIPE_MAX && k'.pipes[0].readers == [3] && k'.pipes[0].contents == [7]
  {
    assert [7][..1] == [7 as byte];
    FilledPipes(k, 1, 0, [7]);
    hide Filled;
  }

  // ---------------------------------------------------------------- the run

  lemma RunStep(k: K, e: Event, run: seq<Event>)
    requires Able(k, e) && Possible(Do(k, e).0, run)
    ensures Possible(k, [e] + run) && Final(k, [e] + run) == Final(Do(k, e).0, run)
    ensures SleptFirst(k, [e] + run) <==> !Launches(k, e) && (Sleeps(k, e) || SleptFirst(Do(k, e).0, run))
  {
    hide Do, Sleeps, Launches;
    assert ([e] + run)[1..] == run;
  }

  function Readers(): seq<Event> {
    [Timer] + ([Timer] + ([Read(0, 1)] + ([Read(0, 1)] + ([Write(1, [7])] + []))))
  }

  /** The second half: both children sleep, then a byte comes. */
  lemma ReadersStuck(k: K, fds: seq<Fd>)
    requires Stage(k, 1, [2, 3], 2, 3) && Has(k, 1, fds) && fds[1] == W
    requires Has(k, 2, k.procs[2].fds) && k.procs[2].fds[0] == R && Has(k, 3, k.procs[3].fds) && k.procs[3].fds[0] == R
    requires k.pipes[0].contents == [] && k.pipes[0].readRefs > 0 && k.pipes[0].writeRefs > 0
    requires k.pipes[0].readers == []
    ensures Possible(k, Readers())
    ensures var k' := Final(k, Readers());
            |k'.pipes| == PIPE_MAX && k'.pipes[0].readers == [3] && k'.pipes[0].contents == [7]
  {
    hide Do, Possible, Final;
    TickedOnce(k, 1, [2, 3], 3);
    var k1 := Do(k, Timer).0;
    assert [2] + [3] == [2, 3] && [3] + [1] == [3, 1] && [1] + [] == [1];
    TickedOut(k1, 1, 2, [3], 3);
    var k2 := Do(k1, Timer).0;
    Slept(k2, 2, 3, [1], 3, k.procs[2].fds);
    var k3 := Do(k2, Read(0, 1)).0;
    Slept(k3, 3, 1, [], 3, k.procs[3].fds);
    var k4 := Do(k3, Read(0, 1)).0;
    WroteOne(k4, 3, fds);
    hide Stage, Has, Others;
    var r1 := [Write(1, [7])] + [];
    FinalNone(Do(k4, Write(1, [7])).0);
    RunStep(k4, Write(1, [7]), []);
    RunStep(k3, Read(0, 1), r1);
    RunStep(k2, Read(0, 1), [Read(0, 1)] + r1);
    RunStep(k1, Timer, [Read(0, 1)] + ([Read(0, 1)] + r1));
    RunStep(k, Timer, [Timer] + ([Read(0, 1)] + ([Read(0, 1)] + r1)));
  }

  lemma FinalNone(k: K)
    ensures Possible(k, []) && Final(k, []) == k
  {
  }

  function Children(): seq<Event> {
    [Exec(Loaded)] + ([Exec(Loaded)] + Readers())
  }

  /** The children are started. */
  lemma ChildrenStuck(k: K, fds: seq<Fd>)
    requires Stage(k, 1, [], 2, 1) && Has(k, 1, fds) && fds[0] == R && fds[1] == W && !fds[2].PipeEnd?
    requires k.pipes[0].contents == [] && k.pipes[0].readRefs > 0 && k.pipes[0].writeRefs > 0
    requires k.pipes[0].readers == []
    ensures Possible(k, Children()) && !SleptFirst(k, Children())
    ensures var k' := Final(k, Children());
            |k'.pipes| == PIPE_MAX && k'.pipes[0].readers == [3] && k'.pipes[0].contents == [7]
  {
    hide Do, Possible, Final;
    Spawned(k, [], 1, fds);
    var k1 := Do(k, Exec(Loaded)).0;
    assert [] + [2] == [2] && [2] + [3] == [2, 3];
    Spawned(k1, [2], 2, fds);
    var k2 := Do(k1, Exec(Loaded)).0;
    ReadersStuck(k2, fds);
    hide Stage, Has, Others, Readers;
    RunStep(k1, Exec(Loaded), Readers());
    RunStep(k, Exec(Loaded), [Exec(Loaded)] + Readers());
  }

  /** An empty pipe with nobody asleep, both ends open. */
  predicate Idle(p: Pipe) {
    p.contents == [] && p.readRefs > 0 && p.writeRefs > 0 && p.readers == []
  }

  lemma IdleCounted(p: Pipe, d: Dir)
    requires Idle(p)
    ensures Idle(Counted(p, d, 1))
  {
  }

  lemma FreshIdle(p: Pipe)
    requires p.contents == [] && p.readRefs >= 0 && p.writeRefs >= 0 && p.readers == []
    ensures Idle(Counted(Counted(p, ReadEnd, 1), WriteEnd, 1))
  {
  }

  function Copies(): seq<Event> {
    [Dup2(3, 0)] + ([Dup2(4, 1)] + Children())
  }

  /** The read end is copied to slot 0 and the write end to slot 1. */
  lemma CopiesStuck(k: K, fds: seq<Fd>)
    requires Stage(k, 1, [], 2, 1) && Has(k, 1, fds) && Idle(k.pipes[0])
    requires fds[0] == fds[1] == fds[2] == Console && fds[3] == R && fds[4] == W
    ensures Possible(k, Copies()) && !SleptFirst(k, Copies())
    ensures var k' := Final(k, Copies());
            |k'.pipes| == PIPE_MAX && k'.pipes[0].readers == [3] && k'.pipes[0].contents == [7]
  {
    hide Do, Possible, Final, Counted;
    Duped(k, fds, 3, 0, ReadEnd);
    var k3, f3 := Do(k, Dup2(3, 0)).0, fds[0 := R];
    Duped(k3, f3, 4, 1, WriteEnd);
    var k4, f4 := Do(k3, Dup2(4, 1)).0, f3[1 := W];
    IdleCounted(k.pipes[0], ReadEnd);
    IdleCounted(k3.pipes[0], WriteEnd);
    ChildrenStuck(k4, f4);
    hide Stage, Has, Children;
    RunStep(k3, Dup2(4, 1), Children());
    RunStep(k, Dup2(3, 0), [Dup2(4, 1)] + Children());
  }

  function Ends2(): seq<Event> {
    [PipeCall] + Copies()
  }

  /** The pipe is opened. */
  lemma EndsStuck(k: K, fds: seq<Fd>)
    requires Stage(k, 1, [], 2, 1) && Has(k, 1, fds) && k.pipes[0] == FREE_PIPE
    requires fds[0] == fds[1] == fds[2] == Console && fds[3] == fds[4] == NoFd
    ensures Possible(k, Ends2()) && !SleptFirst(k, Ends2())
    ensures var k' := Final(k, Ends2());
            |k'.pipes| == PIPE_MAX && k'.pipes[0].readers == [3] && k'.pipes[0].contents == [7]
  {
    hide Do, Possible, Final, Copies, Counted, Idle;
    Piped(k, fds);
    FreshIdle(FREE_PIPE);
    CopiesStuck(Do(k, PipeCall).0, fds[3 := R][4 := W]);
    hide Stage, Has;
    RunStep(k, PipeCall, Copies());
  }

  /** A program that does all this. */
  function StuckRun(): seq<Event> {
    [Start(Loaded)] + Ends2()
  }

  /**
   From boot, two readers of one pipe and one byte written: a reader sleeps on beside the byte,
   in a state in order.
   */
  lemma TwoReadersStuck(k: K)
    requires Boot(k)
    ensures Possible(k, StuckRun()) && KernelInv(Final(k, StuckRun())) && !Flows(Final(k, StuckRun()))
    ensures var k' := Final(k, StuckRun()); 0 < |k'.pipes| && k'.pipes[0].readers == [3] && k'.pipes[0].contents == [7]
  {
    hide Do, KernelInv, Possible, Final, Flows, Ends2;
    BootInv(k);
    Started(k);
    var k1 := Do(k, Start(Loaded)).0;
    EndsStuck(k1, k1.procs[1].fds);
    hide Stage, Has, Boot;
    RunStep(k, Start(Loaded), Ends2());
    InvExactly(k, StuckRun());
    NotFlowing(Final(k, StuckRun()));
  }

  lemma NotFlowing(k: K)
    requires 0 < |k.pipes| && k.pipes[0].readers != [] && k.pipes[0].contents != []
    ensures !Flows(k)
  {
    assert !Flowing(k.pipes[0]);
  }
}
