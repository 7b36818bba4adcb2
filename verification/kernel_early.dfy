/**
 Two runs from boot that leave the process table in disorder: one without memory for a child
 (src/kernel/process/process.c), one in which the first program reads its own empty pipe before
 the scheduler is active (src/kernel/scheduler/scheduler.c, src/kernel/sync/wait_queue.c).
 */
module KernelEarly {
  import opened Kernel
  import opened KernelOps
  import opened KernelCalls
  import opened KernelRuns
  import opened KernelPlaces
  import opened KernelStuck
  import Sched

  /** A program is started, and its child finds no memory. */
  function StrandingRun(): seq<Event> {
    [Start(Loaded)] + ([Exec(NoMemory)] + [])
  }

  lemma ExecStrands(k: K, fds: seq<Fd>)
    requires Stage(k, 1, [], 2, 1) && Has(k, 1, fds)
    ensures Able(k, Exec(NoMemory)) && Strands(k, Exec(NoMemory))
    ensures Do(k, Exec(NoMemory)).0.stranded == {2} && Do(k, Exec(NoMemory)).0.procs == k.procs
  {
    FewProcesses(k.procs, 1);
  }

  /** Process 2 then has an entry in the table, and is nowhere: it never runs, and nobody waits for it. */
  lemma StrandedExample(k: K)
    requires Boot(k)
    ensures Possible(k, StrandingRun()) && KernelInv(Final(k, StrandingRun()))
    ensures var k' := Final(k, StrandingRun()); InTable(k', 2) && Nowhere(k', 2) && 2 !in k'.procs
  {
    hide KernelInv, Do, Possible, Final, SleptFirst, Nowhere;
    Started(k);
    var k1 := Do(k, Start(Loaded)).0;
    ExecStrands(k1, k1.procs[1].fds);
    var k2 := Do(k1, Exec(NoMemory)).0;
    FinalNone(k2);
    RunStep(k1, Exec(NoMemory), []);
    RunStep(k, Start(Loaded), [Exec(NoMemory)] + []);
    NothingSlept(k2);
    InvExactly(k, StrandingRun());
    InvPlaces(k2, 2);
  }

  lemma NothingSlept(k: K)
    ensures !SleptFirst(k, [])
  {
  }

  /** A program opens a pipe and reads it. */
  function EarlyRun(): seq<Event> {
    [Start(Loaded)] + ([PipeCall] + ([Read(3, 1)] + []))
  }

  lemma ReadsEarly(k: K, fds: seq<Fd>)
    requires Stage(k, 1, [], 2, 1) && Has(k, 1, fds) && fds[3] == R && ReadSleeps(k.pipes[0])
    ensures Able(k, Read(3, 1)) && Sleeps(k, Read(3, 1))
    ensures var k' := Do(k, Read(3, 1)).0;
            IsAt(k', 1, OnCpu) && IsAt(k', 1, InReaders(0)) && 1 in k'.procs && Spinning(k')
  {
    SleepingReader(k, 1, 0, 1);
  }

  /** It is then on the processor and in the wait queue of the pipe at once, for ever. */
  lemma EarlyExample(k: K)
    requires Boot(k)
    ensures Possible(k, EarlyRun()) && !KernelInv(Final(k, EarlyRun())) && Spinning(Final(k, EarlyRun()))
    ensures var k' := Final(k, EarlyRun());
            IsAt(k', 1, OnCpu) && IsAt(k', 1, InReaders(0)) && 1 in k'.procs
  {
    hide KernelInv, Do, Possible, Final, SleptFirst, IsAt, Spinning, Counted;
    Started(k);
    var k1 := Do(k, Start(Loaded)).0;
    var fds := k1.procs[1].fds;
    Piped(k1, fds);
    FreshIdle(FREE_PIPE);
    var k2 := Do(k1, PipeCall).0;
    ReadsEarly(k2, fds[3 := R][4 := W]);
    var k3 := Do(k2, Read(3, 1)).0;
    FinalNone(k3);
    RunStep(k2, Read(3, 1), []);
    RunStep(k1, PipeCall, [Read(3, 1)] + []);
    RunStep(k, Start(Loaded), [PipeCall] + ([Read(3, 1)] + []));
    InvExactly(k, EarlyRun());
  }
}
