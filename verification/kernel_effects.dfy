/**
 What every event does, seen from its result: which bytes a read returns and takes, what a write
 appends, which child waitpid collects, and which descriptors each call leaves
 (src/kernel/syscall/sys_io.c, sys_proc.c, fd_table.c, src/kernel/usermode/exec.c).
 */
module KernelEffects {
  import opened Kernel
  import opened KernelOps
  import opened KernelCalls
  import opened KernelRuns
  import opened KernelWakes
  import Sched

  // ---------------------------------------------------------------- reads

  /** The event is a read of `want` bytes from pipe `i`, or the rest of one. */
  predicate Reading(k: K, e: Event, i: nat, want: nat) {
    && Able(k, e) && want > 0
    && match e
       case Read(f, n) => n == want && Slot(k, k.sched.cpu.who, f) == PipeEnd(i, ReadEnd)
       case Resume => k.procs[k.sched.cpu.who].todo == InRead(i, want)
       case _ => false
  }

  /** No process but `p` has changed, except to become ready or to get the processor. */
  predicate OnlyStates(k: K, k': K, p: nat) {
    && k'.procs.Keys == k.procs.Keys
    && forall q :: q in k.procs && q != p ==> k'.procs[q] == k.procs[q].(state := k'.procs[q].state)
  }

  /** The first of the waiting processes, if any, becomes ready. */
  predicate FirstReady(k: K, k': K, p: nat, waiters: seq<nat>) {
    && k'.procs.Keys == k.procs.Keys && p in k.procs
    && (forall q :: q in k.procs ==>
          var was := if q == p then k.procs[q].(todo := User) else k.procs[q];
          k'.procs[q] == if waiters != [] && q == waiters[0] then was.(state := ReadyToRun) else was)
    && (k'.sched ==
        if waiters == [] then k.sched else k.sched.(queue := k.sched.queue + [waiters[0]], active := true))
    && k'.stranded == k.stranded && k'.nextPid == k.nextPid && k'.exited == k.exited && k'.log == k.log
  }

  /** Process `p` sleeps with `t` to do. */
  predicate FallsAsleep(k: K, k': K, p: nat, t: Todo) {
    && OnlyStates(k, k', p) && p in k.procs
    && k'.procs[p] == k.procs[p].(state := Blocked, todo := t, waitFor := if t.InWait? then t.child else PID_NONE)
    && k'.stranded == k.stranded && k'.nextPid == k.nextPid && k'.exited == k.exited && k'.log == k.log
  }

  /**
   A read takes as many of the first bytes as there are and it wants; with none there, it is end of
   file if no write end is open, and otherwise sleep.
   */
  ghost predicate ReadOutcome(k: K, k': K, ret: Ret, p: nat, i: nat, want: nat) {
    i < |k.pipes| && p in k.procs &&
    var pp := k.pipes[i];
    if pp.contents != [] then
      var n := if |pp.contents| <= want then |pp.contents| else want;
      && ret == Bytes(pp.contents[..n]) && FirstReady(k, k', p, pp.writers)
      && k'.pipes == k.pipes[i := pp.(contents := pp.contents[n..], delivered := pp.delivered + pp.contents[..n],
                                      writers := if pp.writers == [] then [] else pp.writers[1..])]
    else if Ends(k.procs, i, WriteEnd) == {} then
      ret == Bytes([]) && k'.pipes == k.pipes && FirstReady(k, k', p, [])
    else
      && ret == Asleep && FallsAsleep(k, k', p, InRead(i, want))
      && k'.pipes == k.pipes[i := pp.(readers := pp.readers + [p])]
  }

  lemma NoWriteEnds(k: K, i: nat)
    requires KernelInv(k) && i < PIPE_MAX
    ensures i < |k.pipes| && (k.pipes[i].writeRefs <= 0 <==> Ends(k.procs, i, WriteEnd) == {})
    ensures k.pipes[i].readRefs <= 0 <==> Ends(k.procs, i, ReadEnd) == {}
  {
    assert PipeOk(k, i);
    hide KernelInv, Ends;
  }

  lemma DrainedState(k: K, p: nat, i: nat, n: nat)
    requires p in k.procs && i < |k.pipes| && n <= |k.pipes[i].contents|
    ensures var pp, k' := k.pipes[i], Drained(k, p, i, n);
            && FirstReady(k, k', p, pp.writers)
            && k'.pipes == k.pipes[i := pp.(contents := pp.contents[n..], delivered := pp.delivered + pp.contents[..n],
                                            writers := if pp.writers == [] then [] else pp.writers[1..])]
  {
    assert Woken(k.pipes[i], WriteEnd, 1) == if k.pipes[i].writers == [] then [] else [k.pipes[i].writers[0]];
  }

  lemma SleepState(k: K, p: nat, t: Todo)
    requires Current(k, p) && p !in k.sched.queue
    ensures FallsAsleep(k, Parted(Sleep(k, p, t), p), p, t)
  {
    hide Sched.Schedule;
  }

  lemma Unqueued(k: K, p: nat)
    requires KernelInv(k) && Current(k, p)
    ensures p !in k.sched.queue
  {
    assert ProcOk(k, p);
  }

  lemma SegmentReads(k: K, p: nat, i: nat, want: nat)
    requires KernelInv(k) && Current(k, p) && i < PIPE_MAX && i < |k.pipes| && want > 0
    ensures var (k', ret) := ReadSegment(k, p, i, want); ReadOutcome(k, k', ret, p, i, want)
  {
    NoWriteEnds(k, i);
    Unqueued(k, p);
    hide KernelInv, Drained, Sleep, Parted, FirstReady, FallsAsleep, Ends;
    var pp := k.pipes[i];
    if pp.contents != [] {
      DrainedState(k, p, i, Min(|pp.contents|, want));
    } else if pp.writeRefs <= 0 {
      AwakeState(k, p);
    } else {
      SleepingReader(k, p, i, want);
      SleepState(k, p, InRead(i, want));
    }
  }

  lemma AwakeState(k: K, p: nat)
    requires p in k.procs
    ensures FirstReady(k, Awake(k, p), p, []) && Awake(k, p).pipes == k.pipes
  {
  }

  /** What a read does, called or resumed. */
  lemma ReadEffect(k: K, e: Event, i: nat, want: nat)
    requires KernelInv(k) && Reading(k, e, i, want)
    ensures i < PIPE_MAX && ReadOutcome(k, Do(k, e).0, Do(k, e).1, k.sched.cpu.who, i, want)
  {
    hide KernelInv, ReadSegment, WriteSegment, WaitResumed, ReadOutcome;
    var p := k.sched.cpu.who;
    Runner(k, p);
    if e.Resume? { TodoIn(k, p); }
    SegmentReads(k, p, i, want);
  }

  lemma TodoIn(k: K, p: nat)
    requires KernelInv(k) && Current(k, p)
    ensures match k.procs[p].todo
            case InRead(i, want) => i < PIPE_MAX && want > 0
            case InWrite(i, rest, _) => i < PIPE_MAX && rest != []
            case InWait(c) => c in k.procs && c != p && k.procs[c].parent == p && k.procs[c].state == Zombie
            case User => true
  {
    assert ProcOk(k, p);
  }

  /** A read of anything but a read end of a pipe changes nothing. */
  lemma ReadRefused(k: K, f: int, want: nat)
    requires KernelInv(k) && Able(k, Read(f, want))
    requires forall i :: !Reading(k, Read(f, want), i, want)
    ensures var (k', ret) := Do(k, Read(f, want));
            var fd := Slot(k, k.sched.cpu.who, f);
            && k' == k
            && ret == if want == 0 then Value(0) else if fd.Console? || fd.File? then Elsewhere else Value(EBADF)
  {
    var fd := Slot(k, k.sched.cpu.who, f);
    if fd.PipeEnd? { assert !Reading(k, Read(f, want), fd.pipe, want); }
    Runner(k, k.sched.cpu.who);
  }

  /** End of file is reported exactly when no write end is open anywhere and every accepted byte was delivered. */
  lemma EndOfFile(k: K, e: Event, i: nat, want: nat)
    requires KernelInv(k) && Reading(k, e, i, want)
    ensures Do(k, e).1 == Bytes([]) <==>
            Ends(k.procs, i, WriteEnd) == {} && i < |k.pipes| && k.pipes[i].delivered == k.pipes[i].accepted
  {
    hide KernelInv, Do, Ends, FirstReady, FallsAsleep;
    ReadEffect(k, e, i, want);
    Contents(k, i);
    var pp := k.pipes[i];
    if pp.delivered == pp.accepted { assert |pp.accepted| == |pp.delivered| + |pp.contents|; }
  }

  /** What a read returns is the next part of what was accepted. */
  lemma ReadDelivers(k: K, e: Event, i: nat, want: nat)
    requires KernelInv(k) && Reading(k, e, i, want)
    ensures var (k', ret) := Do(k, e);
            && |k'.pipes| == |k.pipes| && i < |k.pipes| && k'.pipes[i].accepted == k.pipes[i].accepted
            && (ret.Bytes? ==>
                  |ret.b| <= want && k'.pipes[i].delivered == k.pipes[i].delivered + ret.b &&
                  k'.pipes[i].delivered <= k.pipes[i].accepted)
            && (!ret.Bytes? ==> k'.pipes[i].delivered == k.pipes[i].delivered)
  {
    hide KernelInv, Do, Ends, FirstReady, FallsAsleep;
    ReadEffect(k, e, i, want);
    Contents(k, i);
    var pp := k.pipes[i];
    if pp.contents != [] {
      var n := if |pp.contents| <= want then |pp.contents| else want;
      assert pp.accepted == (pp.delivered + pp.contents[..n]) + pp.contents[n..];
    } else {
      assert pp.delivered + [] == pp.delivered;
    }
  }

  // ---------------------------------------------------------------- writes

  /** The event is a write of `rest` to pipe `i`, of which `written` bytes went before. */
  predicate Writing(k: K, e: Event, i: nat, rest: seq<byte>, written: nat) {
    && Able(k, e) && rest != []
    && match e
       case Write(f, data) => data == rest && written == 0 && Slot(k, k.sched.cpu.who, f) == PipeEnd(i, WriteEnd)
       case Resume => k.procs[k.sched.cpu.who].todo == InWrite(i, rest, written)
       case _ => false
  }

  /**
   A write appends as many of its first bytes as fit into the 4096 of the pipe; if that is not all
   of them it sleeps with the rest.  Without a read end it is over.
   */
  ghost predicate WriteOutcome(k: K, k': K, ret: Ret, p: nat, i: nat, rest: seq<byte>, written: nat) {
    i < |k.pipes| && p in k.procs && |k.pipes[i].contents| <= 4096 &&
    var pp := k.pipes[i];
    if Ends(k.procs, i, ReadEnd) == {} then
      ret == Value(if written > 0 then written else EPIPE) && k'.pipes == k.pipes && FirstReady(k, k', p, [])
    else
      var room := 4096 - |pp.contents|;
      var n := if |rest| <= room then |rest| else room;
      var filled := pp.(contents := pp.contents + rest[..n], accepted := pp.accepted + rest[..n],
                        readers := if pp.readers == [] then [] else pp.readers[1..]);
      if |rest| <= room then
        ret == Value(written + |rest|) && FirstReady(k, k', p, pp.readers) && k'.pipes == k.pipes[i := filled]
      else
        && ret == Asleep && FallsAsleep(k, k', p, InWrite(i, rest[n..], written + n))
        && k'.pipes == k.pipes[i := filled.(writers := filled.writers + [p])]
  }

  lemma FilledState(k: K, p: nat, i: nat, data: seq<byte>)
    requires p in k.procs && i < |k.pipes|
    ensures var pp, k' := k.pipes[i], Filled(k, p, i, data);
            && FirstReady(k, k', p, pp.readers)
            && k'.pipes == k.pipes[i := pp.(contents := pp.contents + data, accepted := pp.accepted + data,
                                            readers := if pp.readers == [] then [] else pp.readers[1..])]
  {
    assert Woken(k.pipes[i], ReadEnd, 1) == if k.pipes[i].readers == [] then [] else [k.pipes[i].readers[0]];
  }

  /** Asleep after a reader was woken. */
  lemma AsleepAfter(k: K, k1: K, k': K, p: nat, waiters: seq<nat>, t: Todo)
    requires FirstReady(k, k1, p, waiters) && FallsAsleep(k1, k', p, t)
    ensures FallsAsleep(k, k', p, t)
  {
  }

  /** The part of a write that sleeps with what does not fit. */
  lemma SleepsWith(k: K, p: nat, i: nat, rest: seq<byte>, n: nat, written: nat)
    requires KernelInv(k) && Current(k, p) && i < PIPE_MAX && i < |k.pipes| && n < |rest|
    requires n + |k.pipes[i].contents| <= PIPE_BUF
    ensures var pp := k.pipes[i];
            var t := InWrite(i, rest[n..], written + n);
            var k' := Parted(Sleep(Filled(k, p, i, rest[..n]), p, t), p);
            && FallsAsleep(k, k', p, t)
            && k'.pipes == k.pipes[i := pp.(contents := pp.contents + rest[..n], accepted := pp.accepted + rest[..n],
                                            readers := if pp.readers == [] then [] else pp.readers[1..],
                                            writers := pp.writers + [p])]
  {
    hide KernelInv, Filled, Sleep, Parted, FirstReady, FallsAsleep;
    var t := InWrite(i, rest[n..], written + n);
    var k1 := Filled(k, p, i, rest[..n]);
    FilledState(k, p, i, rest[..n]);
    FilledInv(k, p, i, rest[..n]);
    FilledKeeps(k, p, i, rest[..n]);
    Unqueued(k1, p);
    SleepingWriter(k1, p, i, rest[n..], written + n);
    SleepState(k1, p, t);
    AsleepAfter(k, k1, Parted(Sleep(k1, p, t), p), p, k.pipes[i].readers, t);
  }

  lemma SegmentWrites(k: K, p: nat, i: nat, rest: seq<byte>, written: nat)
    requires KernelInv(k) && Current(k, p) && i < PIPE_MAX && i < |k.pipes| && rest != []
    ensures var (k', ret) := WriteSegment(k, p, i, rest, written); WriteOutcome(k, k', ret, p, i, rest, written)
  {
    hide KernelInv, Filled, Sleep, Parted, FirstReady, FallsAsleep, Ends;
    NoWriteEnds(k, i);
    Contents(k, i);
    var pp := k.pipes[i];
    if pp.readRefs <= 0 {
      AwakeState(k, p);
    } else {
      var n := Min(Room(pp), |rest|);
      if n == |rest| {
        assert rest[..n] == rest;
        FilledState(k, p, i, rest);
      } else {
        SleepsWith(k, p, i, rest, n, written);
      }
    }
  }

  /** What a write does, called or resumed. */
  lemma WriteEffect(k: K, e: Event, i: nat, rest: seq<byte>, written: nat)
    requires KernelInv(k) && Writing(k, e, i, rest, written)
    ensures i < PIPE_MAX && WriteOutcome(k, Do(k, e).0, Do(k, e).1, k.sched.cpu.who, i, rest, written)
  {
    hide KernelInv, ReadSegment, WriteSegment, WaitResumed, WriteOutcome;
    var p := k.sched.cpu.who;
    Runner(k, p);
    if e.Resume? { TodoIn(k, p); }
    SegmentWrites(k, p, i, rest, written);
  }

  /** The first `n` bytes of the data went in, and the result says so. */
  ghost predicate Accepts(k: K, k': K, ret: Ret, i: nat, rest: seq<byte>, written: nat, n: nat) {
    && i < |k.pipes| == |k'.pipes| && n <= |rest| && k'.pipes[i].accepted == k.pipes[i].accepted + rest[..n]
    && k'.pipes[i].delivered == k.pipes[i].delivered
    && (n < |rest| && ret.Value? ==>
          n == 0 && Ends(k.procs, i, ReadEnd) == {} && ret.v == if written > 0 then written else EPIPE)
    && (n == |rest| ==> ret == Value(written + n))
    && (ret == Asleep ==>
          Ends(k.procs, i, ReadEnd) != {} && |k'.pipes[i].contents| == PIPE_BUF && n < |rest|)
  }

  /** What a write accepts is the next part of its data, and its result counts what was accepted. */
  lemma WriteAccepts(k: K, e: Event, i: nat, rest: seq<byte>, written: nat)
    requires KernelInv(k) && Writing(k, e, i, rest, written)
    ensures exists n: nat :: Accepts(k, Do(k, e).0, Do(k, e).1, i, rest, written, n)
  {
    hide KernelInv, Do, Ends, FirstReady, FallsAsleep;
    WriteEffect(k, e, i, rest, written);
    var pp := k.pipes[i];
    var room := PIPE_BUF - |pp.contents|;
    var n := if Ends(k.procs, i, ReadEnd) == {} then 0 else if |rest| <= room then |rest| else room;
    assert pp.accepted + rest[..0] == pp.accepted;
    assert Accepts(k, Do(k, e).0, Do(k, e).1, i, rest, written, n);
  }

  /** A write to anything but a write end of a pipe changes nothing. */
  lemma WriteRefused(k: K, f: int, data: seq<byte>)
    requires KernelInv(k) && Able(k, Write(f, data))
    requires forall i :: !Writing(k, Write(f, data), i, data, 0)
    ensures var (k', ret) := Do(k, Write(f, data));
            var fd := Slot(k, k.sched.cpu.who, f);
            && k' == k
            && ret == if data == [] then Value(0) else if fd.Console? || fd.File? then Elsewhere
                      else Value(if fd.PipeEnd? then EINVAL else EBADF)
  {
    var fd := Slot(k, k.sched.cpu.who, f);
    if fd.PipeEnd? { assert !Writing(k, Write(f, data), fd.pipe, data, 0); }
    Runner(k, k.sched.cpu.who);
  }

  /** Only a read returns bytes. */
  lemma BytesAreRead(k: K, e: Event)
    requires KernelInv(k) && Able(k, e) && Do(k, e).1.Bytes?
    ensures exists i: nat, want: nat :: Reading(k, e, i, want)
  {
    hide KernelInv, Drained, Filled, Sleep, Parted, Inherit, AllClosed, CloseFd, PutFd;
    var p := k.sched.cpu.who;
    Runner(k, p);
    if e.Resume? {
      TodoIn(k, p);
      assert Reading(k, e, k.procs[p].todo.pipe, k.procs[p].todo.want);
    } else {
      assert Reading(k, e, Slot(k, p, e.f).pipe, e.want);
    }
  }

  // ---------------------------------------------------------------- waitpid

  /** The event asks for child `c`, or is the rest of such a call. */
  predicate Waiting(k: K, e: Event, c: nat) {
    Able(k, e) && (e == Waitpid(c) || (e == Resume && k.procs[k.sched.cpu.who].todo == InWait(c)))
  }

  /** A zombie that the process which runs may collect. */
  predicate Ready(k: K, c: nat) {
    c in k.procs && k.procs[c].state == Zombie && k.sched.cpu.Runs? && k.procs[c].parent == k.sched.cpu.who
  }

  /**
   Process `c` is out of the table, with all its descriptors; the others keep theirs, those whom
   this cuts off are woken, and the process that runs has ended its call.
   */
  ghost predicate Removed(k: K, k': K, c: nat) {
    && k'.procs.Keys == k.procs.Keys - {c}
    && (forall q :: q in k'.procs ==> Left(k, k', q))
    && (forall i, d :: Ends(k'.procs, i, d) == set x | x in Ends(k.procs, i, d) && x.0 != c)
    && k'.stranded == k.stranded && k'.nextPid == k.nextPid && k'.exited == k.exited
  }

  ghost predicate Left(k: K, k': K, q: nat)
    requires q in k'.procs
  {
    q in k.procs &&
    k'.procs[q] == k.procs[q].(todo := if k.procs[q].state == Running then User else k.procs[q].todo,
                               state := if CutOff(k, k', q) then ReadyToRun else k.procs[q].state)
  }

  lemma {:induction false} AllClosedFds(k: K, p: nat, n: nat, q: nat)
    requires p in k.procs && n <= |k.procs[p].fds| && q in k.procs && q != p
    ensures AllClosed(k, p, n).procs[q].fds == k.procs[q].fds
    decreases |k.procs[p].fds| - n
  {
    hide CloseFd;
    if n < |k.procs[p].fds| {
      CloseFdFds(k, p, n, q);
      AllClosedFds(CloseFd(k, p, n), p, n + 1, q);
    }
  }

  lemma EndsWithout(k: K, k': K, c: nat, i: nat, d: Dir)
    requires k'.procs.Keys == k.procs.Keys - {c}
    requires forall q :: q in k'.procs ==> k'.procs[q].fds == k.procs[q].fds
    ensures Ends(k'.procs, i, d) == set x | x in Ends(k.procs, i, d) && x.0 != c
  {
  }

  lemma Destroyed(k: K, c: nat)
    requires KernelInv(k) && c in k.procs && k.procs[c].todo == User
    requires forall q :: q in k.procs && k.procs[q].state == Running ==> k.procs[q].todo == User
    ensures Removed(k, Vacate(AllClosed(k, c, 0), c), c)
  {
    hide KernelInv, AllClosed, Ends, Left, SameProcess;
    AllClosedInv(k, c, 0);
    var k' := Vacate(AllClosed(k, c, 0), c);
    forall q | q in k'.procs ensures Left(k, k', q) && k'.procs[q].fds == k.procs[q].fds {
      AllClosedFds(k, c, 0, q);
      AllClosedWakes(k, c, 0, q);
      LeftAfter(k, AllClosed(k, c, 0), c, q);
    }
    forall i, d ensures Ends(k'.procs, i, d) == set x | x in Ends(k.procs, i, d) && x.0 != c {
      EndsWithout(k, k', c, i, d);
    }
  }

  /** A process without pipe ends leaves no end behind. */
  lemma LeftAfter(k: K, k1: K, c: nat, q: nat)
    requires c in k1.procs && q in k.procs && q != c && NoPipes(k1.procs[c].fds) && WokenIfCut(k, k1, q)
    requires k1.procs[q].fds == k.procs[q].fds && (k.procs[q].state == Running ==> k.procs[q].todo == User)
    ensures Left(k, Vacate(k1, c), q)
  {
    hide Ends;
    var k' := Vacate(k1, c);
    forall i, d ensures Ends(k'.procs, i, d) == Ends(k1.procs, i, d) {
      NoEnds(k1, c, i, d);
      EndsWithout(k1, k', c, i, d);
    }
  }

  lemma NoEnds(k: K, c: nat, i: nat, d: Dir)
    requires c in k.procs && NoPipes(k.procs[c].fds)
    ensures forall x :: x in Ends(k.procs, i, d) ==> x.0 != c
  {
  }

  lemma OneRuns(k: K)
    requires KernelInv(k) && k.sched.cpu.Runs?
    ensures forall q :: q in k.procs && k.procs[q].state == Running ==> q == k.sched.cpu.who
  {
    forall q | q in k.procs && k.procs[q].state == Running ensures q == k.sched.cpu.who {
      assert ProcOk(k, q);
    }
  }

  /**
   A wait for a zombie child hands over its exit code and takes it out, with every pipe end it had;
   nothing else is collected.  A wait for a process that is not there, is not a child, or lives is
   answered ESRCH, ECHILD, or not yet.
   */
  lemma WaitEffect(k: K, e: Event, c: nat)
    requires KernelInv(k) && Waiting(k, e, c)
    ensures var (k', ret) := Do(k, e);
            var p := k.sched.cpu.who;
            if Ready(k, c) then ret == Value(k.procs[c].exitCode) && Removed(k, k', c)
            else && e == Waitpid(c) && k'.procs.Keys == k.procs.Keys && k'.pipes == k.pipes
                 && if c in k.procs && k.procs[c].parent == p
                    then ret == Asleep && FallsAsleep(k, k', p, InWait(c))
                    else k' == k && ret == Value(if c in k.procs || c in k.stranded then ECHILD else ESRCH)
  {
    hide KernelInv, Removed, Sleep, Parted, FallsAsleep, AllClosed;
    var p := k.sched.cpu.who;
    Runner(k, p);
    TodoIn(k, p);
    Unqueued(k, p);
    OneRuns(k);
    if Ready(k, c) {
      ZombieIdle(k, c);
      if e == Waitpid(c) {
        Destroyed(k, c);
      } else {
        AwakeInv(k, p);
        Destroyed(Awake(k, p), c);
        RemovedAwake(k, Do(k, e).0, p, c);
      }
    } else if c in k.procs && k.procs[c].parent == p {
      SleepState(k, p, InWait(c));
      SleepPipes(k, p, c);
    }
  }

  lemma SleepPipes(k: K, p: nat, c: nat)
    requires Current(k, p)
    ensures Parted(Sleep(k, p, InWait(c)), p).pipes == k.pipes
    ensures Parted(Sleep(k, p, InWait(c)), p).procs.Keys == k.procs.Keys
  {
    hide Sched.Schedule;
  }

  lemma RemovedAwake(k: K, k': K, p: nat, c: nat)
    requires p in k.procs && k.procs[p].state == Running && Removed(Awake(k, p), k', c)
    ensures Removed(k, k', c)
  {
    forall i, d ensures Ends(Awake(k, p).procs, i, d) == Ends(k.procs, i, d) {
    }
    forall q | q in k'.procs ensures Left(k, k', q) {
      assert Left(Awake(k, p), k', q);
    }
    forall i, d ensures Ends(k'.procs, i, d) == set x | x in Ends(k.procs, i, d) && x.0 != c {
      EndsWithout(k, k', c, i, d);
    }
  }

  // ---------------------------------------------------------------- descriptors

  /**
   dup2 makes slot `n` what slot `o` is, touches no other slot of any process, and wakes those
   whom the close of slot `n` cuts off.
   */
  lemma Dup2Effect(k: K, o: int, n: int, q: nat)
    requires KernelInv(k) && Able(k, Dup2(o, n)) && q in k.procs
    ensures var (k', ret) := Do(k, Dup2(o, n));
            var p := k.sched.cpu.who;
            if 0 <= n < FD_MAX && Slot(k, p, o) != NoFd
            then ret == Value(n) && q in k'.procs && WokenIfCut(k, k', q) &&
                 k'.procs[q].fds == if q == p then k.procs[p].fds[n := Slot(k, p, o)] else k.procs[q].fds
            else ret == Value(EBADF) && k' == k
  {
    hide KernelInv, CloseFd;
    var p := k.sched.cpu.who;
    Runner(k, p);
    if 0 <= n < FD_MAX && Slot(k, p, o) != NoFd && o != n {
      WokenSelf(k, q);
      if Slot(k, p, n) != NoFd {
        CloseFdFds(k, p, n, q);
        CloseFdWakes(k, p, n, q);
      }
      var k1 := if Slot(k, p, n) == NoFd then k else CloseFd(k, p, n);
      CopyWakes(k, k1, p, n, o, q);
    }
  }

  /**
   Pipe `i`, that nobody referred to, has its two ends in the empty slots `r` and `w` of `p`;
   nothing else changed.
   */
  ghost predicate Opened(k: K, k': K, p: nat, i: nat, r: nat, w: nat)
    requires p in k.procs
  {
    && i < |k.pipes| && Unreferred(k, i) && FD_STDIO <= r < w < |k.procs[p].fds|
    && k.procs[p].fds[r] == k.procs[p].fds[w] == NoFd
    && k'.procs == k.procs[p := k.procs[p].(fds := k.procs[p].fds[r := PipeEnd(i, ReadEnd)][w := PipeEnd(i, WriteEnd)])]
    && k'.pipes == k.pipes[i := FREE_PIPE.(readRefs := 1, writeRefs := 1, refCount := 2)]
    && k'.sched == k.sched && k'.nextPid == k.nextPid && k'.exited == k.exited && k'.log == k.log
    && k'.stranded == k.stranded
    && forall f :: FD_STDIO <= f < w && f != r ==> k.procs[p].fds[f] != NoFd
  }

  ghost predicate Unreferred(k: K, i: nat) {
    Ends(k.procs, i, ReadEnd) == {} && Ends(k.procs, i, WriteEnd) == {}
  }

  lemma UnreferredIs(k: K, i: nat)
    requires KernelInv(k) && i < PIPE_MAX
    ensures i < |k.pipes| && (Unreferred(k, i) <==> k.pipes[i].refCount == 0)
  {
    assert PipeOk(k, i);
  }

  predicate TwoFree(fds: seq<Fd>) {
    exists r: nat, w: nat :: FD_STDIO <= r < w < |fds| && fds[r] == NoFd && fds[w] == NoFd
  }

  /**
   pipe fails for want of a pipe exactly when every pipe is referred to, for want of slots
   exactly when fewer than two are empty.
   */
  lemma PipeEffect(k: K)
    requires KernelInv(k) && Able(k, PipeCall)
    ensures var (k', ret) := Do(k, PipeCall);
            var p := k.sched.cpu.who;
            && (ret == Value(ENOBUFS) <==> forall i: nat :: i < PIPE_MAX ==> !Unreferred(k, i))
            && (ret == Value(EMFILE) <==>
                  (exists i: nat :: i < PIPE_MAX && Unreferred(k, i)) && !TwoFree(k.procs[p].fds))
            && (ret == Value(0) || ret == Value(ENOBUFS) || ret == Value(EMFILE))
            && (ret == Value(0) ==> exists i: nat, r: nat, w: nat :: Opened(k, k', p, i, r, w))
            && (ret != Value(0) ==>
                  k' == k.(pipes := k'.pipes) && |k'.pipes| == |k.pipes| &&
                  forall i: nat :: i < PIPE_MAX && !Unreferred(k, i) ==> k'.pipes[i] == k.pipes[i])
  {
    hide KernelInv, Unreferred, PutFd;
    var p := k.sched.cpu.who;
    Runner(k, p);
    forall i: nat | i < PIPE_MAX ensures Unreferred(k, i) <==> k.pipes[i].refCount == 0 {
      UnreferredIs(k, i);
    }
    var fds, i := k.procs[p].fds, FreePipe(k.pipes, 0);
    if i < PIPE_MAX {
      assert Unreferred(k, i);
      var r := FreeSlot(fds, FD_STDIO);
      if r < FD_MAX {
        var w := FreeSlot(fds, r + 1);
        if w < FD_MAX {
          OpenedIs(k, p, i, r, w);
        }
      }
    }
  }

  /** A pipe end put into an empty slot. */
  lemma PutEmpty(k: K, p: nat, f: nat, i: nat, d: Dir)
    requires p in k.procs && f < |k.procs[p].fds| && k.procs[p].fds[f] == NoFd && i < |k.pipes|
    ensures PutFd(k, p, f, PipeEnd(i, d)) ==
            k.(procs := k.procs[p := k.procs[p].(fds := k.procs[p].fds[f := PipeEnd(i, d)])],
               pipes := k.pipes[i := Counted(k.pipes[i], d, 1)])
  {
  }

  lemma OpenedIs(k: K, p: nat, i: nat, r: nat, w: nat)
    requires p in k.procs && i < |k.pipes| && Unreferred(k, i) && FD_STDIO <= r < w < |k.procs[p].fds|
    requires k.procs[p].fds[r] == k.procs[p].fds[w] == NoFd
    requires forall f :: FD_STDIO <= f < w && f != r ==> k.procs[p].fds[f] != NoFd
    ensures var k1 := k.(pipes := k.pipes[i := FREE_PIPE]);
            Opened(k, PutFd(PutFd(k1, p, r, PipeEnd(i, ReadEnd)), p, w, PipeEnd(i, WriteEnd)), p, i, r, w)
  {
    hide Unreferred, PutFd;
    var k1 := k.(pipes := k.pipes[i := FREE_PIPE]);
    PutEmpty(k1, p, r, i, ReadEnd);
    var once := Counted(FREE_PIPE, ReadEnd, 1);
    SetTwice(k.pipes, i, FREE_PIPE, once);
    var k2 := PutFd(k1, p, r, PipeEnd(i, ReadEnd));
    PutEmpty(k2, p, w, i, WriteEnd);
    SetTwice(k.pipes, i, once, Counted(once, WriteEnd, 1));
  }

  lemma {:induction false} InheritFds(k: K, c: nat, fds: seq<Fd>, n: nat)
    requires c in k.procs && |fds| <= |k.procs[c].fds| && n <= |fds|
    requires forall f :: 0 <= f < n ==> k.procs[c].fds[f] == Inherited(fds[f], f)
    ensures var k' := Inherit(k, c, fds, n);
            && k'.procs.Keys == k.procs.Keys && k'.sched == k.sched && k'.nextPid == k.nextPid
            && k'.stranded == k.stranded
            && (forall q :: q in k.procs && q != c ==> k'.procs[q] == k.procs[q])
            && k'.procs[c].(fds := k.procs[c].fds) == k.procs[c] && |k'.procs[c].fds| == |k.procs[c].fds|
            && k'.exited == k.exited && k'.log == k.log
            && (forall f :: 0 <= f < |fds| ==> k'.procs[c].fds[f] == Inherited(fds[f], f))
            && forall f :: |fds| <= f < |k.procs[c].fds| ==> k'.procs[c].fds[f] == k.procs[c].fds[f]
    decreases |fds| - n
  {
    if n < |fds| {
      InheritFds(PutFd(k, c, n, Inherited(fds[n], n)), c, fds, n + 1);
    }
  }

  /** Process `c` is new, a child of `parent` in user code; all others stay as they are. */
  predicate Newborn(k: K, k': K, c: nat, parent: nat) {
    && c == k.nextPid && c !in k.procs && k'.procs.Keys == k.procs.Keys + {c} && k'.nextPid == c + 1
    && k'.procs[c].parent == parent && k'.procs[c].todo == User && |k'.procs[c].fds| == FD_MAX
    && (forall q :: q in k.procs ==> k'.procs[q] == k.procs[q]) && k'.stranded == k.stranded
  }

  /** No process was created: at most a pid and, without memory, an entry of the table are used up. */
  predicate Unborn(k: K, k': K, load: Load) {
    && k' == k.(nextPid := k'.nextPid, stranded := k'.stranded) && k.nextPid !in k.stranded
    && (k'.nextPid == if TableSize(k) < 64 then k.nextPid + 1 else k.nextPid)
    && k'.stranded == k.stranded + (if TableSize(k) < 64 && load.NoMemory? then {k.nextPid} else {})
  }

  lemma SpawnedState(k: K, parent: nat, fds: seq<Fd>)
    requires k.nextPid !in k.procs && |fds| <= FD_MAX
    ensures var k1, c := Spawn(k, parent), k.nextPid;
            && c in k1.procs && Newborn(k, k1, c, parent)
            && k1.procs[c].state == (if parent == PID_NONE then Running else ReadyToRun)
            && (forall f :: 0 <= f < FD_MAX ==> k1.procs[c].fds[f] == NoFd)
            && k1.sched == if parent == PID_NONE then k.sched.(cpu := Sched.Runs(c, true))
                           else k.sched.(queue := k.sched.queue + [c], active := true)
  {
  }

  lemma BornState(k: K, parent: nat, fds: seq<Fd>)
    requires k.nextPid !in k.procs && |fds| <= FD_MAX
    ensures var c := k.nextPid; c in Spawn(k, parent).procs
    ensures var c, k' := k.nextPid, Inherit(Spawn(k, parent), k.nextPid, fds, 0);
            && Newborn(k, k', c, parent)
            && k'.procs[c].state == (if parent == PID_NONE then Running else ReadyToRun)
            && (forall f :: 0 <= f < FD_MAX ==>
                  k'.procs[c].fds[f] == if f < |fds| then Inherited(fds[f], f) else NoFd)
            && k'.sched == if parent == PID_NONE then k.sched.(cpu := Sched.Runs(c, true))
                           else k.sched.(queue := k.sched.queue + [c], active := true)
  {
    hide Inherit, Spawn;
    SpawnedState(k, parent, fds);
    InheritFds(Spawn(k, parent), k.nextPid, fds, 0);
  }

  lemma RefusedState(k: K, load: Load)
    requires KernelInv(k) && !(load.Loaded? && HasSlot(k))
    ensures Unborn(k, Refused(k, load), load)
  {
    NextPidFree(k);
  }

  /**
   exec makes one ready child, with the parent's standard slots and files and no other pipe
   end; every other process stays as it is.
   */
  lemma ExecEffect(k: K, load: Load)
    requires KernelInv(k) && Able(k, Exec(load))
    ensures var (k', ret) := Do(k, Exec(load));
            var p, c := k.sched.cpu.who, k.nextPid;
            if load.Loaded? && TableSize(k) < 64
            then && ret == Value(c) && Newborn(k, k', c, p) && k'.procs[c].state == ReadyToRun
                 && |k.procs[p].fds| == FD_MAX
                 && (forall f :: 0 <= f < FD_MAX ==>
                       k'.procs[c].fds[f]
                         == if f < 3 || !k.procs[p].fds[f].PipeEnd? then k.procs[p].fds[f] else NoFd)
                 && k'.sched == k.sched.(queue := k.sched.queue + [c], active := true)
            else ret == Value(ENOENT) && Unborn(k, k', load)
  {
    hide KernelInv, Inherit, Spawn, Newborn, Unborn;
    NextPidFree(k);
    var p := k.sched.cpu.who;
    Runner(k, p);
    if load.Loaded? && HasSlot(k) {
      BornState(k, p, k.procs[p].fds);
    } else {
      RefusedState(k, load);
    }
  }

  /** A program started by the kernel runs at once, without parent, its three standard slots on the console. */
  lemma StartEffect(k: K, load: Load)
    requires KernelInv(k) && Able(k, Start(load))
    ensures var (k', ret) := Do(k, Start(load));
            var c := k.nextPid;
            if load.Loaded? && TableSize(k) < 64
            then && ret == Over && Newborn(k, k', c, PID_NONE) && k'.procs[c].state == Running
                 && (forall f :: 0 <= f < FD_MAX ==> k'.procs[c].fds[f] == if f < 3 then Console else NoFd)
                 && k'.sched == k.sched.(cpu := Sched.Runs(c, true))
            else ret == Value(-1) && Unborn(k, k', load)
  {
    hide KernelInv, Inherit, Spawn, Unborn, Newborn;
    NextPidFree(k);
    if load.Loaded? && HasSlot(k) {
      BornState(k, PID_NONE, [Console, Console, Console]);
    } else {
      RefusedState(k, load);
    }
  }

  /**
   exit of a process with a parent leaves a zombie with the code; every descriptor stays open, its
   own included, until the parent collects it, and a parent that waits for it no longer sleeps.  A
   process without parent is destroyed and the kernel gets the code.
   */
  lemma ExitEffect(k: K, code: int)
    requires KernelInv(k) && Able(k, Exit(code))
    ensures var (k', ret) := Do(k, Exit(code));
            var p := k.sched.cpu.who;
            var parent := k.procs[p].parent;
            if parent != PID_NONE then
              && ret == Over && k'.procs.Keys == k.procs.Keys && k'.pipes == k.pipes
              && k'.nextPid == k.nextPid && k'.stranded == k.stranded
              && k'.procs[p] == k.procs[p].(state := Zombie, exitCode := code)
              && (forall q :: q in k.procs ==> ExitsLike(k, k', p, code, q))
              && (parent in k.procs && k.procs[parent].waitFor == p ==>
                    k'.procs[parent].waitFor == PID_NONE && k'.procs[parent].state != Blocked)
            else ret == Value(code) && Removed(k, k', p) && k'.sched.cpu.Nobody?
  {
    hide KernelInv, SysExit, Removed, AllClosed, ExitsLike;
    var p := k.sched.cpu.who;
    Runner(k, p);
    if k.procs[p].parent != PID_NONE {
      forall q | q in k.procs ensures ExitsLike(k, SysExit(k, p, code).0, p, code, q) {
        ExitFds(k, p, code, q);
      }
      ExitKeys(k, p, code);
      ExitState(k, p, code);
    } else {
      OneRuns(k);
      Destroyed(k, p);
      ExitAlone(k, p, code);
    }
  }

  lemma ExitAlone(k: K, p: nat, code: int)
    requires KernelInv(k) && Current(k, p) && k.procs[p].parent == PID_NONE && k.procs[p].todo == User
    ensures SysExit(k, p, code) == (Vacate(AllClosed(k, p, 0), p), Value(code))
    ensures SysExit(k, p, code).0.sched.cpu.Nobody?
  {
    hide KernelInv, AllClosed;
    AllClosedInv(k, p, 0);
  }

  lemma ExitState(k: K, p: nat, code: int)
    requires KernelInv(k) && Current(k, p) && k.procs[p].parent != PID_NONE
    ensures var (k', ret) := SysExit(k, p, code);
            var parent := k.procs[p].parent;
            && ret == Over && k'.pipes == k.pipes && p in k'.procs && k'.nextPid == k.nextPid
            && k'.stranded == k.stranded
            && k'.procs[p] == k.procs[p].(state := Zombie, exitCode := code)
            && (parent in k.procs && k.procs[parent].waitFor == p ==>
                  parent in k'.procs && k'.procs[parent].waitFor == PID_NONE && k'.procs[parent].state != Blocked)
  {
    NotQueued(k, p);
    WaiterBlocked(k, p);
    hide KernelInv, Sched.Schedule;
  }

  lemma WaiterBlocked(k: K, p: nat)
    requires KernelInv(k) && Current(k, p)
    ensures var parent := k.procs[p].parent;
            parent in k.procs && k.procs[parent].waitFor == p ==> parent != p && k.procs[parent].state == Blocked
  {
    var parent := k.procs[p].parent;
    assert ProcOk(k, p);
    if parent in k.procs { assert ProcOk(k, parent); }
  }

  /** Of the others, none but the parent changes more than its state. */
  predicate ExitsLike(k: K, k': K, p: nat, code: int, q: nat)
    requires q in k.procs
  {
    q in k'.procs && k'.procs[q].fds == k.procs[q].fds && k'.procs[q].parent == k.procs[q].parent &&
    (q != p ==>
       k'.procs[q].exitCode == k.procs[q].exitCode && k'.procs[q].todo == k.procs[q].todo &&
       (k'.procs[q].state == Zombie <==> k.procs[q].state == Zombie))
  }

  lemma ExitFds(k: K, p: nat, code: int, q: nat)
    requires KernelInv(k) && Current(k, p) && k.procs[p].parent != PID_NONE && q in k.procs
    ensures ExitsLike(k, SysExit(k, p, code).0, p, code, q)
  {
    NotQueued(k, p);
    hide KernelInv, Sched.Schedule;
  }

  /**
   Neither the current process nor its parent, if that waits for it, is in the ready queue; and
   it is not its own parent.
   */
  lemma NotQueued(k: K, p: nat)
    requires KernelInv(k) && Current(k, p)
    ensures p !in k.sched.queue && (Awaited(k, p) ==> k.procs[p].parent != p)
  {
    assert ProcOk(k, p);
  }

  lemma ExitKeys(k: K, p: nat, code: int)
    requires p in k.procs && k.procs[p].parent != PID_NONE
    ensures SysExit(k, p, code).0.procs.Keys == k.procs.Keys
  {
    hide Sched.Schedule;
  }

  /** close empties the slot, touches no other slot of any process, and wakes those whom it cuts off. */
  lemma CloseEffect(k: K, f: int, q: nat)
    requires KernelInv(k) && Able(k, Close(f)) && q in k.procs
    ensures var (k', ret) := Do(k, Close(f));
            var p := k.sched.cpu.who;
            if f < 3 then ret == Value(EINVAL) && k' == k
            else if f >= FD_MAX || k.procs[p].fds[f] == NoFd then ret == Value(EBADF) && k' == k
            else && ret == Value(0) && k'.procs.Keys == k.procs.Keys && WokenIfCut(k, k', q)
                 && k'.procs[q].fds == if q == p then k.procs[p].fds[f := NoFd] else k.procs[q].fds
  {
    hide KernelInv, CloseFd;
    var p := k.sched.cpu.who;
    Runner(k, p);
    if 3 <= f < FD_MAX && k.procs[p].fds[f] != NoFd {
      CloseFdFds(k, p, f, q);
      CloseFdWakes(k, p, f, q);
    }
  }

  /** open puts the file into the lowest empty slot past the standard ones, and fails exactly if there is none. */
  lemma OpenEffect(k: K)
    requires KernelInv(k) && Able(k, Open)
    ensures var (k', ret) := Do(k, Open);
            var p := k.sched.cpu.who;
            var fds := k.procs[p].fds;
            if forall f :: 3 <= f < |fds| ==> fds[f] != NoFd then ret == Value(EMFILE) && k' == k
            else && ret.Value? && 3 <= ret.v < |fds| && fds[ret.v] == NoFd
                 && (forall f :: 3 <= f < ret.v ==> fds[f] != NoFd)
                 && k' == k.(procs := k.procs[p := k.procs[p].(fds := fds[ret.v := File])])
  {
    hide KernelInv;
    Runner(k, k.sched.cpu.who);
  }

  /** The state of a process, if it changes, goes from running to ready or back. */
  predicate Switches(a: Proc, b: Proc) {
    && b == a.(state := b.state)
    && (b.state != a.state ==>
          (a.state == Running && b.state == ReadyToRun) || (a.state == ReadyToRun && b.state == Running))
  }

  /** A timer tick changes nothing but who runs and who is ready. */
  lemma TimerEffect(k: K)
    requires KernelInv(k)
    ensures var (k', ret) := Do(k, Timer);
            && ret == Over && k'.pipes == k.pipes && k'.procs.Keys == k.procs.Keys
            && (forall q :: q in k.procs ==> Switches(k.procs[q], k'.procs[q]))
            && k'.stranded == k.stranded && k'.nextPid == k.nextPid && k'.exited == k.exited && k'.log == k.log
  {
    hide KernelInv, Yielded;
    TickStates(k);
    YieldStates(k);
  }

  lemma YieldStates(k: K)
    requires forall q :: q in k.sched.queue ==> q in k.procs && k.procs[q].state == ReadyToRun
    requires k.sched.cpu.Runs? ==> k.sched.cpu.who in k.procs && k.procs[k.sched.cpu.who].state == Running
    ensures var k' := Yielded(k);
            && k'.pipes == k.pipes && k'.procs.Keys == k.procs.Keys
            && (forall q :: q in k.procs ==> Switches(k.procs[q], k'.procs[q]))
            && k'.stranded == k.stranded && k'.nextPid == k.nextPid && k'.exited == k.exited && k'.log == k.log
  {
    hide Sched.Schedule;
  }

  lemma TickStates(k: K)
    requires KernelInv(k)
    ensures forall q :: q in k.sched.queue ==> q in k.procs && k.procs[q].state == ReadyToRun
    ensures k.sched.cpu.Runs? ==> k.sched.cpu.who in k.procs && k.procs[k.sched.cpu.who].state == Running
  {
  }

  // ---------------------------------------------------------------- who comes and who goes

  /** A process leaves the table when it is collected, or exits without a parent, and never else. */
  predicate Leaves(k: K, e: Event, q: nat)
    requires Able(k, e)
  {
    (Waiting(k, e, q) && Ready(k, q)) ||
    (e.Exit? && q == k.sched.cpu.who && k.procs[q].parent == PID_NONE)
  }

  /** What a step does to the pids in the table. */
  predicate Passes(k: K, e: Event)
    requires Able(k, e)
  {
    var k' := Do(k, e).0;
    && k.nextPid <= k'.nextPid
    && (forall q :: q in k.procs ==> (q in k'.procs <==> !Leaves(k, e, q)))
    && (forall q :: q in k'.procs && q !in k.procs ==> q == k.nextPid)
    && (forall q :: q in k'.stranded && q !in k.stranded ==> q == k.nextPid)
  }

  lemma TransferPasses(k: K, e: Event)
    requires KernelInv(k) && Able(k, e) && (e.Read? || e.Write? || e.Resume?)
    ensures Passes(k, e)
  {
    hide KernelInv, Do, FirstReady, FallsAsleep, Removed, Ends;
    var p := k.sched.cpu.who;
    Runner(k, p);
    TodoIn(k, p);
    match e
    case Read(f, want) =>
      if fd: Fd :| fd == Slot(k, p, f) && fd.PipeEnd? && fd.dir == ReadEnd && want > 0 {
        ReadEffect(k, e, fd.pipe, want);
        ReadPasses(k, e, fd.pipe, want);
      } else {
        ReadRefused(k, f, want);
      }
    case Write(f, data) =>
      if fd: Fd :| fd == Slot(k, p, f) && fd.PipeEnd? && fd.dir == WriteEnd && data != [] {
        WriteEffect(k, e, fd.pipe, data, 0);
        WritePasses(k, e, fd.pipe, data, 0);
      } else {
        WriteRefused(k, f, data);
      }
    case Resume =>
      match k.procs[p].todo
      case InRead(i, want) => ReadPasses(k, e, i, want);
      case InWrite(i, rest, written) => WritePasses(k, e, i, rest, written);
      case InWait(c) => WaitPasses(k, e, c);
  }

  lemma ReadPasses(k: K, e: Event, i: nat, want: nat)
    requires KernelInv(k) && Reading(k, e, i, want)
    ensures Passes(k, e)
  {
    hide KernelInv, Do, Ends;
    ReadEffect(k, e, i, want);
  }

  lemma WritePasses(k: K, e: Event, i: nat, rest: seq<byte>, written: nat)
    requires KernelInv(k) && Writing(k, e, i, rest, written)
    ensures Passes(k, e)
  {
    hide KernelInv, Do, Ends;
    WriteEffect(k, e, i, rest, written);
  }

  lemma WaitPasses(k: K, e: Event, c: nat)
    requires KernelInv(k) && Waiting(k, e, c)
    ensures Passes(k, e)
  {
    hide KernelInv, Do, Ends;
    WaitEffect(k, e, c);
  }

  lemma SlotPasses(k: K, e: Event)
    requires KernelInv(k) && Able(k, e) && (e.PipeCall? || e.Open? || e.Close? || e.Dup2?)
    ensures Passes(k, e)
  {
    hide KernelInv, CloseFd, Recount;
    var p := k.sched.cpu.who;
    Runner(k, p);
    match e
    case Close(f) => if f >= FD_STDIO && Slot(k, p, f) != NoFd { CloseFdSame(k, p, f); }
    case Dup2(o, n) => if 0 <= n < FD_MAX && Slot(k, p, n) != NoFd { CloseFdSame(k, p, n); }
    case _ =>
  }

  /** Pids come in order, one at a time, and go for one reason. */
  lemma DoPasses(k: K, e: Event)
    requires KernelInv(k) && Able(k, e)
    ensures Passes(k, e)
  {
    hide KernelInv, Passes;
    match e
    case Timer => TimerPasses(k);
    case Start(load) => StartPasses(k, e);
    case Exec(load) => StartPasses(k, e);
    case Waitpid(c) => WaitPasses(k, e, c);
    case Exit(code) => ExitPasses(k, e);
    case Read(_, _) => TransferPasses(k, e);
    case Write(_, _) => TransferPasses(k, e);
    case Resume => TransferPasses(k, e);
    case _ => SlotPasses(k, e);
  }

  lemma TimerPasses(k: K)
    requires KernelInv(k)
    ensures Passes(k, Timer)
  {
    hide KernelInv, Do;
    TimerEffect(k);
  }

  lemma StartPasses(k: K, e: Event)
    requires KernelInv(k) && Able(k, e) && (e.Start? || e.Exec?)
    ensures Passes(k, e)
  {
    hide KernelInv, Do, Newborn, Unborn;
    if e.Start? { StartEffect(k, e.load); } else { ExecEffect(k, e.load); }
    BornPasses(k, e);
  }

  lemma BornPasses(k: K, e: Event)
    requires Able(k, e) && (e.Start? || e.Exec?)
    requires (exists c, p :: Newborn(k, Do(k, e).0, c, p)) || Unborn(k, Do(k, e).0, e.load)
    ensures Passes(k, e)
  {
    hide Do;
  }

  lemma ExitPasses(k: K, e: Event)
    requires KernelInv(k) && Able(k, e) && e.Exit?
    ensures Passes(k, e)
  {
    hide KernelInv, Do, Ends, ExitsLike;
    ExitEffect(k, e.code);
  }

  // ---------------------------------------------------------------- each exit code once, over the results of a run

  /** The state in which event `n` of the run happens. */
  function StateAt(k: K, run: seq<Event>, n: nat): K
    requires Possible(k, run) && n <= |run|
    decreases |run|
  {
    if n == 0 then k else StateAt(Do(k, run[0]).0, run[1..], n - 1)
  }

  lemma {:induction false} AbleAt(k: K, run: seq<Event>, n: nat)
    requires Possible(k, run) && n < |run|
    ensures Able(StateAt(k, run, n), run[n])
    decreases |run|
  {
    hide Do;
    if n > 0 { AbleAt(Do(k, run[0]).0, run[1..], n - 1); }
  }

  /** The result of event `n` of the run. */
  function Answer(k: K, run: seq<Event>, n: nat): Ret
    requires Possible(k, run) && n < |run|
  {
    AbleAt(k, run, n);
    Do(StateAt(k, run, n), run[n]).1
  }

  /** Process `p` asks for `c`. */
  predicate Asks(k: K, e: Event, c: nat, p: nat) {
    Waiting(k, e, c) && k.sched.cpu.who == p
  }

  /** `p` asks for `c` in one of the first `n` events of the run. */
  predicate Asked(k: K, run: seq<Event>, n: nat, c: nat, p: nat)
    requires Possible(k, run) && n <= |run|
    decreases |run|
  {
    n > 0 && (Asks(k, run[0], c, p) || Asked(Do(k, run[0]).0, run[1..], n - 1, c, p))
  }

  /** `c` has exited with `code` and waits for `p` to collect it. */
  predicate ZombieOf(k: K, c: nat, p: nat, code: int) {
    c in k.procs && k.procs[c].state == Zombie && k.procs[c].parent == p && k.procs[c].exitCode == code
  }

  /** A pid that was given out and belongs to nobody any more. */
  predicate Forgotten(k: K, c: nat) {
    c !in k.procs && c !in k.stranded && c < k.nextPid
  }

  lemma ZombieStays(k: K, k': K, c: nat, p: nat, code: int)
    requires KernelInv(k) && KernelInv(k') && Grown(k, k') && ZombieOf(k, c, p, code) && c in k'.procs
    ensures ZombieOf(k', c, p, code)
  {
    assert ProcOk(k, c) && ProcOk(k', c);
  }

  lemma ZombieThere(k: K, c: nat)
    requires KernelInv(k) && c in k.procs && k.procs[c].state == Zombie
    ensures c < k.nextPid && c !in k.stranded && !(k.sched.cpu.Runs? && k.sched.cpu.who == c)
  {
    assert ProcOk(k, c);
    OnePlace(k, c, OnCpu);
  }

  /** A step delivers the exit code of `c` exactly if it is a wait for `c` by the parent of the zombie. */
  lemma DeliversExactly(k: K, e: Event, c: nat)
    requires KernelInv(k) && Able(k, e)
    ensures Hands(k, e, c) <==> Waiting(k, e, c) && Ready(k, c)
  {
    hide KernelInv, Do, Reap;
    if Waiting(k, e, c) && Ready(k, c) {
      ReadyHands(k, e, c);
    }
    if Hands(k, e, c) {
      DoPasses(k, e);
      ZombieThere(k, c);
    }
  }

  lemma ReadyHands(k: K, e: Event, c: nat)
    requires KernelInv(k) && Waiting(k, e, c) && Ready(k, c)
    ensures Hands(k, e, c)
  {
    hide KernelInv, Reap;
    var p := k.sched.cpu.who;
    Runner(k, p);
    ZombieThere(k, c);
    if e.Resume? {
      AwakeInv(k, p);
      ReapDelivers(Awake(k, p), p, c);
    } else {
      ReapDelivers(k, p, c);
    }
  }

  /** A zombie stays one until its parent asks for it, and then is gone. */
  lemma ZombieStep(k: K, e: Event, c: nat, p: nat, code: int)
    requires KernelInv(k) && Able(k, e) && !Early(k, e) && ZombieOf(k, c, p, code)
    ensures var (k', ret) := Do(k, e);
            && KernelInv(k')
            && if Asks(k, e, c, p) then ret == Value(code) && Forgotten(k', c)
               else ZombieOf(k', c, p, code) && (Waiting(k, e, c) ==> ret == Value(ECHILD))
  {
    hide KernelInv, Do, Early, Removed;
    DoInv(k, e);
    DoPasses(k, e);
    ZombieThere(k, c);
    if Waiting(k, e, c) { WaitEffect(k, e, c); }
    if Asks(k, e, c, p) {
      Uncovered(k, Do(k, e).0, c);
    } else {
      DoDelivers(k, e);
      HistoryGrown(k, e);
      ZombieStays(k, Do(k, e).0, c, p, code);
    }
  }

  lemma HistoryGrown(k: K, e: Event)
    requires Able(k, e) && (Quiet(k, e) || exists c :: Hands(k, e, c))
    ensures Grown(k, Do(k, e).0)
  {
    hide Do;
  }

  lemma Uncovered(k: K, k': K, c: nat)
    requires Removed(k, k', c) && c < k.nextPid && c !in k.stranded
    ensures Forgotten(k', c)
  {
  }

  lemma ForgottenStep(k: K, e: Event, c: nat)
    requires KernelInv(k) && Able(k, e) && Forgotten(k, c)
    ensures Forgotten(Do(k, e).0, c) && (Waiting(k, e, c) ==> Do(k, e).1 == Value(ESRCH))
  {
    hide KernelInv, Do, Removed, FallsAsleep;
    DoPasses(k, e);
    if Waiting(k, e, c) { WaitEffect(k, e, c); }
  }

  lemma {:induction false} ForgottenRun(k: K, run: seq<Event>, n: nat, c: nat)
    requires KernelInv(k) && Possible(k, run) && n < |run| && Forgotten(k, c)
    requires Waiting(StateAt(k, run, n), run[n], c)
    ensures Answer(k, run, n) == Value(ESRCH)
    decreases |run|
  {
    hide KernelInv, Do, Early, Forgotten;
    ForgottenStep(k, run[0], c);
    if n > 0 {
      NotEarly(k, run, n, c);
      DoInv(k, run[0]);
      ForgottenRun(Do(k, run[0]).0, run[1..], n - 1, c);
    }
  }

  /** Nobody asks any more once a process waits too early. */
  lemma NotEarly(k: K, run: seq<Event>, n: nat, c: nat)
    requires KernelInv(k) && Possible(k, run) && 0 < n < |run|
    requires Waiting(StateAt(k, run, n), run[n], c) || run[n].Exit?
    ensures !Early(k, run[0])
  {
    hide KernelInv, Do, Early;
    if Early(k, run[0]) {
      EarlySpins(k, run[0]);
      SpinsForever(Do(k, run[0]).0, run[1..]);
    }
  }

  lemma {:induction false} ZombieRun(k: K, run: seq<Event>, n: nat, c: nat, p: nat, code: int)
    requires KernelInv(k) && Possible(k, run) && n < |run| && ZombieOf(k, c, p, code)
    requires Waiting(StateAt(k, run, n), run[n], c)
    ensures Answer(k, run, n) ==
            Value(if Asked(k, run, n, c, p) then ESRCH
                  else if StateAt(k, run, n).sched.cpu.who == p then code else ECHILD)
    decreases |run|
  {
    hide KernelInv, Do, Early, Forgotten, ZombieOf, Waiting;
    if n > 0 {
      NotEarly(k, run, n, c);
      ZombieStep(k, run[0], c, p, code);
      if Asks(k, run[0], c, p) {
        ForgottenRun(Do(k, run[0]).0, run[1..], n - 1, c);
      } else {
        ZombieRun(Do(k, run[0]).0, run[1..], n - 1, c, p, code);
      }
    } else {
      AskedNow(k, run[0], c, p, code);
    }
  }

  lemma AskedNow(k: K, e: Event, c: nat, p: nat, code: int)
    requires KernelInv(k) && ZombieOf(k, c, p, code) && Waiting(k, e, c)
    ensures Do(k, e).1 == Value(if k.sched.cpu.who == p then code else ECHILD)
  {
    hide KernelInv, Do, Removed, FallsAsleep;
    WaitEffect(k, e, c);
  }

  /** `p` asks for `c` in some event after the one numbered `l` and before the one numbered `n`. */
  predicate AskedBetween(k: K, run: seq<Event>, l: nat, n: nat, c: nat, p: nat)
    requires Possible(k, run) && l < n <= |run|
    decreases |run|
  {
    if l == 0 then Asked(Do(k, run[0]).0, run[1..], n - 1, c, p)
    else AskedBetween(Do(k, run[0]).0, run[1..], l - 1, n - 1, c, p)
  }

  /**
   Whenever, in any run, a process exits and somebody asks for it later: the first time its parent
   asks, the answer is the code it exited with; ever after it is ESRCH, and to anybody else ECHILD
   until then.
   */
  lemma {:induction false} CodeOnce(k: K, run: seq<Event>, l: nat, n: nat, c: nat, p: nat, code: int)
    requires KernelInv(k) && Possible(k, run) && l < n < |run| && run[l] == Exit(code)
    requires var at := StateAt(k, run, l); at.sched.cpu.Runs? && at.sched.cpu.who == c
    requires var at := StateAt(k, run, l); c in at.procs && at.procs[c].parent == p != PID_NONE
    requires Waiting(StateAt(k, run, n), run[n], c)
    ensures Answer(k, run, n) ==
            Value(if AskedBetween(k, run, l, n, c, p) then ESRCH
                  else if StateAt(k, run, n).sched.cpu.who == p then code else ECHILD)
    decreases |run|
  {
    hide KernelInv, Do, Early, Waiting;
    NotEarly(k, run, n, c);
    DoInv(k, run[0]);
    if l == 0 {
      ExitEffect(k, code);
      ZombieRun(Do(k, run[0]).0, run[1..], n - 1, c, p, code);
    } else {
      CodeOnce(Do(k, run[0]).0, run[1..], l - 1, n - 1, c, p, code);
    }
  }
}
