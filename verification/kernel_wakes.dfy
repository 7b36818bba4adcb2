/**
 Whom a close wakes (src/kernel/syscall/fd_table.c, pipe.c): exactly the processes asleep in a
 transfer that cannot go on, because no end is left at the other side of their pipe.
 */
module KernelWakes {
  import opened Kernel
  import opened KernelOps
  import opened KernelCalls

  /** The open ends at the other side of the pipe that a process in a transfer uses. */
  ghost function Across(pr: Proc, procs: map<nat, Proc>): set<(nat, nat)> {
    match pr.todo
    case InRead(i, _) => Ends(procs, i, WriteEnd)
    case InWrite(i, _, _) => Ends(procs, i, ReadEnd)
    case _ => {}
  }

  /** Process `q` sleeps in a transfer, and the last end at the other side has gone. */
  ghost predicate CutOff(k: K, k': K, q: nat) {
    && q in k.procs && k.procs[q].state == Blocked
    && Across(k.procs[q], k.procs) != {} && Across(k.procs[q], k'.procs) == {}
  }

  /** Process `q` changes in its slots only, and is woken exactly if it is cut off. */
  ghost predicate WokenIfCut(k: K, k': K, q: nat)
    requires q in k.procs
  {
    q in k'.procs &&
    k'.procs[q] ==
      k.procs[q].(fds := k'.procs[q].fds, state := if CutOff(k, k', q) then ReadyToRun else k.procs[q].state)
  }

  lemma CloseFdFds(k: K, p: nat, f: nat, q: nat)
    requires p in k.procs && f < |k.procs[p].fds| && q in k.procs
    ensures q in CloseFd(k, p, f).procs
    ensures CloseFd(k, p, f).procs[q].fds == if q == p then k.procs[p].fds[f := NoFd] else k.procs[q].fds
  {
  }

  /** The ends after a slot is emptied. */
  lemma EmptiedEnds(k: K, p: nat, f: nat, i: nat, d: Dir)
    requires p in k.procs && f < |k.procs[p].fds|
    ensures Ends(CloseFd(k, p, f).procs, i, d) ==
              Ends(k.procs, i, d) - (if k.procs[p].fds[f] == PipeEnd(i, d) then {(p, f)} else {})
  {
    hide CloseFd;
    var k' := CloseFd(k, p, f);
    forall q: nat, g: nat
      ensures (q, g) in Ends(k'.procs, i, d) <==>
              (q, g) in Ends(k.procs, i, d) && ((q, g) == (p, f) ==> k.procs[p].fds[f] != PipeEnd(i, d))
    {
      if q in k.procs {
        CloseFdFds(k, p, f, q);
        if g < |k.procs[q].fds| {
          EndsAt(k.procs, i, d, q, g);
          EndsAt(k'.procs, i, d, q, g);
        }
      }
    }
  }

  /** Those who sleep at an end are those in its queue. */
  lemma Queued(k: K, q: nat, i: nat, d: Dir)
    requires KernelInv(k) && q in k.procs && i < PIPE_MAX && i < |k.pipes|
    ensures q in Waiters(k.pipes[i], d) <==> SleepsIn(k, q, i, d)
  {
    assert ProcOk(k, q) && PipeOk(k, i);
  }

  /** Without references to end `d` all who sleep at the other end are woken, and nobody else ever is. */
  lemma AlarmWakes(k: K, i: nat, d: Dir, q: nat)
    requires KernelInv(k) && i < PIPE_MAX && i < |k.pipes| && q in k.procs
    ensures Settle(Alarm(k, i, d), i).procs[q] ==
              if Ends(k.procs, i, d) == {} && SleepsIn(k, q, i, d.Other())
              then k.procs[q].(state := ReadyToRun) else k.procs[q]
  {
    assert PipeOk(k, i);
    Queued(k, q, i, d.Other());
    hide KernelInv, Ends, SleepsIn;
  }

  /** The close of pipe end `d` wakes the other end exactly if no such end is left. */
  lemma LastEndWakes(k: K, p: nat, f: nat, i: nat, d: Dir, q: nat)
    requires KernelInv(k) && p in k.procs && f < |k.procs[p].fds| && k.procs[p].todo == User && q in k.procs
    requires k.procs[p].fds[f] == PipeEnd(i, d)
    ensures var k' := CloseFd(k, p, f);
            k'.procs[q].(fds := k.procs[q].fds) ==
              if Ends(k'.procs, i, d) == {} && SleepsIn(k, q, i, d.Other())
              then k.procs[q].(state := ReadyToRun) else k.procs[q]
  {
    hide KernelInv, Recount, Ends, Alarm, Settle;
    PipeInRange(k, p, f);
    var k1 := PutFd(k, p, f, NoFd);
    PutFdInv(k, p, f, NoFd);
    AlarmWakes(k1, i, d, q);
    EmptiedEnds(k, p, f, i, d);
    PutFdOthers(k.procs, p, f, NoFd, i, d);
    EndsAt(k1.procs, i, d, p, f);
    assert Ends(CloseFd(k, p, f).procs, i, d) == Ends(k1.procs, i, d);
  }

  lemma PipeInRange(k: K, p: nat, f: nat)
    requires KernelInv(k) && p in k.procs && f < |k.procs[p].fds|
    ensures |k.pipes| == PIPE_MAX && (k.procs[p].fds[f].PipeEnd? ==> k.procs[p].fds[f].pipe < PIPE_MAX)
  {
    assert ProcOk(k, p);
    Bounds(k);
  }

  lemma CloseFdWakes(k: K, p: nat, f: nat, q: nat)
    requires KernelInv(k) && p in k.procs && f < |k.procs[p].fds| && k.procs[p].todo == User && q in k.procs
    ensures WokenIfCut(k, CloseFd(k, p, f), q)
  {
    hide KernelInv, Ends;
    var k', fd := CloseFd(k, p, f), k.procs[p].fds[f];
    forall i, d ensures Ends(k'.procs, i, d) == Ends(k.procs, i, d) - (if fd == PipeEnd(i, d) then {(p, f)} else {}) {
      EmptiedEnds(k, p, f, i, d);
    }
    if fd.PipeEnd? {
      EndsAt(k.procs, fd.pipe, fd.dir, p, f);
      hide CloseFd;
      LastEndWakes(k, p, f, fd.pipe, fd.dir, q);
    }
  }

  lemma WokenTransitive(a: K, b: K, c: K, q: nat)
    requires q in a.procs && WokenIfCut(a, b, q) && WokenIfCut(b, c, q)
    requires forall i, d :: Ends(b.procs, i, d) <= Ends(a.procs, i, d) && Ends(c.procs, i, d) <= Ends(b.procs, i, d)
    ensures WokenIfCut(a, c, q)
  {
    hide Ends;
  }

  lemma {:induction false} AllClosedWakes(k: K, p: nat, n: nat, q: nat)
    requires KernelInv(k) && p in k.procs && n <= |k.procs[p].fds| && k.procs[p].todo == User && q in k.procs
    ensures WokenIfCut(k, AllClosed(k, p, n), q)
    ensures forall i, d :: Ends(AllClosed(k, p, n).procs, i, d) <= Ends(k.procs, i, d)
    decreases |k.procs[p].fds| - n
  {
    hide KernelInv, CloseFd, WokenIfCut, Ends;
    if n == |k.procs[p].fds| {
      WokenSelf(k, q);
    } else {
      var k1 := CloseFd(k, p, n);
      CloseFdInv(k, p, n);
      CloseFdSame(k, p, n);
      SameOne(k, k1, p);
      CloseFdWakes(k, p, n, q);
      AllClosedWakes(k1, p, n + 1, q);
      forall i, d ensures Ends(k1.procs, i, d) <= Ends(k.procs, i, d) {
        EmptiedEnds(k, p, n, i, d);
      }
      WokenTransitive(k, k1, AllClosed(k1, p, n + 1), q);
    }
  }

  lemma WokenSelf(k: K, q: nat)
    requires q in k.procs
    ensures WokenIfCut(k, k, q)
  {
  }

  /** A copy of a descriptor that is open brings no end back. */
  lemma CopyWakes(k: K, k1: K, p: nat, n: nat, o: nat, q: nat)
    requires q in k.procs && p in k1.procs && n < |k1.procs[p].fds| && o < |k1.procs[p].fds| && o != n
    requires k1.procs[p].fds[n] == NoFd && WokenIfCut(k, k1, q)
    ensures WokenIfCut(k, PutFd(k1, p, n, k1.procs[p].fds[o]), q)
  {
    hide Ends, Recount;
    var fd := k1.procs[p].fds[o];
    var k' := PutFd(k1, p, n, fd);
    forall i, d ensures Ends(k'.procs, i, d) == {} <==> Ends(k1.procs, i, d) == {} {
      PutFdOthers(k1.procs, p, n, fd, i, d);
      EndsAt(k1.procs, i, d, p, n);
      EndsAt(k1.procs, i, d, p, o);
      EndsAt(k'.procs, i, d, p, o);
      EndsAt(k'.procs, i, d, p, n);
      if fd != PipeEnd(i, d) {
        assert Ends(k'.procs, i, d) == Ends(k'.procs, i, d) - {(p, n)};
        assert Ends(k1.procs, i, d) == Ends(k1.procs, i, d) - {(p, n)};
      }
    }
  }
}
