/**
 Wait queues (src/kernel/sync/wait_queue.c): a singly-linked list through the
 processes' `wait_next`, which spells out the sequence `waiters`.
 */
module WaitQueue {
  import opened Sched
  import opened ReadyQueue

  /** The waiter at position `i` points to the one behind it. */
  ghost predicate PointsOn(q: seq<Process>, i: nat)
    reads q`waitNext
  {
    i < |q| && q[i].waitNext == At(q, i + 1)
  }

  class Queue {
    var head: Process?
    ghost var waiters: seq<Process>

    ghost predicate Valid()
      reads this, waiters`waitNext
    {
      Distinct(waiters) && head == At(waiters, 0) && forall i: nat :: i < |waiters| ==> PointsOn(waiters, i)
    }

    lemma Chain()
      requires Valid()
      ensures Distinct(waiters) && head == At(waiters, 0) && forall i: nat :: i < |waiters| ==> PointsOn(waiters, i)
    {
    }

    /** wait_queue_init. */
    constructor ()
      ensures Valid() && waiters == []
    {
      head, waiters := null, [];
    }

    /** queue_append: walk to the tail and link. */
    method Append(p: Process)
      requires Valid() && p !in waiters
      modifies this, p`waitNext, waiters`waitNext
      ensures Valid() && waiters == old(waiters) + [p]
    {
      ghost var q := waiters;
      p.waitNext := null;
      if head == null {
        head := p;
        waiters := [p];
        return;
      }
      var node: Process := head;
      ghost var i: nat := 0;
      assert PointsOn(q, 0);
      while node.waitNext != null
        invariant i < |q| && node == q[i] && q == waiters && head == q[0]
        invariant PointsOn(q, i)
        invariant forall j: nat :: j < |q| ==> PointsOn(q, j)
        invariant p.waitNext == null
        decreases |q| - i
      {
        node := node.waitNext;
        i := i + 1;
        assert PointsOn(q, i);
      }
      node.waitNext := p;
      waiters := q + [p];
      forall j: nat | j < |waiters| ensures PointsOn(waiters, j) {
        if j < |q| - 1 {
          assert q[j] != q[|q| - 1] && waiters[j] == q[j];
          assert old(PointsOn(q, j));
        }
      }
    }

    /** The unlinking half of wait_queue_wake_one. */
    method TakeFirst() returns (p: Process?)
      requires Valid()
      modifies this, waiters`waitNext
      ensures Valid()
      ensures old(waiters) == [] ==> p == null && waiters == []
      ensures old(waiters) != [] ==> p == old(waiters)[0] && waiters == old(waiters)[1..] && p.waitNext == null
    {
      p := head;
      if p != null {
        ghost var q := waiters;
        assert PointsOn(q, 0);
        head := p.waitNext;
        p.waitNext := null;
        waiters := q[1..];
        forall j: nat | j < |waiters| ensures PointsOn(waiters, j) {
          assert old(PointsOn(q, j + 1));
          assert q[j + 1] != q[0];
        }
      }
    }

    /** The waiters can be handed to the scheduler: known, blocked, not queued, not running. */
    ghost predicate Sleeping(s: Scheduler)
      reads this`waiters, s`procs, s`queue, s`current
    {
      forall i: nat :: i < |waiters| ==>
        waiters[i] in s.procs && waiters[i] !in s.queue && waiters[i] != s.current && waiters[i] != s.idle
    }

    /** wait_queue_wake_one: the first waiter, if any, goes to the end of the ready queue. */
    method WakeOne(s: Scheduler)
      requires Valid() && s.Valid() && Sleeping(s)
      modifies this, s`queueHead, s`queueTail, s`queueCount, s`queue, s`active,
               s.procs`readyNext, s.procs`readyPrev, s.procs`state, s.procs`waitNext
      ensures Valid() && s.Valid() && Sleeping(s)
      ensures s.procs == old(s.procs) && s.current == old(s.current)
      ensures waiters == if old(waiters) == [] then [] else old(waiters)[1..]
      ensures s.queue == if old(waiters) == [] then old(s.queue) else old(s.queue) + [old(waiters)[0]]
    {
      hide Scheduler.Linked, Valid;
      Chain();
      var p := TakeFirst();
      if p != null {
        s.SchedulerReady(p);
      }
    }

    /** wait_queue_wake_all: every waiter, in order, goes to the end of the ready queue. */
    method WakeAll(s: Scheduler)
      requires Valid() && s.Valid() && Sleeping(s)
      modifies this, s`queueHead, s`queueTail, s`queueCount, s`queue, s`active,
               s.procs`readyNext, s.procs`readyPrev, s.procs`state, s.procs`waitNext
      ensures Valid() && s.Valid()
      ensures s.procs == old(s.procs) && s.current == old(s.current)
      ensures waiters == [] && s.queue == old(s.queue) + old(waiters)
    {
      hide Scheduler.Linked, Scheduler.Valid;
      ghost var q := waiters;
      var proc := head;
      ghost var i: nat := 0;
      while proc != null
        invariant i <= |q| && proc == At(q, i) && Distinct(q)
        invariant s.Valid() && s.procs == old(s.procs) && s.current == old(s.current)
        invariant s.queue == old(s.queue) + q[..i]
        invariant forall j: nat :: i <= j < |q| ==> PointsOn(q, j)
        invariant forall j: nat :: j < |q| ==>
                    q[j] in s.procs && q[j] !in old(s.queue) && q[j] != s.current && q[j] != s.idle
        decreases |q| - i
      {
        assert PointsOn(q, i);
        label Before:
        var next := proc.waitNext;
        proc.waitNext := null;
        assert proc !in q[..i];
        s.SchedulerReady(proc);
        forall j: nat | i < j < |q| ensures PointsOn(q, j) {
          assert old@Before(PointsOn(q, j)) && q[j] != proc;
        }
        proc := next;
        i := i + 1;
      }
      assert q[..i] == q;
      head := null;
      waiters := [];
    }

    /** wait_queue_block: the current process goes to sleep here and gives up the processor. */
    method Block(s: Scheduler)
      requires Valid() && s.Valid() && s.current != null && s.current != s.idle && s.current !in waiters
      requires forall i: nat :: i < |waiters| ==> waiters[i] in s.procs
      modifies this, s`queueHead, s`queueTail, s`queueCount, s`queue, s`ticksRemaining, s`current,
               s.procs`readyNext, s.procs`readyPrev, s.procs`state, s.procs`waitNext
      ensures Valid() && s.Valid()
      ensures waiters == old(waiters) + [old(s.current)]
      ensures s.View() == Step(old(s.View()), Stop)
    {
      hide Scheduler.Linked, Valid;
      var proc: Process := s.current;
      WithoutAbsent(s.queue, proc);
      proc.state := Blocked;
      s.SchedulerRemove(proc);
      ghost var stopped := s.View();
      Append(proc);
      assert s.View() == stopped;
      s.SchedulerYield();
    }
  }
}
