/**
 The intrusive doubly-linked ready queue and the scheduler over it
 (src/kernel/scheduler/scheduler.c).  The links live in the processes; the queue
 they spell out is the sequence `queue`.
 */
module ReadyQueue {
  import opened Sched

  datatype ProcState = Unused | Running | ReadyState | Blocked | Zombie

  class Process {
    var state: ProcState
    var readyNext: Process?
    var readyPrev: Process?
    var waitNext: Process?

    constructor ()
      ensures state == ReadyState && readyNext == null && readyPrev == null && waitNext == null
    {
      state, readyNext, readyPrev, waitNext := ReadyState, null, null, null;
    }
  }

  function At(q: seq<Process>, i: int): Process? {
    if 0 <= i < |q| then q[i] else null
  }

  type Links = map<Process, Process?>

  /** The process at position `i` is linked to its neighbours in the queue. */
  ghost predicate LinkedAt(q: seq<Process>, procs: set<Process>, next: Links, prev: Links, i: nat) {
    && i < |q| && q[i] in procs && q[i] in next && q[i] in prev
    && prev[q[i]] == At(q, i - 1) && next[q[i]] == At(q, i + 1)
  }

  /** `next` and `prev` spell out the queue, and every other process is unlinked. */
  ghost predicate Spelled(q: seq<Process>, procs: set<Process>, next: Links, prev: Links) {
    && Distinct(q) && next.Keys == procs && prev.Keys == procs
    && (forall i: nat :: i < |q| ==> LinkedAt(q, procs, next, prev, i))
    && (forall p :: p in procs && p !in q ==> prev[p] == null && next[p] == null)
  }

  /** The stores to `next` that append `p`. */
  ghost function NextWith(q: seq<Process>, p: Process, next: Links): Links {
    if q == [] then next[p := null] else next[p := null][q[|q| - 1] := p]
  }

  lemma PushSpelled(q: seq<Process>, procs: set<Process>, next: Links, prev: Links, p: Process)
    requires Spelled(q, procs, next, prev) && p in procs && p !in q
    ensures Spelled(q + [p], procs, NextWith(q, p, next), prev[p := At(q, |q| - 1)])
  {
    var r, next', prev' := q + [p], NextWith(q, p, next), prev[p := At(q, |q| - 1)];
    assert q != [] ==> LinkedAt(q, procs, next, prev, |q| - 1);
    forall i: nat | i < |r| ensures LinkedAt(r, procs, next', prev', i) {
      if i < |q| {
        assert LinkedAt(q, procs, next, prev, i);
        assert r[i] == q[i] && q[i] in q;
      }
    }
  }

  /** Unlinking position `k`: its neighbours are joined. */
  ghost function Unlinked(q: seq<Process>, k: nat): seq<Process>
    requires k < |q|
  {
    q[..k] + q[k + 1..]
  }

  lemma UnlinkedAt(q: seq<Process>, k: nat, j: nat)
    requires k < |q| && j < |q| - 1
    ensures Unlinked(q, k)[j] == if j < k then q[j] else q[j + 1]
  {
  }

  lemma UnlinkMembers(q: seq<Process>, k: nat)
    requires k < |q| && Distinct(q)
    ensures Distinct(Unlinked(q, k))
    ensures forall p :: p in Unlinked(q, k) <==> p in q && p != q[k]
  {
    var r := Unlinked(q, k);
    forall i, j | 0 <= i < j < |r| ensures r[i] != r[j] {
      UnlinkedAt(q, k, i);
      UnlinkedAt(q, k, j);
    }
    forall p | p in q && p != q[k] ensures p in r {
      var i :| 0 <= i < |q| && q[i] == p;
      UnlinkedAt(q, k, if i < k then i else i - 1);
    }
    forall p | p in r ensures p in q && p != q[k] {
      var i :| 0 <= i < |r| && r[i] == p;
      UnlinkedAt(q, k, i);
    }
  }

  /** The stores that unlink `q[k]`. */
  ghost function NextWithout(q: seq<Process>, k: nat, next: Links): Links
    requires k < |q|
  {
    var joined := if k == 0 then next else next[q[k - 1] := At(q, k + 1)];
    joined[q[k] := null]
  }

  ghost function PrevWithout(q: seq<Process>, k: nat, prev: Links): Links
    requires k < |q|
  {
    var joined := if k + 1 == |q| then prev else prev[q[k + 1] := At(q, k - 1)];
    joined[q[k] := null]
  }

  lemma UnlinkNeighbours(q: seq<Process>, procs: set<Process>, next: Links, prev: Links, k: nat, j: nat)
    requires Spelled(q, procs, next, prev) && k < |q| && j < |q| - 1
    ensures LinkedAt(Unlinked(q, k), procs, NextWithout(q, k, next), PrevWithout(q, k, prev), j)
  {
    UnlinkedAt(q, k, j);
    if j > 0 { UnlinkedAt(q, k, j - 1); }
    if j + 1 < |q| - 1 { UnlinkedAt(q, k, j + 1); }
    var x := if j < k then j else j + 1;
    assert LinkedAt(q, procs, next, prev, x);
    assert x != k && q[x] != q[k];
    assert k > 0 && x != k - 1 ==> q[x] != q[k - 1];
    assert k + 1 < |q| && x != k + 1 ==> q[x] != q[k + 1];
  }

  lemma UnlinkSpelled(q: seq<Process>, procs: set<Process>, next: Links, prev: Links, k: nat)
    requires Spelled(q, procs, next, prev) && k < |q|
    ensures Spelled(Unlinked(q, k), procs, NextWithout(q, k, next), PrevWithout(q, k, prev))
  {
    hide Unlinked, LinkedAt;
    var r, n, p := Unlinked(q, k), NextWithout(q, k, next), PrevWithout(q, k, prev);
    UnlinkedLength(q, k);
    UnlinkMembers(q, k);
    UnlinkKeys(q, procs, next, prev, k);
    forall j: nat | j < |r| ensures LinkedAt(r, procs, n, p, j) {
      UnlinkNeighbours(q, procs, next, prev, k, j);
    }
  }

  lemma UnlinkKeys(q: seq<Process>, procs: set<Process>, next: Links, prev: Links, k: nat)
    requires Spelled(q, procs, next, prev) && k < |q|
    ensures NextWithout(q, k, next).Keys == procs && PrevWithout(q, k, prev).Keys == procs
    ensures forall x :: x in procs && (x !in q || x == q[k]) ==>
              NextWithout(q, k, next)[x] == null && PrevWithout(q, k, prev)[x] == null
  {
    assert LinkedAt(q, procs, next, prev, k);
    assert k > 0 ==> LinkedAt(q, procs, next, prev, k - 1);
    assert k + 1 < |q| ==> LinkedAt(q, procs, next, prev, k + 1);
  }

  lemma UnlinkedFirst(q: seq<Process>)
    requires q != []
    ensures Unlinked(q, 0) == q[1..]
  {
  }

  lemma UnlinkedEnds(q: seq<Process>, k: nat)
    requires k < |q|
    ensures var r := Unlinked(q, k);
            && |r| == |q| - 1
            && At(r, 0) == (if k == 0 then At(q, 1) else q[0])
            && At(r, |r| - 1) == if k + 1 == |q| then At(q, k - 1) else q[|q| - 1]
  {
  }

  lemma UnlinkedLength(q: seq<Process>, k: nat)
    requires k < |q|
    ensures |Unlinked(q, k)| == |q| - 1
  {
  }

  lemma InProcs(q: seq<Process>, procs: set<Process>, next: Links, prev: Links)
    requires Spelled(q, procs, next, prev)
    ensures forall i: nat :: i < |q| ==> q[i] in procs
    ensures Distinct(q)
  {
    forall i: nat | i < |q| ensures q[i] in procs {
      assert LinkedAt(q, procs, next, prev, i);
    }
  }

  lemma LinksAt(q: seq<Process>, procs: set<Process>, next: Links, prev: Links, k: nat)
    requires Spelled(q, procs, next, prev) && k < |q|
    ensures q[k] in procs && q[k] in next && q[k] in prev && next[q[k]] == At(q, k + 1) && prev[q[k]] == At(q, k - 1)
    ensures k > 0 ==> q[k - 1] in procs && q[k - 1] != q[k]
    ensures k + 1 < |q| ==> q[k + 1] in procs && q[k + 1] != q[k]
    ensures 0 < k && k + 1 < |q| ==> q[k - 1] != q[k + 1]
  {
    assert LinkedAt(q, procs, next, prev, k);
    assert k > 0 ==> LinkedAt(q, procs, next, prev, k - 1);
    assert k + 1 < |q| ==> LinkedAt(q, procs, next, prev, k + 1);
  }

  class Scheduler {
    var queueHead: Process?
    var queueTail: Process?
    var queueCount: nat
    var ticksRemaining: nat
    var active: bool
    var current: Process?
    const idle: Process
    ghost var queue: seq<Process>
    /** Every process of the table, and the idle process. */
    ghost var procs: set<Process>

    ghost function NextLinks(): Links
      reads this`procs, procs`readyNext
    {
      map p | p in procs :: p.readyNext
    }

    ghost function PrevLinks(): Links
      reads this`procs, procs`readyPrev
    {
      map p | p in procs :: p.readyPrev
    }

    /** The links of queued processes follow the queue; all other processes are unlinked. */
    ghost predicate Linked()
      reads this`queueHead, this`queueTail, this`queueCount, this`queue, this`procs, procs`readyNext, procs`readyPrev
    {
      && Spelled(queue, procs, NextLinks(), PrevLinks())
      && queueHead == At(queue, 0) && queueTail == At(queue, |queue| - 1) && queueCount == |queue|
    }

    ghost predicate Valid()
      reads this, procs`readyNext, procs`readyPrev, procs`state
    {
      && Linked() && idle in procs && idle !in queue
      && (current != null ==> current in procs && current !in queue)
      && (forall p :: p in procs && p in queue ==> p.state == ReadyState)
      && 1 <= ticksRemaining <= TIME_SLICE
      && (queue != [] ==> active)
    }

    /** scheduler_init. */
    constructor ()
      ensures Valid() && queue == [] && current == null && procs == {idle} && fresh(idle) && fresh(this)
    {
      idle := new Process();
      queueHead, queueTail, queueCount, queue := null, null, 0, [];
      ticksRemaining, active, current := TIME_SLICE, false, null;
      new;
      procs := {idle};
    }

    ghost function CpuView(): Cpu<Process>
      reads this`current, current
    {
      if current == null then Nobody
      else if current == idle then Idle
      else var p: Process := current; Runs(p, p.state == Running)
    }

    /** The scheduler state that the links and fields represent. */
    ghost function View(): State<Process>
      reads this`queue, this`current, this`ticksRemaining, this`active, current
    {
      State(queue, CpuView(), ticksRemaining, active)
    }

    lemma ReadLinks(p: Process)
      requires p in procs
      ensures p in NextLinks() && NextLinks()[p] == p.readyNext
      ensures p in PrevLinks() && PrevLinks()[p] == p.readyPrev
    {
    }

    /** One store to a `ready_next` field. */
    method SetNext(x: Process, v: Process?)
      requires x in procs
      modifies x`readyNext
      ensures NextLinks() == old(NextLinks())[x := v] && PrevLinks() == old(PrevLinks())
    {
      x.readyNext := v;
    }

    /** One store to a `ready_prev` field. */
    method SetPrev(x: Process, v: Process?)
      requires x in procs
      modifies x`readyPrev
      ensures PrevLinks() == old(PrevLinks())[x := v] && NextLinks() == old(NextLinks())
    {
      x.readyPrev := v;
    }

    /** queue_push. */
    method QueuePush(p: Process)
      requires Linked() && p in procs && p !in queue
      modifies this`queueHead, this`queueTail, this`queueCount, this`queue, procs`readyNext, procs`readyPrev
      ensures Linked() && queue == old(queue) + [p]
    {
      hide Spelled, NextLinks, PrevLinks;
      PushSpelled(queue, procs, NextLinks(), PrevLinks(), p);
      InProcs(queue, procs, NextLinks(), PrevLinks());
      SetNext(p, null);
      SetPrev(p, queueTail);
      if queueTail != null {
        SetNext(queueTail, p);
      } else {
        queueHead := p;
      }
      queueTail := p;
      queueCount := queueCount + 1;
      queue := queue + [p];
    }

    /** queue_pop. */
    method QueuePop() returns (p: Process?)
      requires Linked()
      modifies this`queueHead, this`queueTail, this`queueCount, this`queue, procs`readyNext, procs`readyPrev
      ensures Linked()
      ensures old(queue) == [] ==> p == null && queue == []
      ensures old(queue) != [] ==> p == old(queue)[0] && queue == old(queue)[1..]
    {
      hide Spelled, NextLinks, PrevLinks, Unlinked;
      if queueHead == null {
        return null;
      }
      UnlinkSpelled(queue, procs, NextLinks(), PrevLinks(), 0);
      LinksAt(queue, procs, NextLinks(), PrevLinks(), 0);
      UnlinkedFirst(queue);
      UnlinkedEnds(queue, 0);
      p := queueHead;
      ReadLinks(p);
      queueHead := p.readyNext;
      if queueHead != null {
        SetPrev(queueHead, null);
      } else {
        queueTail := null;
      }
      SetNext(p, null);
      SetPrev(p, null);
      queueCount := queueCount - 1;
      queue := Unlinked(queue, 0);
    }

    /** The stores that join the neighbours of `p`, or move an end of the queue. */
    method Bypass(before: Process?, after: Process?)
      requires (before != null ==> before in procs) && (after != null ==> after in procs)
      modifies this`queueHead, this`queueTail, procs`readyNext, procs`readyPrev
      ensures NextLinks() == if before == null then old(NextLinks()) else old(NextLinks())[before := after]
      ensures PrevLinks() == if after == null then old(PrevLinks()) else old(PrevLinks())[after := before]
      ensures queueHead == if before == null then after else old(queueHead)
      ensures queueTail == if after == null then before else old(queueTail)
    {
      hide NextLinks, PrevLinks;
      if before != null {
        SetNext(before, after);
      } else {
        queueHead := after;
      }
      if after != null {
        SetPrev(after, before);
      } else {
        queueTail := before;
      }
    }

    /** queue_remove: unlink from anywhere in constant time. */
    method QueueRemove(p: Process, ghost k: nat)
      requires Linked() && k < |queue| && queue[k] == p
      modifies this`queueHead, this`queueTail, this`queueCount, this`queue, procs`readyNext, procs`readyPrev
      ensures Linked() && queue == Unlinked(old(queue), k)
    {
      hide Spelled, NextLinks, PrevLinks, Unlinked;
      UnlinkSpelled(queue, procs, NextLinks(), PrevLinks(), k);
      LinksAt(queue, procs, NextLinks(), PrevLinks(), k);
      ReadLinks(p);
      UnlinkedEnds(queue, k);
      Bypass(p.readyPrev, p.readyNext);
      SetNext(p, null);
      SetPrev(p, null);
      queueCount := queueCount - 1;
      queue := Unlinked(queue, k);
    }

    /** queue_contains: the three pointer tests decide membership. */
    method QueueContains(p: Process) returns (b: bool)
      requires Linked() && p in procs
      ensures b <==> p in queue
    {
      b := p == queueHead || p.readyPrev != null || p.readyNext != null;
      if p in queue {
        ghost var k :| 0 <= k < |queue| && queue[k] == p;
        LinksAt(queue, procs, NextLinks(), PrevLinks(), k);
      }
    }

    lemma QueueInProcs()
      requires Linked()
      ensures forall i: nat :: i < |queue| ==> queue[i] in procs
      ensures Distinct(queue)
    {
      InProcs(queue, procs, NextLinks(), PrevLinks());
    }

    /** scheduler_ready. */
    method SchedulerReady(p: Process)
      requires Valid() && p in procs && p !in queue && p != current && p != idle
      modifies this`queueHead, this`queueTail, this`queueCount, this`queue, this`active
      modifies procs`readyNext, procs`readyPrev, p`state
      ensures Valid()
      ensures View() == Step(old(View()), Ready(p)) && p.state == ReadyState
    {
      hide Linked;
      p.state := ReadyState;
      QueuePush(p);
      if !active {
        active := true;
      }
    }

    /** A queued process is taken out. */
    method Unqueue(p: Process)
      requires Linked() && p in queue
      modifies this`queueHead, this`queueTail, this`queueCount, this`queue, procs`readyNext, procs`readyPrev
      ensures Linked() && queue == Without(old(queue), p)
      ensures forall x :: x in procs && x in queue ==> x in old(queue)
    {
      hide Spelled, Unlinked, NextLinks, PrevLinks;
      ghost var k :| 0 <= k < |queue| && queue[k] == p;
      InProcs(queue, procs, NextLinks(), PrevLinks());
      WithoutUnlinked(queue, k);
      UnlinkMembers(queue, k);
      QueueRemove(p, k);
    }

    /** scheduler_remove: a no-op for a process that is not queued. */
    method SchedulerRemove(p: Process)
      requires Valid() && p in procs
      modifies this`queueHead, this`queueTail, this`queueCount, this`queue, procs`readyNext, procs`readyPrev
      ensures Valid()
      ensures queue == Without(old(queue), p)
      ensures View() == Step(old(View()), Remove(p))
    {
      hide Linked, Without;
      var queued := QueueContains(p);
      if queued {
        Unqueue(p);
      } else {
        WithoutAbsent(queue, p);
      }
    }

    /** schedule(): the decision of `Sched.Schedule`, on the links. */
    method Schedule()
      requires Valid()
      modifies this`queueHead, this`queueTail, this`queueCount, this`queue, this`ticksRemaining, this`current,
               procs`readyNext, procs`readyPrev, procs`state
      ensures Valid()
      ensures View() == Sched.Schedule(old(View()))
      ensures current != null && (old(current) == null || current != old(current) ==> current.state == Running)
    {
      hide Spelled, Linked;
      QueueInProcs();
      ghost var q := queue;
      var was := current;
      var next := QueuePop();
      if next == null {
        if was != null && was != idle && was.state == Running {
          ticksRemaining := TIME_SLICE;
          return;
        }
        next := idle;
      } else {
        assert next in procs && q[0] !in q[1..];
      }
      if was != null && was != idle && was.state == Running {
        was.state := ReadyState;
        QueuePush(was);
      }
      next.state := Running;
      current := next;
      ticksRemaining := TIME_SLICE;
    }

    /** scheduler_tick. */
    method SchedulerTick()
      requires Valid()
      modifies this`queueHead, this`queueTail, this`queueCount, this`queue, this`ticksRemaining, this`current,
               procs`readyNext, procs`readyPrev, procs`state
      ensures Valid()
      ensures View() == Step(old(View()), Tick)
    {
      if !active {
        return;
      }
      if ticksRemaining > 1 {
        ticksRemaining := ticksRemaining - 1;
        return;
      }
      Schedule();
    }

    /** scheduler_yield. */
    method SchedulerYield()
      requires Valid()
      modifies this`queueHead, this`queueTail, this`queueCount, this`queue, this`ticksRemaining, this`current,
               procs`readyNext, procs`readyPrev, procs`state
      ensures Valid()
      ensures View() == Step(old(View()), Yield)
    {
      if !active {
        return;
      }
      Schedule();
    }
  }

  lemma {:induction false} WithoutAbsent(q: seq<Process>, p: Process)
    requires p !in q
    ensures Without(q, p) == q
  {
    if q != [] {
      WithoutAbsent(q[1..], p);
    }
  }

  lemma {:induction false} WithoutUnlinked(q: seq<Process>, k: nat)
    requires k < |q| && Distinct(q)
    ensures Without(q, q[k]) == Unlinked(q, k)
  {
    if k > 0 {
      assert q[0] != q[k];
      WithoutUnlinked(q[1..], k - 1);
      assert Unlinked(q, k) == [q[0]] + Unlinked(q[1..], k - 1);
    } else {
      assert Unlinked(q, 0) == q[1..];
    }
  }
}
