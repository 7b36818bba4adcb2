/**
 Round-robin scheduling (src/kernel/scheduler/scheduler.c) over an abstract ready
 queue: what one call of schedule() decides, and how long a ready process can wait.
 */
module Sched {

  const TIME_SLICE := 2

  /** Who has the processor; `runnable` is false once the process has blocked or exited. */
  datatype Cpu<T> = Nobody | Idle | Runs(who: T, runnable: bool)

  datatype State<T> = State(queue: seq<T>, cpu: Cpu<T>, ticks: nat, active: bool)

  predicate Distinct<T(==)>(q: seq<T>) {
    forall i, j :: 0 <= i < j < |q| ==> q[i] != q[j]
  }

  /** No process is queued twice, the one running is not queued, and a queue makes the scheduler active. */
  predicate Inv<T(==)>(s: State<T>) {
    && Distinct(s.queue)
    && (s.cpu.Runs? ==> s.cpu.who !in s.queue)
    && 1 <= s.ticks <= TIME_SLICE
    && (s.queue != [] ==> s.active)
  }

  /** schedule(). */
  function Schedule<T>(s: State<T>): State<T> {
    if s.queue == [] then
      s.(cpu := if s.cpu.Runs? && s.cpu.runnable then s.cpu else Idle, ticks := TIME_SLICE)
    else
      var rest := s.queue[1..];
      s.(queue := if s.cpu.Runs? && s.cpu.runnable then rest + [s.cpu.who] else rest,
         cpu := Runs(s.queue[0], true), ticks := TIME_SLICE)
  }

  /** The idle process is chosen only when nothing at all can run. */
  lemma IdleOnlyWhenNothingRuns<T>(s: State<T>)
    ensures Schedule(s).cpu == Idle <==> s.queue == [] && !(s.cpu.Runs? && s.cpu.runnable)
  {
  }

  /** What can happen between two looks at the processor. */
  datatype Event<T> =
    | Tick                 // scheduler_tick
    | Yield                // scheduler_yield
    | Stop                 // the current process blocks or exits, then yields
    | Ready(who: T)        // scheduler_ready: a process is created or woken
    | Remove(who: T)       // scheduler_remove
    | Begin(who: T)        // the kernel hands the processor to a program it started itself
    | Leave                // such a program gives it back to the kernel

  predicate Enabled<T(==)>(s: State<T>, e: Event<T>) {
    match e
    case Stop => s.cpu.Runs?
    case Ready(p) => p !in s.queue && !(s.cpu.Runs? && s.cpu.who == p)
    case Begin(p) => !s.cpu.Runs? && p !in s.queue
    case Leave => s.cpu.Runs?
    case _ => true
  }

  function Without<T(==)>(q: seq<T>, p: T): seq<T> {
    if q == [] then [] else if q[0] == p then q[1..] else [q[0]] + Without(q[1..], p)
  }

  function Step<T(==)>(s: State<T>, e: Event<T>): State<T>
    requires Enabled(s, e)
  {
    match e
    case Tick =>
      if !s.active then s else if s.ticks <= 1 then Schedule(s) else s.(ticks := s.ticks - 1)
    case Yield => if !s.active then s else Schedule(s)
    case Stop =>
      var stopped := s.(cpu := Runs(s.cpu.who, false));
      if !s.active then stopped else Schedule(stopped)
    case Ready(p) => s.(queue := s.queue + [p], active := true)
    case Remove(p) => s.(queue := Without(s.queue, p))
    case Begin(p) => s.(cpu := Runs(p, true))
    case Leave => s.(cpu := Nobody)
  }

  /** Whether the event calls schedule(). */
  predicate Calls<T(==)>(s: State<T>, e: Event<T>) {
    s.active && (e.Yield? || e.Stop? || (e.Tick? && s.ticks <= 1))
  }

  lemma {:induction false} WithoutMember<T>(q: seq<T>, p: T, x: T)
    ensures x in Without(q, p) ==> x in q
    ensures x in q && x != p ==> x in Without(q, p)
    ensures |Without(q, p)| <= |q|
  {
    if q != [] && q[0] != p {
      WithoutMember(q[1..], p, x);
    }
  }

  lemma {:induction false} WithoutDistinct<T>(q: seq<T>, p: T)
    requires Distinct(q)
    ensures Distinct(Without(q, p))
  {
    if q != [] && q[0] != p {
      WithoutDistinct(q[1..], p);
      var r := Without(q[1..], p);
      forall j | 0 <= j < |r| ensures r[j] != q[0] {
        WithoutMember(q[1..], p, r[j]);
      }
    }
  }

  lemma StepInv<T>(s: State<T>, e: Event<T>)
    requires Inv(s) && Enabled(s, e)
    ensures Inv(Step(s, e))
  {
    match e
    case Remove(p) =>
      WithoutDistinct(s.queue, p);
      if s.cpu.Runs? { WithoutMember(s.queue, p, s.cpu.who); }
      if s.queue == [] { assert Without(s.queue, p) == []; }
    case _ =>
  }

  // ---------------------------------------------------------------- bounded waiting

  /** The position of `p`, or the length when it is not queued. */
  function Position<T(==)>(q: seq<T>, p: T): (k: nat)
    ensures k <= |q| && (k < |q| <==> p in q)
    ensures k < |q| ==> q[k] == p
  {
    if q == [] then 0 else if q[0] == p then 0 else 1 + Position(q[1..], p)
  }

  lemma {:induction false} WithoutPosition<T>(q: seq<T>, x: T, p: T)
    requires x != p && p in q
    ensures p in Without(q, x) && Position(Without(q, x), p) <= Position(q, p)
  {
    WithoutMember(q, x, p);
    if q[0] == x {
    } else if q[0] != p {
      WithoutPosition(q[1..], x, p);
      assert Without(q, x)[1..] == Without(q[1..], x);
    }
  }

  lemma {:induction false} PositionAppend<T>(q: seq<T>, x: T, p: T)
    requires p in q
    ensures Position(q + [x], p) == Position(q, p)
  {
    if q[0] != p {
      assert (q + [x])[1..] == q[1..] + [x];
      PositionAppend(q[1..], x, p);
    }
  }

  predicate OnCpu<T(==)>(s: State<T>, p: T) {
    s.cpu.Runs? && s.cpu.who == p
  }

  /** A queued process never moves back; each schedule() moves it forward or puts it on the processor. */
  lemma StepForward<T>(s: State<T>, e: Event<T>, p: T)
    requires Inv(s) && Enabled(s, e) && p in s.queue && e != Remove(p)
    ensures var s' := Step(s, e);
            || (OnCpu(s', p) && Position(s.queue, p) == 0)
            || (p in s'.queue && Position(s'.queue, p) <= Position(s.queue, p) - if Calls(s, e) then 1 else 0)
  {
    match e
    case Ready(x) => PositionAppend(s.queue, x, p);
    case Remove(x) => WithoutPosition(s.queue, x, p);
    case Begin(_) =>
    case Leave =>
    case _ =>
      if Calls(s, e) && s.queue[0] != p {
        if s.cpu.Runs? { PositionAppend(s.queue[1..], s.cpu.who, p); }
      }
  }

  /** A run, as the events that happen in it. */
  predicate Runnable<T(==)>(s: State<T>, run: seq<Event<T>>)
    decreases |run|
  {
    run == [] || (Enabled(s, run[0]) && Runnable(Step(s, run[0]), run[1..]))
  }

  /** At some point of the run `p` has the processor. */
  predicate Reaches<T(==)>(s: State<T>, run: seq<Event<T>>, p: T)
    requires Runnable(s, run)
    decreases |run|
  {
    OnCpu(s, p) || (run != [] && Reaches(Step(s, run[0]), run[1..], p))
  }

  function After<T(==)>(s: State<T>, run: seq<Event<T>>): State<T>
    requires Runnable(s, run)
    decreases |run|
  {
    if run == [] then s else After(Step(s, run[0]), run[1..])
  }

  lemma {:induction false} RunJoin<T>(s: State<T>, a: seq<Event<T>>, b: seq<Event<T>>)
    requires Runnable(s, a) && Runnable(After(s, a), b)
    ensures Runnable(s, a + b) && After(s, a + b) == After(After(s, a), b)
    decreases |a|
  {
    if a == [] {
      assert a + b == b;
    } else {
      RunJoin(Step(s, a[0]), a[1..], b);
      assert (a + b)[0] == a[0] && (a + b)[1..] == a[1..] + b;
    }
  }

  function CallCount<T(==)>(s: State<T>, run: seq<Event<T>>): nat
    requires Runnable(s, run)
    decreases |run|
  {
    if run == [] then 0
    else (if Calls(s, run[0]) then 1 else 0) + CallCount(Step(s, run[0]), run[1..])
  }

  function TickCount<T>(run: seq<Event<T>>): nat {
    if run == [] then 0 else (if run[0].Tick? then 1 else 0) + TickCount(run[1..])
  }

  /** Bounded waiting: position `k` means the processor within `k + 1` calls of schedule(), whatever else happens. */
  lemma {:induction false} BoundedWaiting<T>(s: State<T>, run: seq<Event<T>>, p: T)
    requires Inv(s) && Runnable(s, run) && p in s.queue && Remove(p) !in run
    requires CallCount(s, run) >= Position(s.queue, p) + 1
    ensures Reaches(s, run, p)
    decreases |run|
  {
    if run != [] {
      var s' := Step(s, run[0]);
      StepInv(s, run[0]);
      StepForward(s, run[0], p);
      if !OnCpu(s', p) {
        BoundedWaiting(s', run[1..], p);
      }
    }
  }

  /** Two ticks never pass without a call of schedule(). */
  lemma {:induction false} TicksForceCalls<T>(s: State<T>, run: seq<Event<T>>)
    requires Inv(s) && s.active && Runnable(s, run)
    ensures 2 * CallCount(s, run) >= TickCount(run) + 1 - s.ticks
    decreases |run|
  {
    if run != [] {
      StepInv(s, run[0]);
      TicksForceCalls(Step(s, run[0]), run[1..]);
    }
  }

  /** Hence the processor comes within `2 (k + 1)` timer ticks. */
  lemma BoundedTicks<T>(s: State<T>, run: seq<Event<T>>, p: T)
    requires Inv(s) && Runnable(s, run) && p in s.queue && Remove(p) !in run
    requires TickCount(run) >= 2 * (Position(s.queue, p) + 1)
    ensures Reaches(s, run, p)
  {
    TicksForceCalls(s, run);
    BoundedWaiting(s, run, p);
  }
}
