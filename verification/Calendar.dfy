/** The calendar queue: where timeshared threads are inserted relative to the run index, and in which
    order a queue is drained (`kernel/core/sched/ule.c`). */
module Calendar {
  import opened Common
  import opened RunQueues
  import opened ThreadSelect
  import opened CpuRuns
  import opened BootRuns

  /** How far the insert index is ahead of the run index, around the calendar. */
  function Gap(runidx: nat, insidx: nat): nat
    requires runidx < RUNQUEUES_N && insidx < RUNQUEUES_N
  {
    if runidx <= insidx then insidx - runidx else insidx + RUNQUEUES_N - runidx
  }

  predicate Ahead(s: PerCpu) {
    s.runidx < RUNQUEUES_N && s.insidx < RUNQUEUES_N && Gap(s.runidx, s.insidx) == 1
  }

  predicate Indexed(s: PerCpu) {
    s.runidx < RUNQUEUES_N && s.insidx < RUNQUEUES_N
  }

  /** What emptying a queue and what a tick do to the gap. A gap of one is the fixed point of both;
      a queue emptied while the indices still coincide opens a gap of 63. */
  lemma GapMoves(s: PerCpu)
    requires Indexed(s)
    ensures var g, i, b := Gap(s.runidx, s.insidx), Increment(s), Bump(s);
            && Gap(i.runidx, i.insidx) == (if g == 1 then 1 else if g == 0 then 63 else g - 1)
            && Gap(b.runidx, b.insidx) == (if g == 0 then 1 else g)
  {
  }

  // ---------------------------------------------------------------------------
  // The separation of the indices
  // ---------------------------------------------------------------------------

  predicate SameIndices(s: PerCpu, s': PerCpu) {
    s'.runidx == s.runidx && s'.insidx == s.insidx
  }

  /** The indices moved on exactly if the step emptied a queue. */
  predicate Moves(s: PerCpu, s': PerCpu, emptied: bool) {
    if emptied then SameIndices(Increment(s), s') else SameIndices(s, s')
  }

  lemma TakeBatchIndices(s: PerCpu, i: nat, migrate: bool)
    requires Shaped(s) && i < RUNQUEUES_N && Offers(s.calendar.queues[i], migrate)
    ensures var s' := TakeBatch(s, i, migrate); Moves(s, s', !migrate && Empties(s, s'))
  {
    var s' := TakeBatch(s, i, migrate);
    assert s'.calendar.queues == s.calendar.queues[i := s'.calendar.queues[i]];
    if s'.calendar.queues[i] == [] {
      assert Empties(s, s');
    }
  }

  lemma BatchIndices(s: PerCpu, migrate: bool)
    requires Shaped(s)
    ensures var s' := PickBatch(s, migrate).s; Moves(s, s', !migrate && Empties(s, s'))
  {
    var k := Scan(s.calendar.queues, s.runidx, 0, migrate);
    if k < RUNQUEUES_N {
      var s' := TakeBatch(s, Around(s.runidx, k), migrate);
      assert PickBatch(s, migrate).s == s';
      TakeBatchIndices(s, Around(s.runidx, k), migrate);
    }
  }

  /** Only a non-migrating selection that empties a calendar queue moves the indices. */
  lemma SelectIndices(s: PerCpu, cur: Option<Td>, migrate: bool)
    requires Shaped(s) && (cur.Some? ==> TdOk(cur.value))
    ensures var s' := Select(s, cur, migrate).s; Moves(s, s', !migrate && Empties(s, s'))
  {
    var minprio := if cur.Some? then cur.value.priority else 0;
    var p := PickRealtime(s, minprio, migrate);
    if p.td.Some? {
      RealtimeIndices(s, minprio, migrate);
    } else {
      LowerIndices(s, cur, migrate);
    }
  }

  lemma RealtimeIndices(s: PerCpu, minprio: nat, migrate: bool)
    requires Shaped(s) && minprio <= RUNQUEUES_N
    ensures var s' := Charge(PickRealtime(s, minprio, migrate)).s; SameIndices(s, s') && s'.calendar == s.calendar
  {
  }

  lemma LowerIndices(s: PerCpu, cur: Option<Td>, migrate: bool)
    requires Shaped(s)
    ensures var s' := SelectLower(s, cur, migrate).s; Moves(s, s', !migrate && Empties(s, s'))
  {
    var batch, p := PickBatch(s, migrate), SelectLower(s, cur, migrate);
    BatchIndices(s, migrate);
    assert (p.s.calendar == batch.s.calendar && SameIndices(batch.s, p.s)) || (p.s.calendar == s.calendar && SameIndices(s, p.s));
  }

  lemma ReadyIndices(s: PerCpu, td: Td)
    requires Shaped(s) && TdOk(td) && (s.next.Some? ==> TdOk(s.next.value))
    ensures SameIndices(s, TryPreempt(s, td))
  {
  }

  lemma RescheduleIndices(s: PerCpu, cur: Td)
    requires Shaped(s) && TdOk(cur)
    ensures Moves(Bump(s), RescheduleOn(s, cur), Empties(s, Select(Bump(s), Some(cur), false).s))
  {
    SelectIndices(Bump(s), Some(cur), false);
  }

  lemma RequeueIndices(s: PerCpu, cur: Td)
    requires Shaped(s) && TdOk(cur)
    ensures SameIndices(s, Insert(s, cur))
  {
  }

  lemma StepIndices(m: Machine, step: Step)
    requires CanStep(m, step)
    ensures Moves(if step.Reschedule? then Bump(m.s) else m.s, After(m, step), Emptied(m, step))
  {
    match step
    case Ready(td) =>
      SlotOk(m.s, td);
      ReadyIndices(m.s, td);
    case Steal => SelectIndices(m.s, None, true);
    case Reschedule(cur) => RescheduleIndices(m.s, cur);
    case PickYield(cur) => SelectIndices(m.s, Some(cur), false);
    case Requeue(_) => RequeueIndices(m.s, m.hand.cur);
    case _ =>
  }

  /** Once the insert index is one ahead it stays one ahead, and a tick puts it there from boot. */
  lemma StepAhead(m: Machine, step: Step)
    requires CanStep(m, step)
    requires Ahead(m.s) || (step.Reschedule? && m.s.runidx == m.s.insidx)
    ensures Ahead(After(m, step))
  {
    StepIndices(m, step);
    GapMoves(m.s);
    GapMoves(Bump(m.s));
  }

  lemma {:induction false} RunAhead(m: Machine, steps: seq<Step>)
    requires IsRun(m, steps) && Ahead(m.s)
    ensures Ahead(Final(m, steps).s)
    decreases |steps|
  {
    if steps != [] {
      StepAhead(m, steps[0]);
      RunAhead(Apply(m, steps[0]), steps[1..]);
    }
  }

  // ---------------------------------------------------------------------------
  // The separation from boot on
  // ---------------------------------------------------------------------------

  /** The distance of the indices after `n` emptied queues. */
  function Expected(ticked: bool, n: nat): nat {
    if ticked || n >= 63 then 1 else if n == 0 then 0 else 64 - n
  }

  ghost predicate GapOk(m: Machine) {
    Indexed(m.s) && Gap(m.s.runidx, m.s.insidx) == Expected(m.ticked, m.emptied)
  }

  /** The distance after a move from `s`, or from where a tick puts it. */
  lemma GapStep(s: PerCpu, s': PerCpu, tick: bool, emptied: bool, ticked: bool, n: nat)
    requires Indexed(s) && Gap(s.runidx, s.insidx) == Expected(ticked, n) && Moves(if tick then Bump(s) else s, s', emptied)
    ensures Indexed(s')
    ensures Gap(s'.runidx, s'.insidx) == Expected(ticked || (n == 0 && tick), if emptied then n + 1 else n)
  {
    GapMoves(s);
    GapMoves(Bump(s));
  }

  lemma StepGapOk(m: Machine, step: Step)
    requires CanStep(m, step) && GapOk(m)
    ensures GapOk(Apply(m, step))
  {
    StepIndices(m, step);
    GapStep(m.s, After(m, step), step.Reschedule?, Emptied(m, step), m.ticked, m.emptied);
  }

  lemma {:induction false} RunGapOk(m: Machine, steps: seq<Step>)
    requires IsRun(m, steps) && GapOk(m)
    ensures GapOk(Final(m, steps))
    decreases |steps|
  {
    if steps != [] {
      StepGapOk(m, steps[0]);
      RunGapOk(Apply(m, steps[0]), steps[1..]);
    }
  }

  /** In every run from boot the insert index is one ahead exactly if a tick came before the first emptied
      calendar queue or at least 63 queues were emptied, and no timeshared insertion lands in the
      queue at the run index exactly if a tick came first or at least 32 were. */
  lemma GapFromBoot(steps: seq<Step>)
    requires IsRun(Boot(), steps)
    ensures var f := Final(Boot(), steps);
            && Indexed(f.s)
            && (Ahead(f.s) <==> f.ticked || f.emptied >= 63)
            && (Misses(f.s) <==> f.ticked || f.emptied >= 32)
  {
    RunGapOk(Boot(), steps);
    GapMeans(Final(Boot(), steps));
  }

  lemma GapMeans(m: Machine)
    requires GapOk(m)
    ensures Ahead(m.s) <==> m.ticked || m.emptied >= 63
    ensures Misses(m.s) <==> m.ticked || m.emptied >= 32
  {
    NeverAtRunIndex(m.s);
  }

  /** Two threads are readied one after the other; the first runs and yields to the second before the
      first tick. */
  lemma BehindFromBoot() returns (steps: seq<Step>)
    ensures IsRun(Boot(), steps)
    ensures var f := Final(Boot(), steps).s;
            && Indexed(f) && Gap(f.runidx, f.insidx) == 63 && CalendarIndex(f.insidx, 31) == f.runidx
  {
    var first, second := Batch(1, 16), Batch(2, 16);
    var m := Running(first);
    StartedOk(first);
    Waits(m, second);
    InCalendar(m.s, second);
    NoMore(multiset{second});
    var m1 := Apply(m, Ready(second));
    var m2 := YieldedTo(m1, first, second);
    RunOne(m1, PickYield(first));
    RunCons(m, Ready(second), [PickYield(first)]);
    steps := Start(first, [Ready(second)] + [PickYield(first)]);
    StartThen(first, [Ready(second)] + [PickYield(first)]);
  }

  lemma YieldedTo(m: Machine, first: Td, second: Td) returns (m': Machine)
    requires Inv(m.s) && m.hand.Free? && All(m.s) == multiset{second} && m.s.runidx == m.s.insidx == 0
    requires first == Batch(1, 16) && second in m.s.calendar.queues[CalendarIndex(0, 16)]
    ensures CanStep(m, PickYield(first)) && m' == Apply(m, PickYield(first))
    ensures Indexed(m'.s) && Gap(m'.s.runidx, m'.s.insidx) == 63 && CalendarIndex(m'.s.insidx, 31) == m'.s.runidx
  {
    YieldEmpties(m, first, second, CalendarIndex(0, 16));
    m' := Apply(m, PickYield(first));
    YieldMoves(m.s, first);
  }

  lemma YieldMoves(s: PerCpu, cur: Td)
    requires Inv(s) && TdOk(cur) && s.runidx == s.insidx == 0 && Empties(s, Select(s, Some(cur), false).s)
    ensures var s' := Select(s, Some(cur), false).s;
            Indexed(s') && Gap(s'.runidx, s'.insidx) == 63 && CalendarIndex(s'.insidx, 31) == s'.runidx
  {
    SelectIndices(s, Some(cur), false);
  }

  lemma YieldEmpties(m: Machine, cur: Td, td: Td, i: nat)
    requires Inv(m.s) && m.hand.Free? && TdOk(cur) && cur.priorityClass == PRIO_LOW_BATCH && !cur.interactive
    requires All(m.s) == multiset{td} && i < RUNQUEUES_N && td in m.s.calendar.queues[i]
    ensures CanStep(m, PickYield(cur)) && Emptied(m, PickYield(cur))
  {
    BatchFound(m.s, cur, td, i);
    SelectOk(m.s, Some(cur), false);
    LastTaken(m.s, Select(m.s, Some(cur), false), i);
  }

  lemma BatchFound(s: PerCpu, cur: Td, td: Td, i: nat)
    requires Shaped(s) && TdOk(cur) && i < RUNQUEUES_N && td in s.calendar.queues[i]
    requires cur.priorityClass == PRIO_LOW_BATCH && !cur.interactive
    ensures Select(s, Some(cur), false).td.Some?
  {
    SelectFails(s, Some(cur), false);
    assert !Stuck(s.calendar.queues[i], false);
  }

  lemma LastTaken(s: PerCpu, p: Pick, i: nat)
    requires Removes(s, p, false) && p.td.Some? && |All(s)| == 1
    requires i < |s.calendar.queues| == |p.s.calendar.queues| && s.calendar.queues[i] != []
    ensures Empties(s, p.s)
  {
    var q := p.s.calendar.queues[i];
    assert |All(s)| == |All(p.s)| + 1;
    if q != [] {
      InBag(p.s.calendar.queues, i, q[0]);
    }
  }

  // ---------------------------------------------------------------------------
  // Where insertion lands
  // ---------------------------------------------------------------------------

  /** The number of scan steps from the run index to the queue an insertion chooses. */
  function Distance(s: PerCpu, priority: nat): nat
    requires Indexed(s) && priority <= PRIO_MAX
  {
    Gap(s.runidx, CalendarIndex(s.insidx, priority))
  }

  lemma DistanceIs(s: PerCpu, priority: nat)
    requires Indexed(s) && PRIO_LOW_BATCH <= priority <= PRIO_HIGH_BATCH
    ensures var d := Gap(s.runidx, s.insidx) + PRIO_HIGH_BATCH - priority;
            Distance(s, priority) == if d < RUNQUEUES_N then d else d - RUNQUEUES_N
  {
  }

  /** No timeshared insertion lands in the queue being run. */
  predicate Misses(s: PerCpu) {
    forall p: nat | PRIO_LOW_BATCH <= p <= PRIO_HIGH_BATCH :: CalendarIndex(s.insidx, p) != s.runidx
  }

  /** That is so exactly if the gap is 1 to 32. */
  lemma NeverAtRunIndex(s: PerCpu)
    requires Indexed(s)
    ensures Misses(s) <==> 1 <= Gap(s.runidx, s.insidx) <= 32
  {
    var g := Gap(s.runidx, s.insidx);
    if g == 0 {
      assert CalendarIndex(s.insidx, 32) == s.runidx;
    } else if g > 32 {
      var p: nat := g - 32;
      DistanceIs(s, p);
      assert CalendarIndex(s.insidx, p) == s.runidx;
    } else {
      forall p: nat | PRIO_LOW_BATCH <= p <= PRIO_HIGH_BATCH ensures CalendarIndex(s.insidx, p) != s.runidx {
        DistanceIs(s, p);
      }
    }
  }

  /** Higher priorities land strictly nearer in scan order exactly if the gap is at most 32. */
  lemma HigherIsNearer(s: PerCpu)
    requires Indexed(s)
    ensures (forall p: nat, q: nat | PRIO_LOW_BATCH <= p < q <= PRIO_HIGH_BATCH :: Distance(s, q) < Distance(s, p))
            <==> Gap(s.runidx, s.insidx) <= 32
  {
    var g := Gap(s.runidx, s.insidx);
    if g <= 32 {
      forall p: nat, q: nat | PRIO_LOW_BATCH <= p < q <= PRIO_HIGH_BATCH ensures Distance(s, q) < Distance(s, p) {
        DistanceIs(s, p);
        DistanceIs(s, q);
      }
    } else {
      DistanceIs(s, 1);
      DistanceIs(s, 32);
      assert Distance(s, 32) > Distance(s, 1);
    }
  }

  // ---------------------------------------------------------------------------
  // Draining the queue at the run index
  // ---------------------------------------------------------------------------

  /** A timeshared thread as `sched_recompute_priority` leaves it. */
  predicate Timeshared(td: Td) {
    td.priorityClass == PRIO_LOW_BATCH && !td.interactive && PRIO_LOW_BATCH <= td.priority <= PRIO_HIGH_BATCH
  }

  datatype Op = Put(td: Td) | Get

  ghost predicate Puts(ops: seq<Op>) {
    forall i :: 0 <= i < |ops| && ops[i].Put? ==> Timeshared(ops[i].td)
  }

  function Gets(ops: seq<Op>): nat {
    if ops == [] then 0 else (if ops[0].Get? then 1 else 0) + Gets(ops[1..])
  }

  function Do(s: PerCpu, op: Op): (p: Pick)
    requires Shaped(s) && (op.Put? ==> op.td.priority <= PRIO_MAX)
    ensures Shaped(p.s)
  {
    match op
    case Put(td) => Pick(None, Insert(s, td))
    case Get => PickBatch(s, false)
  }

  datatype Outcome = Outcome(s: PerCpu, out: seq<Td>)

  /** The CPU after some inserts and non-migrating batch picks, and the threads picked, in order. */
  function DoAll(s: PerCpu, ops: seq<Op>): (o: Outcome)
    requires Shaped(s) && forall i :: 0 <= i < |ops| && ops[i].Put? ==> ops[i].td.priority <= PRIO_MAX
    decreases |ops|
  {
    if ops == [] then Outcome(s, [])
    else
      var p := Do(s, ops[0]);
      var rest := DoAll(p.s, ops[1..]);
      Outcome(rest.s, if p.td.Some? then [p.td.value] + rest.out else rest.out)
  }

  /** Queue `r` still holds `q`; it is the queue being run until it is empty. */
  predicate Draining(s: PerCpu, r: nat, q: seq<Td>) {
    && Shaped(s) && Ahead(s) && r < RUNQUEUES_N
    && s.calendar.queues[r] == q
    && s.runidx == (if q == [] then (r + 1) % RUNQUEUES_N else r)
  }

  lemma PutDraining(s: PerCpu, r: nat, q: seq<Td>, td: Td)
    requires Draining(s, r, q) && Timeshared(td)
    ensures Draining(Insert(s, td), r, q)
  {
    DistanceIs(s, td.priority);
  }

  lemma GetDraining(s: PerCpu, r: nat, q: seq<Td>)
    requires Draining(s, r, q) && q != []
    ensures PickBatch(s, false).td == Some(q[0]) && Draining(PickBatch(s, false).s, r, q[1..])
  {
    assert Around(s.runidx, 0) == r;
    assert Offers(s.calendar.queues[r], false);
    assert Without(q, 0) == q[1..];
    GapMoves(s);
  }

  lemma Unroll(q: seq<Td>, n: nat)
    requires n < |q|
    ensures q[..n + 1] == [q[0]] + q[1..][..n] && q[n + 1..] == q[1..][n..]
  {
  }

  /** A queue of n threads at the run index is drained first in, first out by exactly n picks,
      whatever is inserted meanwhile, and the nth pick moves the run index on. */
  lemma {:induction false} Drains(s: PerCpu, r: nat, q: seq<Td>, ops: seq<Op>)
    requires Draining(s, r, q) && Puts(ops) && Gets(ops) <= |q|
    ensures DoAll(s, ops).out == q[..Gets(ops)] && Draining(DoAll(s, ops).s, r, q[Gets(ops)..])
    decreases |ops|
  {
    if ops != [] {
      var op, rest := ops[0], ops[1..];
      if op.Put? {
        PutDraining(s, r, q, op.td);
        Drains(Insert(s, op.td), r, q, rest);
      } else {
        GetDraining(s, r, q);
        Drains(PickBatch(s, false).s, r, q[1..], rest);
        Unroll(q, Gets(rest));
      }
    }
  }
}
