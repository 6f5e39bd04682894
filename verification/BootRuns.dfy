/** Runs from boot in which a CPU loses a thread, runs one that is still queued, or prefers a lower
    priority. */
module BootRuns {
  import opened Common
  import opened RunQueues
  import opened ThreadSelect
  import opened CpuRuns

  /** The idle thread of the CPU. */
  function IdleThread(): Td {
    Td(0, PRIO_IDLE, PRIO_IDLE, false, true)
  }

  function Batch(id: nat, priority: nat): Td {
    Td(id, priority, PRIO_LOW_BATCH, false, false)
  }

  function Realtime(id: nat, priority: nat): Td {
    Td(id, priority, PRIO_REALTIME, false, false)
  }

  lemma RunOne(m: Machine, e: Step)
    requires CanStep(m, e)
    ensures IsRun(m, [e]) && Final(m, [e]) == Apply(m, e)
  {
    assert [e][1..] == [];
  }

  lemma RunCons(m: Machine, e: Step, steps: seq<Step>)
    requires CanStep(m, e) && IsRun(Apply(m, e), steps)
    ensures IsRun(m, [e] + steps) && Final(m, [e] + steps) == Final(Apply(m, e), steps)
  {
    assert ([e] + steps)[1..] == steps;
  }

  // ---------------------------------------------------------------------------
  // A thread is readied on the idle CPU and runs
  // ---------------------------------------------------------------------------

  function Running(td: Td): Machine {
    Machine(IdleCpu().(running := StatusOf(Some(td))), Free, multiset{td}, multiset{td}, 0, false)
  }

  function InSlot(td: Td, hand: Hand): Machine {
    Machine(IdleCpu().(next := Some(td)), hand, multiset{td}, multiset{}, 0, false)
  }

  function Coming(td: Td): Machine {
    Machine(IdleCpu(), Arriving(Some(td)), multiset{td}, multiset{}, 0, false)
  }

  lemma StartedOk(td: Td)
    requires TdOk(td)
    ensures Inv(IdleCpu()) && Inv(IdleCpu().(next := Some(td))) && Inv(Running(td).s)
    ensures All(Running(td).s) == multiset{} && All(IdleCpu().(next := Some(td))) == multiset{}
  {
    IdleCpuOk();
    SlotOk(IdleCpu(), td);
    FrameOk(IdleCpu(), StatusOf(Some(td)));
    assert All(Running(td).s) == All(IdleCpu());
  }

  lemma NoMore(a: multiset<Td>)
    ensures a + multiset{} == a && multiset{} + a == a
  {
  }

  lemma FirstReadied(td: Td)
    requires TdOk(td)
    ensures CanStep(Boot(), Ready(td)) && Apply(Boot(), Ready(td)) == InSlot(td, Free)
  {
    StartedOk(td);
    NoMore(multiset{td});
  }

  lemma FirstSwitched(td: Td)
    requires TdOk(td)
    ensures CanStep(InSlot(td, Free), PickSlot(IdleThread()))
    ensures Apply(InSlot(td, Free), PickSlot(IdleThread())) == InSlot(td, Going(IdleThread(), Some(td), true))
    ensures CanStep(InSlot(td, Going(IdleThread(), Some(td), true)), Requeue(false))
    ensures Apply(InSlot(td, Going(IdleThread(), Some(td), true)), Requeue(false)) == InSlot(td, Leaving(Some(td), true))
  {
    StartedOk(td);
    NoMore(multiset{td});
    NoMore(multiset{});
  }

  lemma FirstArrived(td: Td)
    requires TdOk(td)
    ensures CanStep(InSlot(td, Leaving(Some(td), true)), Clear)
    ensures Apply(InSlot(td, Leaving(Some(td), true)), Clear) == Coming(td)
    ensures CanStep(Coming(td), Stash) && Apply(Coming(td), Stash) == Running(td)
  {
    StartedOk(td);
    NoMore(multiset{td});
    NoMore(multiset{});
  }

  /** The thread is readied, switched to, and then `rest` happens. */
  function Start(td: Td, rest: seq<Step>): seq<Step> {
    [Ready(td)] + ([PickSlot(IdleThread())] + ([Requeue(false)] + ([Clear] + ([Stash] + rest))))
  }

  lemma ArriveThen(td: Td, rest: seq<Step>)
    requires TdOk(td) && IsRun(Running(td), rest)
    ensures var m, steps := InSlot(td, Leaving(Some(td), true)), [Clear] + ([Stash] + rest);
            IsRun(m, steps) && Final(m, steps) == Final(Running(td), rest)
  {
    FirstArrived(td);
    RunCons(Coming(td), Stash, rest);
    RunCons(InSlot(td, Leaving(Some(td), true)), Clear, [Stash] + rest);
  }

  lemma SwitchThen(td: Td, rest: seq<Step>)
    requires TdOk(td) && IsRun(InSlot(td, Leaving(Some(td), true)), rest)
    ensures var steps := [PickSlot(IdleThread())] + ([Requeue(false)] + rest);
            && IsRun(InSlot(td, Free), steps)
            && Final(InSlot(td, Free), steps) == Final(InSlot(td, Leaving(Some(td), true)), rest)
  {
    FirstSwitched(td);
    RunCons(InSlot(td, Going(IdleThread(), Some(td), true)), Requeue(false), rest);
    RunCons(InSlot(td, Free), PickSlot(IdleThread()), [Requeue(false)] + rest);
  }

  /** What can happen while the thread runs can happen in a run from boot. */
  lemma StartThen(td: Td, rest: seq<Step>)
    requires TdOk(td) && IsRun(Running(td), rest)
    ensures IsRun(Boot(), Start(td, rest)) && Final(Boot(), Start(td, rest)) == Final(Running(td), rest)
  {
    var late := [Clear] + ([Stash] + rest);
    var early := [PickSlot(IdleThread())] + ([Requeue(false)] + late);
    ArriveThen(td, rest);
    SwitchThen(td, late);
    FirstReadied(td);
    RunCons(Boot(), Ready(td), early);
  }

  // ---------------------------------------------------------------------------
  // Single steps
  // ---------------------------------------------------------------------------

  lemma Preempts(m: Machine, td: Td)
    requires Inv(m.s) && HandOk(m.hand) && TdOk(td) && m.s.next.None? && ShouldPreempt(td, m.s.running)
    ensures CanStep(m, Ready(td))
    ensures Apply(m, Ready(td)) == m.(s := m.s.(next := Some(td)), given := m.given + multiset{td})
    ensures Inv(m.s.(next := Some(td))) && All(m.s.(next := Some(td))) == All(m.s)
  {
    SlotOk(m.s, td);
    NoMore(m.taken);
  }

  lemma Waits(m: Machine, td: Td)
    requires Inv(m.s) && HandOk(m.hand) && TdOk(td) && !ShouldPreempt(td, m.s.running)
    ensures CanStep(m, Ready(td))
    ensures Apply(m, Ready(td)) == m.(s := Insert(m.s, td), given := m.given + multiset{td})
    ensures Inv(Insert(m.s, td)) && All(Insert(m.s, td)) == All(m.s) + multiset{td}
    ensures Insert(m.s, td).next == m.s.next && Insert(m.s, td).running == m.s.running
  {
    InsertOk(m.s, td);
    NoMore(m.taken);
  }

  lemma NoneLeft(rest: multiset<Td>, td: Option<Td>)
    requires rest + Single(td) == multiset{}
    ensures td.None?
  {
    assert |rest + Single(td)| == |rest| + |Single(td)|;
    SameSingle(td, None);
  }

  lemma NothingQueued(s: PerCpu, cur: Td)
    requires Inv(s) && TdOk(cur) && All(s) == multiset{}
    ensures Select(s, Some(cur), false) == Pick(None, s)
  {
    SelectOk(s, Some(cur), false);
    var p := Select(s, Some(cur), false);
    NoMore(All(s));
    NoneLeft(All(p.s), p.td);
  }

  lemma YieldsToIdle(m: Machine, cur: Td)
    requires Inv(m.s) && TdOk(cur) && m.hand.Free? && All(m.s) == multiset{}
    ensures CanStep(m, PickYield(cur)) && Apply(m, PickYield(cur)) == m.(hand := Going(cur, None, false))
  {
    NothingQueued(m.s, cur);
    NoMore(m.taken);
    NoMore(m.given);
  }

  lemma Reads(m: Machine, cur: Td)
    requires Inv(m.s) && TdOk(cur) && m.hand.Free? && m.s.next.Some?
    ensures CanStep(m, PickSlot(cur)) && Apply(m, PickSlot(cur)) == m.(hand := Going(cur, m.s.next, true))
  {
    NoMore(m.taken);
    NoMore(m.given);
  }

  lemma Departs(m: Machine)
    requires Inv(m.s) && HandOk(m.hand) && m.hand.Going?
    ensures CanStep(m, Requeue(false)) && Apply(m, Requeue(false)) == m.(hand := Leaving(m.hand.to, m.hand.slot))
  {
    NoMore(m.taken);
    NoMore(m.given);
  }

  lemma Clears(m: Machine)
    requires Inv(m.s) && m.hand.Leaving?
    ensures CanStep(m, Clear)
    ensures Apply(m, Clear) == m.(s := m.s.(next := None), hand := Arriving(m.hand.to))
    ensures Held(m.s.(next := None)) == All(m.s) && Inv(m.s.(next := None))
  {
    FrameOk(m.s, m.s.running);
    NoMore(m.taken);
    NoMore(m.given);
    NoMore(All(m.s));
  }

  /** A thread that was handed over and is nowhere. */
  predicate Lost(m: Machine, td: Td) {
    td in m.given && td !in Holding(m.s, m.hand) && td !in m.taken
  }

  // ---------------------------------------------------------------------------
  // Switches
  // ---------------------------------------------------------------------------

  /** The end of a switch, with nothing queued: whatever is in the slot is lost. */
  lemma SlotGoes(m: Machine, td: Td) returns (m': Machine)
    requires Inv(m.s) && HandOk(m.hand) && m.hand.Going? && m.hand.to.None? && All(m.s) == multiset{}
    requires td in m.given && td !in m.taken
    ensures IsRun(m, [Requeue(false)] + [Clear]) && Final(m, [Requeue(false)] + [Clear]) == m' && Lost(m', td)
  {
    var m1 := m.(hand := Leaving(m.hand.to, m.hand.slot));
    Departs(m);
    Clears(m1);
    m' := Apply(m1, Clear);
    RunOne(m1, Clear);
    RunCons(m, Requeue(false), [Clear]);
    NoMore(multiset{});
  }

  /** A thread yields while another one is in the slot. */
  lemma YieldLoses() returns (steps: seq<Step>, td: Td)
    ensures IsRun(Boot(), steps) && Lost(Final(Boot(), steps), td)
  {
    var cur := Batch(1, 16);
    td := Realtime(2, 40);
    var m, rest := Running(cur), [Requeue(false)] + [Clear];
    StartedOk(cur);
    Preempts(m, td);
    var m1 := Apply(m, Ready(td));
    YieldsToIdle(m1, cur);
    var m3 := SlotGoes(m1.(hand := Going(cur, None, false)), td);
    RunCons(m1, PickYield(cur), rest);
    RunCons(m, Ready(td), [PickYield(cur)] + rest);
    steps := Start(cur, [Ready(td)] + ([PickYield(cur)] + rest));
    StartThen(cur, [Ready(td)] + ([PickYield(cur)] + rest));
  }

  /** The slot is empty when the thread yields, and is filled after the lock is released. */
  lemma YieldRaces() returns (steps: seq<Step>, td: Td)
    ensures IsRun(Boot(), steps) && Lost(Final(Boot(), steps), td)
  {
    var cur := Batch(1, 16);
    td := Realtime(2, 40);
    var m, rest := Running(cur), [Requeue(false)] + [Clear];
    StartedOk(cur);
    YieldsToIdle(m, cur);
    var m1 := m.(hand := Going(cur, None, false));
    Preempts(m1, td);
    var m3 := SlotGoes(Apply(m1, Ready(td)), td);
    RunCons(m1, Ready(td), rest);
    RunCons(m, PickYield(cur), [Ready(td)] + rest);
    steps := Start(cur, [PickYield(cur)] + ([Ready(td)] + rest));
    StartThen(cur, [PickYield(cur)] + ([Ready(td)] + rest));
  }

  /** A second thread preempts after the first was read from the slot: the first goes on the queue. */
  lemma Displaces(m: Machine, first: Td, td: Td)
    requires Inv(m.s) && HandOk(m.hand) && TdOk(td) && m.s.next == Some(first) && ShouldPreempt(td, m.s.running)
    requires All(m.s) == multiset{}
    ensures CanStep(m, Ready(td))
    ensures var m' := Apply(m, Ready(td));
            && Inv(m'.s) && m'.hand == m.hand && m'.given == m.given + multiset{td} && m'.taken == m.taken
            && All(m'.s) == multiset{first} && m'.s.next == Some(td)
  {
    SlotOk(m.s, td);
    InsertOk(m.s.(next := Some(td)), first);
    NoMore(m.taken);
    NoMore(multiset{first});
  }

  /** The switch then runs the first, which is queued as well, and loses the second. */
  lemma Doubles(m: Machine, first: Td, td: Td) returns (m': Machine)
    requires Inv(m.s) && HandOk(m.hand) && m.hand.Going? && m.hand.to == Some(first) && All(m.s) == multiset{first}
    requires td in m.given && td !in m.taken && td != first
    ensures var steps := [Requeue(false)] + ([Clear] + [Stash]);
            && IsRun(m, steps) && Final(m, steps) == m'
            && first in All(m'.s) && first in m'.taken && Lost(m', td) && m'.given == m.given
  {
    var m1 := m.(hand := Leaving(m.hand.to, m.hand.slot));
    Departs(m);
    Clears(m1);
    var m2 := Apply(m1, Clear);
    FrameOk(m2.s, StatusOf(Some(first)));
    m' := Apply(m2, Stash);
    RunOne(m2, Stash);
    RunCons(m1, Clear, [Stash]);
    RunCons(m, Requeue(false), [Clear] + [Stash]);
    NoMore(m.given);
    assert All(m'.s) == All(m.s);
    NoMore(All(m.s));
  }

  lemma ReadThenDisplaced(m: Machine, cur: Td, first: Td, td: Td) returns (m': Machine)
    requires Inv(m.s) && m.hand.Free? && TdOk(cur) && TdOk(td) && ShouldPreempt(td, m.s.running)
    requires m.s.next == Some(first) && All(m.s) == multiset{} && td != first && td !in m.taken
    ensures var steps := [PickSlot(cur)] + ([Ready(td)] + ([Requeue(false)] + ([Clear] + [Stash])));
            && IsRun(m, steps) && Final(m, steps) == m'
            && first in All(m'.s) && first in m'.taken && Lost(m', td) && m'.given == m.given + multiset{td}
  {
    var rest := [Requeue(false)] + ([Clear] + [Stash]);
    Reads(m, cur);
    var m1 := m.(hand := Going(cur, m.s.next, true));
    Displaces(m1, first, td);
    m' := Doubles(Apply(m1, Ready(td)), first, td);
    RunCons(m1, Ready(td), rest);
    RunCons(m, PickSlot(cur), [Ready(td)] + rest);
  }

  lemma SlotDoubles() returns (steps: seq<Step>, first: Td, td: Td)
    ensures IsRun(Boot(), steps)
    ensures var f := Final(Boot(), steps);
            f.given[first] == 1 && first in All(f.s) && first in f.taken && Lost(f, td)
  {
    var cur := Batch(1, 16);
    first, td := Realtime(2, 40), Realtime(3, 50);
    var m, rest := Running(cur), [PickSlot(cur)] + ([Ready(td)] + ([Requeue(false)] + ([Clear] + [Stash])));
    StartedOk(cur);
    Preempts(m, first);
    var m' := ReadThenDisplaced(Apply(m, Ready(first)), cur, first, td);
    RunCons(m, Ready(first), rest);
    steps := Start(cur, [Ready(first)] + rest);
    StartThen(cur, [Ready(first)] + rest);
  }

  // ---------------------------------------------------------------------------
  // A tick
  // ---------------------------------------------------------------------------

  lemma InCalendar(s: PerCpu, td: Td)
    requires Shaped(s) && TdOk(td) && td.priorityClass == PRIO_LOW_BATCH && !td.interactive
    ensures td in Insert(s, td).calendar.queues[CalendarIndex(s.insidx, td.priority)]
  {
    var q := s.calendar.queues[CalendarIndex(s.insidx, td.priority)];
    assert (q + [td])[|q|] == td;
  }

  lemma TickFinds(s: PerCpu, cur: Td, td: Td, i: nat)
    requires Shaped(s) && TdOk(cur) && cur.priorityClass == PRIO_LOW_BATCH && !cur.interactive
    requires i < RUNQUEUES_N && td in s.calendar.queues[i]
    ensures Select(Bump(s), Some(cur), false).td.Some?
  {
    TickFails(s, cur);
    assert !Stuck(s.calendar.queues[i], false);
  }

  lemma Ticks(m: Machine, cur: Td, queued: Td, i: nat, td: Td)
    requires Inv(m.s) && m.hand.Free? && TdOk(cur) && cur.priorityClass == PRIO_LOW_BATCH && !cur.interactive
    requires All(m.s) == multiset{queued} && i < RUNQUEUES_N && queued in m.s.calendar.queues[i]
    requires td in m.given && td !in m.taken && td != queued
    ensures CanStep(m, Reschedule(cur)) && Lost(Apply(m, Reschedule(cur)), td)
  {
    TickFinds(m.s, cur, queued, i);
    RescheduleOk(m.s, cur);
    NoMore(All(m.s));
    NoMore(m.taken);
    NoMore(m.given);
  }

  /** A timeshared thread waits on the queue and another one in the slot: the tick selects the first and
      overwrites the second. */
  lemma TickLoses() returns (steps: seq<Step>, td: Td)
    ensures IsRun(Boot(), steps) && Lost(Final(Boot(), steps), td)
  {
    var cur, queued := Batch(1, 16), Batch(2, 16);
    td := Realtime(3, 40);
    var m := Running(cur);
    StartedOk(cur);
    Waits(m, queued);
    InCalendar(m.s, queued);
    NoMore(multiset{queued});
    var m1 := Apply(m, Ready(queued));
    Preempts(m1, td);
    var m2 := Apply(m1, Ready(td));
    Ticks(m2, cur, queued, CalendarIndex(m.s.insidx, 16), td);
    RunOne(m2, Reschedule(cur));
    RunCons(m1, Ready(td), [Reschedule(cur)]);
    RunCons(m, Ready(queued), [Ready(td)] + [Reschedule(cur)]);
    steps := Start(cur, [Ready(queued)] + ([Ready(td)] + [Reschedule(cur)]));
    StartThen(cur, [Ready(queued)] + ([Ready(td)] + [Reschedule(cur)]));
  }

  // ---------------------------------------------------------------------------
  // A steal
  // ---------------------------------------------------------------------------

  lemma LowestStolen(s: PerCpu, low: Td, high: Td)
    requires Inv(s) && All(s) == multiset{low, high} && low.priority < high.priority && Eligible(s, 0, true, low)
    ensures Select(s, None, true).td == Some(low)
  {
    PicksLowest(s, 0, true, low);
    EligibleQueued(s, 0, true, PickRealtime(s, 0, true).td.value);
  }

  lemma WaitsEligible(m: Machine, td: Td, other: Td) returns (m': Machine)
    requires Inv(m.s) && HandOk(m.hand) && !ShouldPreempt(td, m.s.running) && TdOk(other)
    requires TdOk(td) && td.priorityClass == PRIO_REALTIME && !td.pinned
    ensures CanStep(m, Ready(td)) && m' == Apply(m, Ready(td)) && m'.hand == m.hand && m'.s.running == m.s.running
    ensures Inv(m'.s) && All(m'.s) == All(m.s) + multiset{td} && Eligible(m'.s, 0, true, td)
    ensures Eligible(m.s, 0, true, other) ==> Eligible(m'.s, 0, true, other)
  {
    Waits(m, td);
    InsertEligible(m.s, td, other, true);
    m' := Apply(m, Ready(td));
  }

  lemma BothWait(m: Machine, low: Td, high: Td) returns (m': Machine)
    requires Inv(m.s) && HandOk(m.hand) && All(m.s) == multiset{}
    requires !ShouldPreempt(low, m.s.running) && !ShouldPreempt(high, m.s.running)
    requires TdOk(low) && low.priorityClass == PRIO_REALTIME && !low.pinned
    requires TdOk(high) && high.priorityClass == PRIO_REALTIME && !high.pinned
    ensures IsRun(m, [Ready(low)] + [Ready(high)]) && Final(m, [Ready(low)] + [Ready(high)]) == m'
    ensures Inv(m'.s) && All(m'.s) == multiset{low, high} && Eligible(m'.s, 0, true, low) && Eligible(m'.s, 0, true, high)
  {
    var m1 := WaitsEligible(m, low, low);
    m' := WaitsEligible(m1, high, low);
    NoMore(multiset{low});
    RunOne(m1, Ready(high));
    RunCons(m, Ready(low), [Ready(high)]);
  }

  /** Two realtime threads wait behind a third, and the one of lower priority is taken first. */
  lemma LowerPicked() returns (steps: seq<Step>, low: Td, high: Td)
    ensures IsRun(Boot(), steps) && low.priority < high.priority
    ensures var s := Final(Boot(), steps).s;
            && Eligible(s, 0, true, low) && Eligible(s, 0, true, high)
            && Shaped(s) && Select(s, None, true).td == Some(low)
  {
    var cur := Realtime(1, 60);
    low, high := Realtime(2, 40), Realtime(3, 50);
    StartedOk(cur);
    var m := BothWait(Running(cur), low, high);
    LowestStolen(m.s, low, high);
    steps := Start(cur, [Ready(low)] + [Ready(high)]);
    StartThen(cur, [Ready(low)] + [Ready(high)]);
  }
}
