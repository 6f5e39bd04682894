/** Runs of the scheduler's operations on one CPU: readying and stealing, which other CPUs do, the clock
    tick, and the switch after a yield or to `next_thread`. A switch is split where the code does not
    hold the lock of the queues, so that other CPUs act between its parts. */
module CpuRuns {
  import opened Common
  import opened RunQueues
  import opened ThreadSelect

  /** How far a switch has come. `to` is the thread switched to, `None` for the idle thread; it was taken
      off a queue, or read from `next_thread` and left there. */
  datatype Hand =
    | Free
    | Going(cur: Td, to: Option<Td>, slot: bool)   // chosen, before `sched_switch`
    | Leaving(to: Option<Td>, slot: bool)          // the current thread is queued again, if it is to be
    | Arriving(to: Option<Td>)                     // `next_thread` is cleared

  datatype Step =
    | Ready(td: Td)            // sched_try_preempt
    | Steal                    // sched_select_thread(NULL, cpu, true)
    | Reschedule(cur: Td)      // sched_reschedule
    | PickYield(cur: Td)       // sched_yield_locked, up to the release of the lock
    | PickSlot(cur: Td)        // dispatch_dpc, the read of next_thread
    | Requeue(requeue: bool)   // sched_switch, lines 461-463
    | Clear                    // sched_switch, line 467
    | Stash                    // sched_switch, line 471

  /** A CPU with history: the threads handed to its queues and the threads that left it to run or were
      stolen, how many calendar queues its own picks have emptied, and whether a tick came before the
      first. */
  datatype Machine = Machine(s: PerCpu, hand: Hand, given: multiset<Td>, taken: multiset<Td>,
                             emptied: nat, ticked: bool)

  function Bump(s: PerCpu): PerCpu {
    if s.runidx == s.insidx then s.(insidx := (s.insidx + 1) % RUNQUEUES_N) else s
  }

  function Single(td: Option<Td>): multiset<Td> {
    if td.Some? then multiset{td.value} else multiset{}
  }

  function RescheduleOn(s: PerCpu, cur: Td): PerCpu
    requires Shaped(s) && TdOk(cur)
  {
    var p := Select(Bump(s), Some(cur), false);
    if p.td.Some? then p.s.(next := p.td) else p.s
  }

  predicate HandOk(hand: Hand) {
    hand.Going? ==> TdOk(hand.cur)
  }

  ghost predicate CanStep(m: Machine, step: Step) {
    && Inv(m.s) && HandOk(m.hand)
    && match step
       case Ready(td) => TdOk(td)
       case Steal => true
       case Reschedule(cur) => TdOk(cur) && m.hand.Free?
       case PickYield(cur) => TdOk(cur) && m.hand.Free?
       case PickSlot(cur) => TdOk(cur) && m.hand.Free? && m.s.next.Some?
       case Requeue(_) => m.hand.Going?
       case Clear => m.hand.Leaving?
       case Stash => m.hand.Arriving?
  }

  /** The status `sched_switch` stashes for the thread that now runs. */
  function StatusOf(to: Option<Td>): Status {
    if to.Some? then Status(to.value.priority, to.value.interactive) else Status(PRIO_IDLE, false)
  }

  ghost function After(m: Machine, step: Step): PerCpu
    requires CanStep(m, step)
  {
    var s := m.s;
    match step
    case Ready(td) => assert s.next.Some? ==> s.next.value in NextBag(s); TryPreempt(s, td)
    case Steal => Select(s, None, true).s
    case Reschedule(cur) => RescheduleOn(s, cur)
    case PickYield(cur) => Select(s, Some(cur), false).s
    case PickSlot(_) => s
    case Requeue(requeue) => if requeue then Insert(s, m.hand.cur) else s
    case Clear => s.(next := None)
    case Stash => s.(running := StatusOf(m.hand.to))
  }

  ghost function HandAfter(m: Machine, step: Step): Hand
    requires CanStep(m, step)
  {
    match step
    case PickYield(cur) => Going(cur, Select(m.s, Some(cur), false).td, false)
    case PickSlot(cur) => Going(cur, m.s.next, true)
    case Requeue(_) => Leaving(m.hand.to, m.hand.slot)
    case Clear => Arriving(m.hand.to)
    case Stash => Free
    case _ => m.hand
  }

  /** The thread a step hands to the queues. */
  ghost function Given(m: Machine, step: Step): multiset<Td>
    requires CanStep(m, step)
  {
    match step
    case Ready(td) => multiset{td}
    case Requeue(requeue) => if requeue then multiset{m.hand.cur} else multiset{}
    case _ => multiset{}
  }

  /** The thread that leaves to run, here or on the CPU that stole it. */
  ghost function Out(m: Machine, step: Step): multiset<Td>
    requires CanStep(m, step)
  {
    match step
    case Steal => Single(Select(m.s, None, true).td)
    case Stash => Single(m.hand.to)
    case _ => multiset{}
  }

  /** Taking a thread emptied a calendar queue. */
  predicate Empties(a: PerCpu, b: PerCpu) {
    exists i :: 0 <= i < |a.calendar.queues| == |b.calendar.queues| && a.calendar.queues[i] != [] && b.calendar.queues[i] == []
  }

  /** The step picks a thread off a calendar queue for its own CPU and empties the queue. */
  ghost predicate Emptied(m: Machine, step: Step)
    requires CanStep(m, step)
  {
    match step
    case Reschedule(cur) => Empties(m.s, Select(Bump(m.s), Some(cur), false).s)
    case PickYield(cur) => Empties(m.s, Select(m.s, Some(cur), false).s)
    case _ => false
  }

  ghost function Apply(m: Machine, step: Step): Machine
    requires CanStep(m, step)
  {
    Machine(After(m, step), HandAfter(m, step), m.given + Given(m, step), m.taken + Out(m, step),
            m.emptied + (if Emptied(m, step) then 1 else 0),
            m.ticked || (m.emptied == 0 && step.Reschedule?))
  }

  // ---------------------------------------------------------------------------
  // Agreement
  // ---------------------------------------------------------------------------

  lemma BumpOk(s: PerCpu)
    requires Inv(s)
    ensures Inv(Bump(s)) && All(Bump(s)) == All(s) && NextBag(Bump(s)) == NextBag(s)
  {
  }

  /** Overwriting a full slot keeps everything but the thread in it. */
  lemma RescheduleOk(s: PerCpu, cur: Td)
    requires Inv(s) && TdOk(cur)
    ensures Inv(RescheduleOn(s, cur))
    ensures var p := Select(Bump(s), Some(cur), false);
            Held(RescheduleOn(s, cur)) == All(s) + (if p.td.Some? then multiset{} else NextBag(s))
  {
    BumpOk(s);
    var b := Bump(s);
    SelectOk(b, Some(cur), false);
    var p := Select(b, Some(cur), false);
    if p.td.Some? {
      var s' := p.s.(next := p.td);
      assert All(s') == All(p.s) && NextBag(s') == multiset{p.td.value};
      assert Members(NextBag(s'));
    }
  }

  /** A change of slot or status leaves the queues alone. */
  lemma FrameOk(s: PerCpu, running: Status)
    requires Inv(s)
    ensures Inv(s.(next := None)) && All(s.(next := None)) == All(s) && NextBag(s.(next := None)) == multiset{}
    ensures Inv(s.(running := running)) && Held(s.(running := running)) == Held(s)
  {
  }

  /** Every step keeps bitmap, queues, load and slot in agreement. */
  lemma StepInv(m: Machine, step: Step)
    requires CanStep(m, step)
    ensures Inv(After(m, step))
  {
    match step
    case Ready(td) => TryPreemptOk(m.s, td);
    case Steal => SelectOk(m.s, None, true);
    case Reschedule(cur) => RescheduleOk(m.s, cur);
    case PickYield(cur) => SelectOk(m.s, Some(cur), false);
    case PickSlot(_) =>
    case Requeue(requeue) => RequeueInv(m.s, m.hand.cur, requeue);
    case Clear => FrameOk(m.s, m.s.running);
    case Stash => FrameOk(m.s, StatusOf(m.hand.to));
  }

  lemma RequeueInv(s: PerCpu, cur: Td, requeue: bool)
    requires Inv(s) && TdOk(cur)
    ensures var s' := if requeue then Insert(s, cur) else s;
            && Inv(s') && NextBag(s') == NextBag(s)
            && All(s') == All(s) + (if requeue then multiset{cur} else multiset{})
  {
    if requeue {
      InsertOk(s, cur);
    } else {
      assert All(s) + multiset{} == All(s);
    }
  }

  ghost predicate IsRun(m: Machine, steps: seq<Step>)
    decreases |steps|
  {
    steps == [] || (CanStep(m, steps[0]) && IsRun(Apply(m, steps[0]), steps[1..]))
  }

  ghost function Final(m: Machine, steps: seq<Step>): Machine
    requires IsRun(m, steps)
    decreases |steps|
  {
    if steps == [] then m else Final(Apply(m, steps[0]), steps[1..])
  }

  /** Over every run: status bits, queues, load and slot agree. */
  lemma {:induction false} RunInv(m: Machine, steps: seq<Step>)
    requires Inv(m.s) && IsRun(m, steps)
    ensures Inv(Final(m, steps).s)
    decreases |steps|
  {
    if steps != [] {
      StepInv(m, steps[0]);
      RunInv(Apply(m, steps[0]), steps[1..]);
    }
  }

  // ---------------------------------------------------------------------------
  // Conservation
  // ---------------------------------------------------------------------------

  /** The thread of a switch that is nowhere else: one read from the slot is still there until the slot
      is cleared. */
  function HandBag(hand: Hand): multiset<Td> {
    match hand
    case Free => multiset{}
    case Going(_, to, slot) => if slot then multiset{} else Single(to)
    case Leaving(to, slot) => if slot then multiset{} else Single(to)
    case Arriving(to) => Single(to)
  }

  function Holding(s: PerCpu, hand: Hand): multiset<Td> {
    Held(s) + HandBag(hand)
  }

  /** What came in and what went out make up the difference. */
  predicate Balanced(s: PerCpu, hand: Hand, more: multiset<Td>, s': PerCpu, hand': Hand, out: multiset<Td>) {
    Holding(s, hand) + more == Holding(s', hand') + out
  }

  /** A step loses no thread and makes none. */
  ghost predicate Conserves(m: Machine, step: Step)
    requires CanStep(m, step)
  {
    Balanced(m.s, m.hand, Given(m, step), After(m, step), HandAfter(m, step), Out(m, step))
  }

  /** The exact condition: a tick finds the slot empty or nothing to run instead of the current thread,
      and a switch clears a slot that is empty or, if the thread switched to was read from it, still
      holds that thread. */
  predicate Orderly(m: Machine, step: Step) {
    match step
    case Reschedule(cur) => m.s.next.None? || NothingFor(m.s, Some(cur), false)
    case Clear => m.hand.Leaving? ==> if m.hand.slot then m.s.next == m.hand.to else m.s.next.None?
    case _ => true
  }

  lemma Swap(a: multiset<Td>, b: multiset<Td>, c: multiset<Td>)
    ensures a + b + c == a + c + b
  {
  }

  lemma Extra(a: multiset<Td>, b: multiset<Td>)
    ensures a + b == a <==> b == multiset{}
  {
    assert |a + b| == |a| + |b|;
  }

  /** Nothing moved between the CPU and the rest. */
  lemma Quiet(a: multiset<Td>, b: multiset<Td>)
    ensures a + multiset{} == b + multiset{} <==> a == b
  {
    assert a + multiset{} == a && b + multiset{} == b;
  }

  lemma GrowsBy(s: PerCpu, hand: Hand, s': PerCpu, more: multiset<Td>)
    requires Held(s') == Held(s) + more
    ensures Balanced(s, hand, more, s', hand, multiset{})
  {
    Swap(Held(s), more, HandBag(hand));
    assert Holding(s', hand) + multiset{} == Holding(s', hand);
  }

  lemma ShrinksBy(s: PerCpu, hand: Hand, s': PerCpu, out: multiset<Td>)
    requires Held(s) == Held(s') + out
    ensures Balanced(s, hand, multiset{}, s', hand, out)
  {
    Swap(Held(s'), out, HandBag(hand));
    assert Holding(s, hand) + multiset{} == Holding(s, hand);
  }

  lemma ReadyConserves(m: Machine, td: Td)
    requires CanStep(m, Ready(td))
    ensures Conserves(m, Ready(td))
  {
    TryPreemptOk(m.s, td);
    GrowsBy(m.s, m.hand, TryPreempt(m.s, td), multiset{td});
  }

  lemma StealConserves(m: Machine)
    requires CanStep(m, Steal)
    ensures Conserves(m, Steal)
  {
    var p := Select(m.s, None, true);
    SelectHeld(m.s, None, true);
    ShrinksBy(m.s, m.hand, p.s, Single(p.td));
  }

  lemma SelectHeld(s: PerCpu, cur: Option<Td>, migrate: bool)
    requires Inv(s) && (cur.Some? ==> TdOk(cur.value))
    ensures var p := Select(s, cur, migrate); Held(s) == Held(p.s) + Single(p.td)
  {
    SelectOk(s, cur, migrate);
    SelectedHeld(s, Select(s, cur, migrate), migrate);
  }

  lemma SelectedHeld(s: PerCpu, p: Pick, migrate: bool)
    requires Removes(s, p, migrate)
    ensures Held(s) == Held(p.s) + Single(p.td)
  {
    if p.td.Some? {
      Swap(All(p.s), multiset{p.td.value}, NextBag(s));
    } else {
      assert Held(s) + multiset{} == Held(s);
    }
  }

  lemma PickYieldConserves(m: Machine, cur: Td)
    requires CanStep(m, PickYield(cur))
    ensures Conserves(m, PickYield(cur))
  {
    SelectHeld(m.s, Some(cur), false);
    IntoHand(m.s, cur, Select(m.s, Some(cur), false));
  }

  lemma IntoHand(s: PerCpu, cur: Td, p: Pick)
    requires Held(s) == Held(p.s) + Single(p.td)
    ensures Balanced(s, Free, multiset{}, p.s, Going(cur, p.td, false), multiset{})
  {
    assert Held(s) + multiset{} + multiset{} == Held(s);
    assert Held(p.s) + Single(p.td) + multiset{} == Held(p.s) + Single(p.td);
  }

  lemma RequeueConserves(m: Machine, requeue: bool)
    requires CanStep(m, Requeue(requeue))
    ensures Conserves(m, Requeue(requeue))
  {
    RequeueInv(m.s, m.hand.cur, requeue);
    var s', back := if requeue then Insert(m.s, m.hand.cur) else m.s, if requeue then multiset{m.hand.cur} else multiset{};
    Requeued(m.s, s', m.hand, back);
  }

  lemma Requeued(s: PerCpu, s': PerCpu, hand: Hand, back: multiset<Td>)
    requires hand.Going? && All(s') == All(s) + back && NextBag(s') == NextBag(s)
    ensures Balanced(s, hand, back, s', Leaving(hand.to, hand.slot), multiset{})
  {
    Swap(All(s), NextBag(s), back);
    GrowsBy(s, hand, s', back);
  }

  lemma StashConserves(m: Machine)
    requires CanStep(m, Stash)
    ensures Conserves(m, Stash)
  {
    Stashed(m.s, m.s.(running := StatusOf(m.hand.to)), m.hand.to);
  }

  lemma Stashed(s: PerCpu, s': PerCpu, to: Option<Td>)
    requires s' == s.(running := s'.running)
    ensures Balanced(s, Arriving(to), multiset{}, s', Free, Single(to))
  {
    assert Held(s') == Held(s);
    Swap(Held(s), Single(to), multiset{});
  }

  /** The switch loses no thread and doubles none exactly if the slot it clears is empty, or still holds
      the thread that was read from it. */
  lemma SwitchConserves(m: Machine)
    requires CanStep(m, Clear)
    ensures Conserves(m, Clear) <==> if m.hand.slot then m.s.next == m.hand.to else m.s.next.None?
  {
    Cleared(m.s, m.hand.to, m.hand.slot);
  }

  lemma Cleared(s: PerCpu, to: Option<Td>, slot: bool)
    ensures Balanced(s, Leaving(to, slot), multiset{}, s.(next := None), Arriving(to), multiset{}) <==>
            if slot then s.next == to else s.next.None?
  {
    ClearedBags(s, to, slot);
    ClearBalance(All(s), NextBag(s), Single(to), slot);
    SameSingle(s.next, to);
  }

  lemma ClearedBags(s: PerCpu, to: Option<Td>, slot: bool)
    ensures Balanced(s, Leaving(to, slot), multiset{}, s.(next := None), Arriving(to), multiset{}) <==>
            All(s) + NextBag(s) + (if slot then multiset{} else Single(to)) == All(s) + Single(to)
  {
    assert All(s.(next := None)) == All(s);
    ClearEq(All(s), NextBag(s), if slot then multiset{} else Single(to), Single(to));
  }

  lemma ClearEq(all: multiset<Td>, slot: multiset<Td>, hand: multiset<Td>, to: multiset<Td>)
    ensures ((all + slot) + hand) + multiset{} == ((all + multiset{}) + to) + multiset{} <==>
            all + slot + hand == all + to
  {
    assert all + multiset{} == all;
    Quiet(all + slot + hand, all + to);
  }

  lemma SameSingle(a: Option<Td>, b: Option<Td>)
    ensures Single(a) == Single(b) <==> a == b
    ensures Single(a) == multiset{} <==> a.None?
  {
    if a.Some? {
      assert a.value in Single(a);
    }
    if b.Some? {
      assert b.value in Single(b);
    }
  }

  lemma ClearBalance(all: multiset<Td>, slot: multiset<Td>, to: multiset<Td>, read: bool)
    ensures all + slot + (if read then multiset{} else to) == all + to <==> slot == if read then to else multiset{}
  {
    if read {
      assert all + slot + multiset{} == all + slot;
      assert slot + all == all + slot && to + all == all + to;
      if all + slot == all + to {
        Cancel(slot, to, all);
      }
    } else {
      Swap(all, slot, to);
      Extra(all + to, slot);
    }
  }

  /** A tick conserves the threads exactly if the slot is empty or there is nothing to run instead of the
      current thread: otherwise the slot is overwritten. */
  lemma RescheduleConserves(m: Machine, cur: Td)
    requires CanStep(m, Reschedule(cur))
    ensures Conserves(m, Reschedule(cur)) <==> m.s.next.None? || NothingFor(m.s, Some(cur), false)
  {
    TickHeld(m.s, cur);
    Still(m.s, RescheduleOn(m.s, cur));
  }

  lemma Still(s: PerCpu, s': PerCpu)
    ensures Balanced(s, Free, multiset{}, s', Free, multiset{}) <==> Held(s) == Held(s')
  {
    Quiet(Held(s), Held(s'));
    Quiet(Holding(s, Free), Holding(s', Free));
  }

  lemma TickHeld(s: PerCpu, cur: Td)
    requires Inv(s) && TdOk(cur)
    ensures Held(s) == Held(RescheduleOn(s, cur)) <==> s.next.None? || NothingFor(s, Some(cur), false)
  {
    RescheduleHeld(s, cur);
    TickFails(s, cur);
  }

  lemma SameQueues(s: PerCpu, cur: Td)
    ensures NothingFor(Bump(s), Some(cur), false) <==> NothingFor(s, Some(cur), false)
  {
  }

  lemma TickFails(s: PerCpu, cur: Td)
    requires Shaped(s) && TdOk(cur)
    ensures Select(Bump(s), Some(cur), false).td.None? <==> NothingFor(s, Some(cur), false)
  {
    SelectFails(Bump(s), Some(cur), false);
    SameQueues(s, cur);
  }

  lemma RescheduleHeld(s: PerCpu, cur: Td)
    requires Inv(s) && TdOk(cur)
    ensures Held(s) == Held(RescheduleOn(s, cur)) <==> s.next.None? || Select(Bump(s), Some(cur), false).td.None?
  {
    RescheduleOk(s, cur);
    SlotKept(All(s), NextBag(s), Held(RescheduleOn(s, cur)), Select(Bump(s), Some(cur), false).td.Some?);
  }

  lemma SlotKept(all: multiset<Td>, slot: multiset<Td>, held: multiset<Td>, hit: bool)
    requires held == all + (if hit then multiset{} else slot)
    ensures all + slot == held <==> slot == multiset{} || !hit
  {
    Extra(all, slot);
    assert all + multiset{} == all;
  }

  /** A step loses no thread and doubles none exactly if it is orderly. */
  lemma StepConserves(m: Machine, step: Step)
    requires CanStep(m, step)
    ensures Conserves(m, step) <==> Orderly(m, step)
  {
    match step
    case Ready(td) => ReadyConserves(m, td);
    case Steal => StealConserves(m);
    case Reschedule(cur) => RescheduleConserves(m, cur);
    case PickYield(cur) => PickYieldConserves(m, cur);
    case PickSlot(cur) => PickSlotConserves(m, cur);
    case Requeue(requeue) => RequeueConserves(m, requeue);
    case Clear => SwitchConserves(m);
    case Stash => StashConserves(m);
  }

  lemma PickSlotConserves(m: Machine, cur: Td)
    requires CanStep(m, PickSlot(cur))
    ensures Conserves(m, PickSlot(cur))
  {
  }

  /** Every thread handed over is on a queue, in the slot, being switched to, or has left. */
  ghost predicate Accounted(m: Machine) {
    Inv(m.s) && m.given == Holding(m.s, m.hand) + m.taken
  }

  lemma AccountedBags(given: multiset<Td>, holding: multiset<Td>, taken: multiset<Td>, more: multiset<Td>,
                      holding': multiset<Td>, out: multiset<Td>)
    requires given == holding + taken
    ensures given + more == holding' + (taken + out) <==> holding + more == holding' + out
  {
    Swap(holding, taken, more);
    assert holding' + (taken + out) == (holding' + out) + taken;
    if given + more == holding' + (taken + out) {
      Cancel(holding + more, holding' + out, taken);
    }
  }

  /** From a state in which every thread is accounted for, a step leads to another exactly if it is
      orderly. */
  lemma StepAccounted(m: Machine, step: Step)
    requires Accounted(m) && CanStep(m, step)
    ensures Accounted(Apply(m, step)) <==> Orderly(m, step)
  {
    StepInv(m, step);
    StepConserves(m, step);
    AccountedBags(m.given, Holding(m.s, m.hand), m.taken, Given(m, step),
                  Holding(After(m, step), HandAfter(m, step)), Out(m, step));
  }

  ghost predicate OrderlyRun(m: Machine, steps: seq<Step>)
    requires IsRun(m, steps)
    decreases |steps|
  {
    steps == [] || (Orderly(m, steps[0]) && OrderlyRun(Apply(m, steps[0]), steps[1..]))
  }

  /** Over every orderly run no thread is lost or doubled. */
  lemma {:induction false} RunAccounted(m: Machine, steps: seq<Step>)
    requires Accounted(m) && IsRun(m, steps) && OrderlyRun(m, steps)
    ensures Accounted(Final(m, steps))
    decreases |steps|
  {
    if steps != [] {
      StepAccounted(m, steps[0]);
      RunAccounted(Apply(m, steps[0]), steps[1..]);
    }
  }

  // ---------------------------------------------------------------------------
  // What a CPU picks, and what preempts it
  // ---------------------------------------------------------------------------

  /** Every step that takes a thread off the queues takes the one to run instead of the current thread, or
      for a stealing CPU the first that may migrate; a yield goes idle exactly if there is none, and a
      tick then leaves the slot alone. */
  lemma StepPicks(m: Machine, step: Step)
    requires CanStep(m, step)
    ensures step.PickYield? ==>
              var to := Apply(m, step).hand.to;
              if to.Some? then Best(m.s, Some(step.cur), false, to.value) else NothingFor(m.s, Some(step.cur), false)
    ensures step.Steal? ==>
              forall td :: Out(m, step) == multiset{td} ==> Best(m.s, None, true, td)
    ensures step.Reschedule? ==>
              var next := After(m, step).next;
              if NothingFor(m.s, Some(step.cur), false) then next == m.s.next
              else next.Some? && Best(m.s, Some(step.cur), false, next.value)
  {
    match step
    case PickYield(cur) => SelectBest(m.s, Some(cur), false);
    case Steal => StealPicks(m.s);
    case Reschedule(cur) => TickPicks(m.s, cur);
    case _ =>
  }

  lemma StealPicks(s: PerCpu)
    requires Inv(s)
    ensures forall td :: Single(Select(s, None, true).td) == multiset{td} ==> Best(s, None, true, td)
  {
    SelectBest(s, None, true);
    forall td | Single(Select(s, None, true).td) == multiset{td} ensures Best(s, None, true, td) {
      SameSingle(Select(s, None, true).td, Some(td));
    }
  }

  lemma SameBest(s: PerCpu, cur: Td, td: Td)
    requires Shaped(s) && Best(Bump(s), Some(cur), false, td)
    ensures Best(s, Some(cur), false, td)
  {
    if BarrenFrom(s.realtime.queues, cur.priority, false) && !Barren(s.calendar.queues, false) {
      assert FirstTimeshared(Bump(s), false, td);
      assert FirstTimeshared(s, false, td);
    }
  }

  lemma TickPicks(s: PerCpu, cur: Td)
    requires Inv(s) && TdOk(cur)
    ensures var next := RescheduleOn(s, cur).next;
            if NothingFor(s, Some(cur), false) then next == s.next
            else next.Some? && Best(s, Some(cur), false, next.value)
  {
    TickFails(s, cur);
    SelectBest(Bump(s), Some(cur), false);
    BumpOk(s);
    SelectOk(Bump(s), Some(cur), false);
    if Select(Bump(s), Some(cur), false).td.Some? {
      SameBest(s, cur, Select(Bump(s), Some(cur), false).td.value);
    }
  }

  lemma {:induction false} StatusStays(m: Machine, steps: seq<Step>)
    requires IsRun(m, steps) && Stash !in steps
    ensures Final(m, steps).s.running == m.s.running
    decreases |steps|
  {
    if steps != [] {
      StepStatus(m, steps[0]);
      StatusStays(Apply(m, steps[0]), steps[1..]);
    }
  }

  lemma SelectStatus(s: PerCpu, cur: Option<Td>, migrate: bool)
    requires Inv(s) && (cur.Some? ==> TdOk(cur.value))
    ensures Select(s, cur, migrate).s.running == s.running
  {
    SelectOk(s, cur, migrate);
  }

  lemma TickStatus(s: PerCpu, cur: Td)
    requires Inv(s) && TdOk(cur)
    ensures RescheduleOn(s, cur).running == s.running
  {
    BumpOk(s);
    SelectStatus(Bump(s), Some(cur), false);
  }

  lemma ReadyStatus(s: PerCpu, td: Td)
    requires Shaped(s) && TdOk(td) && (s.next.Some? ==> TdOk(s.next.value))
    ensures TryPreempt(s, td).running == s.running
  {
  }

  lemma StepStatus(m: Machine, step: Step)
    requires CanStep(m, step) && !step.Stash?
    ensures After(m, step).running == m.s.running
  {
    match step
    case Ready(td) =>
      SlotOk(m.s, td);
      ReadyStatus(m.s, td);
    case Steal => SelectStatus(m.s, None, true);
    case Reschedule(cur) => TickStatus(m.s, cur);
    case PickYield(cur) => SelectStatus(m.s, Some(cur), false);
    case _ =>
  }

  /** The slot after `td` was readied while the CPU runs `to`, or idles. */
  predicate SlotOver(to: Option<Td>, td: Td, before: Option<Td>, next: Option<Td>) {
    match to
    case None => next == Some(td)
    case Some(run) =>
      && (run.priority == PRIO_IDLE ==> next == Some(td))
      && (td.interactive && !run.interactive && PRIO_LOW_BATCH <= run.priority <= PRIO_HIGH_BATCH ==> next == Some(td))
      && (td.priority >= PRIO_REALTIME && td.priority > run.priority ==> next == Some(td))
      && (run.priority != PRIO_IDLE && !td.interactive && td.priority < PRIO_REALTIME ==> next == before)
      && (run.priority != PRIO_IDLE && run.interactive && td.priority < PRIO_REALTIME ==> next == before)
      && (run.priority >= PRIO_REALTIME && td.priority <= run.priority ==> next == before)
  }

  /** Over every run: from the switch to a thread until the next switch, what is readied goes ahead of that
      thread exactly as its priority and interactivity say. */
  lemma PreemptsRunning(m: Machine, steps: seq<Step>, td: Td)
    requires CanStep(m, Stash) && IsRun(Apply(m, Stash), steps) && Stash !in steps && TdOk(td)
    requires CanStep(Final(Apply(m, Stash), steps), Ready(td))
    ensures var f := Final(Apply(m, Stash), steps);
            SlotOver(m.hand.to, td, f.s.next, Apply(f, Ready(td)).s.next)
  {
    var f := Final(Apply(m, Stash), steps);
    StatusStays(Apply(m, Stash), steps);
    SlotOk(f.s, td);
    PreemptsWhom(f.s, td);
  }

  /** `sched_cpu_init`. */
  function Boot(): Machine {
    Machine(IdleCpu(), Free, multiset{}, multiset{}, 0, false)
  }

  lemma BootAccounted()
    ensures Accounted(Boot())
  {
    IdleCpuOk();
  }
}
