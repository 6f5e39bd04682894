/** The scheduler's operations as they run on a CPU's data (`kernel/core/sched/ule.c`): scans that test
    status bits and update queues, indices and load in place. */
module Scheduler {
  import opened Common
  import opened RunQueues
  import opened ThreadSelect
  import opened CpuRuns
  import opened Calendar

  /** A queue with nothing to take is passed over. */
  lemma ScanPasses(queues: seq<seq<Td>>, start: nat, k: nat, migrate: bool)
    requires |queues| == RUNQUEUES_N && start < RUNQUEUES_N && k < RUNQUEUES_N && !Offers(queues[Around(start, k)], migrate)
    ensures Scan(queues, start, k, migrate) == Scan(queues, start, k + 1, migrate)
    ensures k + 1 < RUNQUEUES_N ==>
              Around(start, k + 1) == if Around(start, k) + 1 >= RUNQUEUES_N then 0 else Around(start, k) + 1
  {
  }

  predicate NoBits(status: seq<bool>) {
    forall i :: 0 <= i < |status| ==> !status[i]
  }

  /** The test of a status bit skips nothing that could be picked. */
  lemma ClearBit(rq: RunQueue, i: nat, migrate: bool)
    requires Agrees(rq) && i < RUNQUEUES_N && !rq.status[i]
    ensures !Offers(rq.queues[i], migrate)
  {
  }

  /** Nor does the test of the whole bitmap. */
  lemma {:induction false} ClearBitmap(rq: RunQueue, start: nat, n: nat, migrate: bool)
    requires Agrees(rq) && start < RUNQUEUES_N && n <= RUNQUEUES_N && NoBits(rq.status)
    ensures Scan(rq.queues, start, n, migrate) == RUNQUEUES_N
    decreases RUNQUEUES_N - n
  {
    if n < RUNQUEUES_N {
      ClearBit(rq, Around(start, n), migrate);
      ClearBitmap(rq, start, n + 1, migrate);
    }
  }

  /** The walk along a queue to the first thread that may be taken. */
  method FirstFree(q: seq<Td>, migrate: bool) returns (k: nat)
    ensures k == Candidate(q, migrate)
  {
    k := 0;
    while migrate && k < |q| && q[k].pinned
      invariant k <= |q| && Candidate(q, migrate) == k + Candidate(q[k..], migrate)
    {
      assert q[k..][1..] == q[k + 1..];
      k := k + 1;
    }
  }

  /** The test of one queue: first its status bit, then its threads. */
  method LookInto(rq: RunQueue, i: nat, migrate: bool) returns (hit: bool, k: nat)
    requires Agrees(rq) && i < RUNQUEUES_N
    ensures hit == Offers(rq.queues[i], migrate) && (hit ==> k == Candidate(rq.queues[i], migrate))
  {
    if !rq.status[i] {
      ClearBit(rq, i, migrate);
      return false, 0;
    }
    k := FirstFree(rq.queues[i], migrate);
    hit := k < |rq.queues[i]|;
  }

  class Cpu {
    var realtime: RunQueue
    var calendar: RunQueue
    var idle: seq<Td>
    var load: int
    var runidx: nat
    var insidx: nat
    var next: Option<Td>
    var running: Status

    ghost function State(): PerCpu
      reads this
    {
      PerCpu(realtime, calendar, idle, load, runidx, insidx, next, running)
    }

    /** `sched_cpu_init`. */
    constructor ()
      ensures State() == Boot().s && Inv(State())
    {
      BootAccounted();
      realtime, calendar, idle := EmptyQueue(), EmptyQueue(), [];
      load, runidx, insidx := 0, 0, 0;
      next, running := None, Status(PRIO_IDLE, false);
    }

    /** `sched_insert_in_queue`: one thread joins the queues, and bitmap, queues and load still agree. */
    method InsertInQueue(td: Td)
      requires Inv(State()) && TdOk(td)
      modifies this
      ensures Queues(old(State()), State(), td)
    {
      ghost var s := State();
      InsertNow(td);
      InsertQueues(s, td);
    }

    method InsertNow(td: Td)
      requires Shaped(State()) && td.priority <= PRIO_MAX
      modifies this
      ensures State() == Insert(old(State()), td)
    {
      if td.priorityClass == PRIO_REALTIME || td.interactive {
        realtime := RunQueue(realtime.status[td.priority := true],
                             realtime.queues[td.priority := realtime.queues[td.priority] + [td]]);
      } else if td.priorityClass == PRIO_LOW_BATCH {
        var idx := CalendarIndex(insidx, td.priority);
        calendar := RunQueue(calendar.status[idx := true], calendar.queues[idx := calendar.queues[idx] + [td]]);
      } else if td.priorityClass == PRIO_IDLE {
        idle := idle + [td];
      }
      load := load + 1;
    }

    /** `pick_realtime_thread`: bits are tested upwards from `minprio`. */
    method PickRealtimeThread(minprio: nat, migrate: bool) returns (td: Option<Td>)
      requires Shaped(State()) && Agrees(realtime) && minprio <= RUNQUEUES_N
      modifies this`realtime
      ensures Pick(td, State()) == PickRealtime(old(State()), minprio, migrate)
    {
      if NoBits(realtime.status) {
        ClearBitmap(realtime, 0, minprio, migrate);
        return None;
      }
      var i := minprio;
      while i <= PRIO_MAX
        invariant i <= RUNQUEUES_N && realtime == old(realtime)
        invariant Scan(realtime.queues, 0, minprio, migrate) == Scan(realtime.queues, 0, i, migrate)
      {
        if realtime.status[i] {
          var q := realtime.queues[i];
          var k := FirstFree(q, migrate);
          if k < |q| {
            var rest := q[..k] + q[k + 1..];
            realtime := RunQueue(if rest == [] then realtime.status[i := false] else realtime.status,
                                 realtime.queues[i := rest]);
            return Some(q[k]);
          }
        } else {
          ClearBit(realtime, i, migrate);
        }
        i := i + 1;
      }
      return None;
    }

    /** `pick_batch_thread`: bits are tested around the calendar, from the run index. */
    method PickBatchThread(migrate: bool) returns (td: Option<Td>)
      requires Shaped(State()) && insidx < RUNQUEUES_N && Agrees(calendar)
      modifies this`calendar, this`runidx, this`insidx
      ensures Pick(td, State()) == PickBatch(old(State()), migrate)
    {
      if NoBits(calendar.status) {
        ClearBitmap(calendar, runidx, 0, migrate);
        return None;
      }
      var cnt, i, k := FindBatch(calendar, runidx, migrate);
      if cnt == RUNQUEUES_N { return None; }
      td := TakeFrom(i, k, migrate);
    }

    /** The loop of `pick_batch_thread`: at most 64 queues, wrapping from the last to the first. */
    static method FindBatch(rq: RunQueue, start: nat, migrate: bool) returns (cnt: nat, i: nat, k: nat)
      requires Agrees(rq) && start < RUNQUEUES_N
      ensures cnt == Scan(rq.queues, start, 0, migrate)
      ensures cnt < RUNQUEUES_N ==> i == Around(start, cnt) && k == Candidate(rq.queues[i], migrate)
    {
      i, cnt, k := start, 0, 0;
      while cnt < RUNQUEUES_N
        invariant cnt <= RUNQUEUES_N
        invariant cnt < RUNQUEUES_N ==> i == Around(start, cnt)
        invariant Scan(rq.queues, start, 0, migrate) == Scan(rq.queues, start, cnt, migrate)
      {
        var hit;
        hit, k := LookInto(rq, i, migrate);
        if hit { return; }
        ScanPasses(rq.queues, start, cnt, migrate);
        cnt := cnt + 1;
        i := if i + 1 >= RUNQUEUES_N then 0 else i + 1;
      }
    }

    method TakeFrom(i: nat, k: nat, migrate: bool) returns (td: Option<Td>)
      requires Shaped(State()) && insidx < RUNQUEUES_N && i < RUNQUEUES_N && k == Candidate(calendar.queues[i], migrate) < |calendar.queues[i]|
      modifies this`calendar, this`runidx, this`insidx
      ensures td == Some(Chosen(old(calendar), i, migrate)) && State() == TakeBatch(old(State()), i, migrate)
    {
      var q := calendar.queues[i];
      var rest := q[..k] + q[k + 1..];
      calendar := RunQueue(if rest == [] then calendar.status[i := false] else calendar.status,
                           calendar.queues[i := rest]);
      if rest == [] && !migrate {
        IncrementIndices();
      }
      td := Some(q[k]);
    }

    /** `calendar_queue_increment`: the run index goes one on around the calendar, and the insert index is
        pushed on exactly if it would be overtaken. */
    method IncrementIndices()
      requires runidx < RUNQUEUES_N && insidx < RUNQUEUES_N
      modifies this`runidx, this`insidx
      ensures runidx < RUNQUEUES_N && insidx < RUNQUEUES_N && Gap(old(runidx), runidx) == 1
      ensures var g := Gap(old(runidx), old(insidx));
              Gap(runidx, insidx) == (if g == 1 then 1 else if g == 0 then 63 else g - 1)
      ensures State() == Increment(old(State()))
    {
      GapMoves(State());
      runidx := (runidx + 1) % RUNQUEUES_N;
      if runidx == insidx {
        insidx := (insidx + 1) % RUNQUEUES_N;
      }
    }

    /** `pick_idle_thread`: the front of the queue goes, unless it is pinned and is to migrate; threads
        behind a pinned one are not considered. */
    method PickIdleThread(migrate: bool) returns (td: Option<Td>)
      modifies this`idle
      ensures td.Some? ==> old(idle) == [td.value] + idle && !(migrate && td.value.pinned)
      ensures td.None? ==> idle == old(idle) && (idle == [] || (migrate && idle[0].pinned))
      ensures Pick(td, State()) == PickIdle(old(State()), migrate)
    {
      if idle == [] || (migrate && idle[0].pinned) { return None; }
      td := Some(idle[0]);
      idle := idle[1..];
    }

    /** `sched_select_thread`. */
    method SelectThread(cur: Option<Td>, migrate: bool) returns (td: Option<Td>)
      requires Shaped(State()) && insidx < RUNQUEUES_N && Agrees(realtime) && Agrees(calendar) && (cur.Some? ==> TdOk(cur.value))
      modifies this
      ensures Pick(td, State()) == Select(old(State()), cur, migrate)
    {
      td := PickRealtimeThread(if cur.Some? then cur.value.priority else 0, migrate);
      if td.Some? {
        load := load - 1;
        return;
      }
      td := SelectLowerThread(cur, migrate);
    }

    method SelectLowerThread(cur: Option<Td>, migrate: bool) returns (td: Option<Td>)
      requires Shaped(State()) && insidx < RUNQUEUES_N && Agrees(calendar)
      modifies this
      ensures Pick(td, State()) == SelectLower(old(State()), cur, migrate)
    {
      if cur.Some? && (cur.value.priorityClass == PRIO_REALTIME || cur.value.interactive) { return None; }
      td := PickBatchThread(migrate);
      if td.Some? {
        load := load - 1;
        return;
      }
      if cur.Some? && cur.value.priority == PRIO_IDLE { return None; }
      td := PickIdleThread(migrate);
      if td.Some? {
        load := load - 1;
      }
    }

    /** `sched_try_preempt`: one thread joins the queues and the slot together, and everything agrees. */
    method TryPreemptWith(td: Td)
      requires Inv(State()) && TdOk(td)
      modifies this
      ensures Joins(old(State()), State(), td) && SlotAfter(old(State()), td, next)
    {
      ghost var s := State();
      TryPreemptOk(s, td);
      PreemptsWhom(s, td);
      if ShouldPreempt(td, running) {
        var displaced := next;
        next := Some(td);
        if displaced.Some? {
          InsertNow(displaced.value);
        }
      } else {
        InsertNow(td);
      }
      assert State() == TryPreempt(s, td);
    }
  }
}
