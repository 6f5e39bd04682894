/** Picking, preempting and switching threads on one CPU (`kernel/core/sched/ule.c`), and the runs
    made of these operations. */
module ThreadSelect {
  import opened Common
  import opened RunQueues

  /** The first step at or after `n` of the circular scan from `start` whose queue offers a thread,
      or 64. */
  function Scan(queues: seq<seq<Td>>, start: nat, n: nat, migrate: bool): (k: nat)
    requires |queues| == RUNQUEUES_N && start < RUNQUEUES_N && n <= RUNQUEUES_N
    ensures n <= k <= RUNQUEUES_N
    ensures forall j :: n <= j < k ==> !Offers(queues[Around(start, j)], migrate)
    ensures k < RUNQUEUES_N ==> Offers(queues[Around(start, k)], migrate)
    decreases RUNQUEUES_N - n
  {
    if n == RUNQUEUES_N || Offers(queues[Around(start, n)], migrate) then n else Scan(queues, start, n + 1, migrate)
  }

  predicate Shaped(s: PerCpu) {
    && |s.realtime.status| == |s.realtime.queues| == |s.calendar.status| == |s.calendar.queues| == RUNQUEUES_N
    && s.runidx < RUNQUEUES_N
  }

  datatype Pick = Pick(td: Option<Td>, s: PerCpu)

  /** `pick_realtime_thread`: queues are searched upwards from `minprio`. */
  function PickRealtime(s: PerCpu, minprio: nat, migrate: bool): (p: Pick)
    requires Shaped(s) && minprio <= RUNQUEUES_N
    ensures Shaped(p.s) && (p.td.None? ==> p.s == s)
  {
    var i := Scan(s.realtime.queues, 0, minprio, migrate);
    if i == RUNQUEUES_N then Pick(None, s)
    else Pick(Some(Chosen(s.realtime, i, migrate)), s.(realtime := Unlink(s.realtime, i, migrate)))
  }

  /** `pick_batch_thread`: the calendar is searched around from the run index. */
  function PickBatch(s: PerCpu, migrate: bool): (p: Pick)
    requires Shaped(s)
    ensures Shaped(p.s) && (p.td.None? ==> p.s == s)
  {
    var k := Scan(s.calendar.queues, s.runidx, 0, migrate);
    if k == RUNQUEUES_N then Pick(None, s)
    else Pick(Some(Chosen(s.calendar, Around(s.runidx, k), migrate)), TakeBatch(s, Around(s.runidx, k), migrate))
  }

  /** `pick_idle_thread`: only the first thread of the queue is considered. */
  function PickIdle(s: PerCpu, migrate: bool): Pick {
    if s.idle == [] || (migrate && s.idle[0].pinned) then Pick(None, s)
    else Pick(Some(s.idle[0]), s.(idle := s.idle[1..]))
  }

  function Charge(p: Pick): Pick {
    if p.td.Some? then Pick(p.td, p.s.(load := p.s.load - 1)) else p
  }

  /** The part of `sched_select_thread` after the realtime queues. */
  function SelectLower(s: PerCpu, cur: Option<Td>, migrate: bool): (p: Pick)
    requires Shaped(s)
    ensures Shaped(p.s) && (p.td.None? ==> p.s == s)
  {
    if cur.Some? && (cur.value.priorityClass == PRIO_REALTIME || cur.value.interactive) then Pick(None, s)
    else
      var batch := PickBatch(s, migrate);
      if batch.td.Some? then Charge(batch)
      else if cur.Some? && cur.value.priority == PRIO_IDLE then Pick(None, s)
      else Charge(PickIdle(s, migrate))
  }

  /** `sched_select_thread`. */
  function Select(s: PerCpu, cur: Option<Td>, migrate: bool): (p: Pick)
    requires Shaped(s) && (cur.Some? ==> TdOk(cur.value))
    ensures Shaped(p.s) && (p.td.None? ==> p.s == s)
  {
    var realtime := PickRealtime(s, if cur.Some? then cur.value.priority else 0, migrate);
    if realtime.td.Some? then Charge(realtime) else SelectLower(s, cur, migrate)
  }

  /** What a pick leaves behind: the same threads but for the one it returns. */
  ghost predicate Removes(s: PerCpu, p: Pick, migrate: bool) {
    match p.td
    case None => p.s == s
    case Some(td) =>
      && All(s) == All(p.s) + multiset{td}
      && !(migrate && td.pinned)
      && Agrees(p.s.realtime) && Agrees(p.s.calendar) && Placed(p.s.realtime)
      && p.s.runidx < RUNQUEUES_N && p.s.insidx < RUNQUEUES_N
      && p.s.next == s.next && p.s.running == s.running
  }

  /** A pick before the load is charged. */
  ghost predicate Takes(s: PerCpu, p: Pick, migrate: bool) {
    Removes(s, p, migrate) && p.s.load == s.load
  }

  lemma RealtimeRemoves(s: PerCpu, minprio: nat, migrate: bool)
    requires Inv(s) && minprio <= RUNQUEUES_N
    ensures Takes(s, PickRealtime(s, minprio, migrate), migrate)
  {
    var i := Scan(s.realtime.queues, 0, minprio, migrate);
    if i < RUNQUEUES_N {
      assert PickRealtime(s, minprio, migrate)
          == Pick(Some(Chosen(s.realtime, i, migrate)), s.(realtime := Unlink(s.realtime, i, migrate)));
      RealtimeUnlinked(s, i, migrate);
    }
  }

  lemma RealtimeUnlinked(s: PerCpu, i: nat, migrate: bool)
    requires Inv(s) && i < RUNQUEUES_N && Offers(s.realtime.queues[i], migrate)
    ensures Takes(s, Pick(Some(Chosen(s.realtime, i, migrate)), s.(realtime := Unlink(s.realtime, i, migrate))), migrate)
  {
    UnlinkOk(s.realtime, i, migrate);
    UnlinkPlaced(s.realtime, i, migrate);
    var rest, td := Bag(Unlink(s.realtime, i, migrate).queues), Chosen(s.realtime, i, migrate);
    Regroup(rest, multiset{td}, Bag(s.calendar.queues), multiset(s.idle));
  }

  lemma UnlinkPlaced(rq: RunQueue, i: nat, migrate: bool)
    requires Agrees(rq) && Placed(rq) && i < RUNQUEUES_N && Offers(rq.queues[i], migrate)
    ensures Placed(Unlink(rq, i, migrate))
  {
    var rq' := Unlink(rq, i, migrate);
    forall j, td | 0 <= j < RUNQUEUES_N && td in rq'.queues[j] ensures td.priority == j {
      assert td in rq.queues[j];
    }
  }

  lemma Regroup(a: multiset<Td>, b: multiset<Td>, c: multiset<Td>, d: multiset<Td>)
    ensures a + b + c + d == a + c + d + b
    ensures c + (a + b) + d == c + a + d + b
  {
  }

  lemma BatchRemoves(s: PerCpu, migrate: bool)
    requires Inv(s)
    ensures Takes(s, PickBatch(s, migrate), migrate)
  {
    var k := Scan(s.calendar.queues, s.runidx, 0, migrate);
    if k < RUNQUEUES_N {
      var i := Around(s.runidx, k);
      assert PickBatch(s, migrate) == Pick(Some(Chosen(s.calendar, i, migrate)), TakeBatch(s, i, migrate));
      BatchUnlinked(s, i, migrate);
    }
  }

  lemma BatchUnlinked(s: PerCpu, i: nat, migrate: bool)
    requires Inv(s) && i < RUNQUEUES_N && Offers(s.calendar.queues[i], migrate)
    ensures Takes(s, Pick(Some(Chosen(s.calendar, i, migrate)), TakeBatch(s, i, migrate)), migrate)
  {
    UnlinkOk(s.calendar, i, migrate);
    TakeBatchFrame(s, i, migrate);
    var rest, td := Bag(Unlink(s.calendar, i, migrate).queues), Chosen(s.calendar, i, migrate);
    Regroup(rest, multiset{td}, Bag(s.realtime.queues), multiset(s.idle));
  }

  lemma TakeBatchFrame(s: PerCpu, i: nat, migrate: bool)
    requires Agrees(s.calendar) && i < RUNQUEUES_N && Offers(s.calendar.queues[i], migrate)
    ensures var s' := TakeBatch(s, i, migrate);
            && s' == s.(calendar := Unlink(s.calendar, i, migrate), runidx := s'.runidx, insidx := s'.insidx)
            && (s.runidx < RUNQUEUES_N && s.insidx < RUNQUEUES_N ==> s'.runidx < RUNQUEUES_N && s'.insidx < RUNQUEUES_N)
  {
  }

  lemma IdleRemoves(s: PerCpu, migrate: bool)
    requires Inv(s)
    ensures Takes(s, PickIdle(s, migrate), migrate)
  {
    if s.idle != [] {
      assert s.idle == [s.idle[0]] + s.idle[1..];
      assert multiset(s.idle) == multiset(s.idle[1..]) + multiset{s.idle[0]};
      var queued := Bag(s.realtime.queues) + Bag(s.calendar.queues);
      assert queued + (multiset(s.idle[1..]) + multiset{s.idle[0]}) == queued + multiset(s.idle[1..]) + multiset{s.idle[0]};
    }
  }

  lemma ChargeOk(s: PerCpu, p: Pick, migrate: bool)
    requires Inv(s) && Takes(s, p, migrate)
    ensures Selected(s, Charge(p), migrate)
  {
    if p.td.Some? {
      var rest := All(p.s);
      assert All(Charge(p).s) == rest;
      Shrink(All(s), rest, p.td.value);
    }
  }

  lemma Shrink(bag: multiset<Td>, rest: multiset<Td>, td: Td)
    requires Members(bag) && bag == rest + multiset{td}
    ensures Members(rest) && TdOk(td) && |rest| == |bag| - 1
  {
    assert td in bag;
    assert forall x :: x in rest ==> x in bag;
  }

  ghost predicate Selected(s: PerCpu, p: Pick, migrate: bool) {
    && Inv(p.s) && Removes(s, p, migrate)
    && (p.td.Some? ==> TdOk(p.td.value) && p.s.load == s.load - 1)
  }

  /** Selecting a thread takes exactly that thread off the queues, keeps the agreement, and a thread
      selected for migration is never pinned. */
  lemma SelectOk(s: PerCpu, cur: Option<Td>, migrate: bool)
    requires Inv(s) && (cur.Some? ==> TdOk(cur.value))
    ensures Selected(s, Select(s, cur, migrate), migrate)
  {
    var minprio := if cur.Some? then cur.value.priority else 0;
    var realtime, batch, idle := PickRealtime(s, minprio, migrate), PickBatch(s, migrate), PickIdle(s, migrate);
    var p := Select(s, cur, migrate);
    assert p == Charge(realtime) || p == Pick(None, s) || p == Charge(batch) || p == Charge(idle);
    RealtimeSelected(s, minprio, migrate);
    BatchSelected(s, migrate);
    IdleSelected(s, migrate);
  }

  lemma RealtimeSelected(s: PerCpu, minprio: nat, migrate: bool)
    requires Inv(s) && minprio <= RUNQUEUES_N
    ensures Selected(s, Charge(PickRealtime(s, minprio, migrate)), migrate)
  {
    RealtimeRemoves(s, minprio, migrate);
    ChargeOk(s, PickRealtime(s, minprio, migrate), migrate);
  }

  lemma BatchSelected(s: PerCpu, migrate: bool)
    requires Inv(s)
    ensures Selected(s, Charge(PickBatch(s, migrate)), migrate)
  {
    BatchRemoves(s, migrate);
    ChargeOk(s, PickBatch(s, migrate), migrate);
  }

  lemma IdleSelected(s: PerCpu, migrate: bool)
    requires Inv(s)
    ensures Selected(s, Charge(PickIdle(s, migrate)), migrate)
  {
    IdleRemoves(s, migrate);
    ChargeOk(s, PickIdle(s, migrate), migrate);
  }

  // ---------------------------------------------------------------------------
  // When there is something to select
  // ---------------------------------------------------------------------------

  /** A queue has no thread that may be taken. */
  predicate Stuck(q: seq<Td>, migrate: bool) {
    forall td :: td in q ==> migrate && td.pinned
  }

  predicate Barren(queues: seq<seq<Td>>, migrate: bool) {
    forall i :: 0 <= i < |queues| ==> Stuck(queues[i], migrate)
  }

  lemma OffersNothing(q: seq<Td>, migrate: bool)
    ensures Offers(q, migrate) <==> !Stuck(q, migrate)
  {
    if Offers(q, migrate) {
      assert q[Candidate(q, migrate)] in q;
    }
  }

  lemma ScanMisses(queues: seq<seq<Td>>, start: nat, migrate: bool)
    requires |queues| == RUNQUEUES_N && start < RUNQUEUES_N
    ensures Scan(queues, start, 0, migrate) == RUNQUEUES_N <==> Barren(queues, migrate)
  {
    var k := Scan(queues, start, 0, migrate);
    if k < RUNQUEUES_N {
      OffersNothing(queues[Around(start, k)], migrate);
    } else {
      forall i: nat | i < RUNQUEUES_N ensures Stuck(queues[i], migrate) {
        NoOffer(queues, start, migrate, i);
      }
    }
  }

  lemma NoOffer(queues: seq<seq<Td>>, start: nat, migrate: bool, i: nat)
    requires |queues| == RUNQUEUES_N && start < RUNQUEUES_N && i < RUNQUEUES_N
    requires Scan(queues, start, 0, migrate) == RUNQUEUES_N
    ensures Stuck(queues[i], migrate)
  {
    AroundReaches(start, i);
    var j: nat := if start <= i then i - start else i + RUNQUEUES_N - start;
    assert !Offers(queues[Around(start, j)], migrate);
    OffersNothing(queues[i], migrate);
  }

  lemma AroundReaches(start: nat, i: nat)
    requires start < RUNQUEUES_N && i < RUNQUEUES_N
    ensures var j := if start <= i then i - start else i + RUNQUEUES_N - start;
            0 <= j < RUNQUEUES_N && Around(start, j) == i
  {
  }

  /** The realtime queues from `minprio` on have nothing that may be taken. */
  predicate BarrenFrom(queues: seq<seq<Td>>, minprio: nat, migrate: bool) {
    forall i :: minprio <= i < |queues| ==> Stuck(queues[i], migrate)
  }

  lemma ScanMissesFrom(queues: seq<seq<Td>>, minprio: nat, migrate: bool)
    requires |queues| == RUNQUEUES_N && minprio <= RUNQUEUES_N
    ensures Scan(queues, 0, minprio, migrate) == RUNQUEUES_N <==> BarrenFrom(queues, minprio, migrate)
  {
    var k := Scan(queues, 0, minprio, migrate);
    if k < RUNQUEUES_N {
      OffersNothing(queues[Around(0, k)], migrate);
    } else {
      forall i | minprio <= i < RUNQUEUES_N ensures Stuck(queues[i], migrate) {
        assert Around(0, i) == i;
        OffersNothing(queues[i], migrate);
      }
    }
  }

  /** Below the realtime queues there is nothing to run instead of `cur`. */
  predicate NothingLower(s: PerCpu, cur: Option<Td>, migrate: bool) {
    || (cur.Some? && (cur.value.priorityClass == PRIO_REALTIME || cur.value.interactive))
    || (&& Barren(s.calendar.queues, migrate)
        && (|| (cur.Some? && cur.value.priority == PRIO_IDLE)
            || s.idle == [] || (migrate && s.idle[0].pinned)))
  }

  /** There is nothing to run instead of `cur`: no realtime thread of its priority or more, and, unless
      `cur` is realtime or interactive, no timeshared thread, and, unless `cur` is idle, no idle
      thread at the front of its queue. */
  predicate NothingFor(s: PerCpu, cur: Option<Td>, migrate: bool) {
    && BarrenFrom(s.realtime.queues, if cur.Some? then cur.value.priority else 0, migrate)
    && NothingLower(s, cur, migrate)
  }

  lemma RealtimeFails(s: PerCpu, minprio: nat, migrate: bool)
    requires Shaped(s) && minprio <= RUNQUEUES_N
    ensures PickRealtime(s, minprio, migrate).td == None <==> BarrenFrom(s.realtime.queues, minprio, migrate)
  {
    ScanMissesFrom(s.realtime.queues, minprio, migrate);
  }

  lemma LowerFails(s: PerCpu, cur: Option<Td>, migrate: bool)
    requires Shaped(s)
    ensures SelectLower(s, cur, migrate).td == None <==> NothingLower(s, cur, migrate)
  {
    ScanMisses(s.calendar.queues, s.runidx, migrate);
  }

  /** Selection fails exactly then. */
  lemma SelectFails(s: PerCpu, cur: Option<Td>, migrate: bool)
    requires Shaped(s) && (cur.Some? ==> TdOk(cur.value))
    ensures Select(s, cur, migrate).td == None <==> NothingFor(s, cur, migrate)
  {
    RealtimeFails(s, if cur.Some? then cur.value.priority else 0, migrate);
    LowerFails(s, cur, migrate);
  }

  lemma BarrenIsEmpty(queues: seq<seq<Td>>)
    ensures Barren(queues, false) <==> Bag(queues) == multiset{}
  {
    BagEmpty(queues);
    forall i | 0 <= i < |queues| ensures Stuck(queues[i], false) <==> queues[i] == [] {
      if queues[i] != [] {
        assert queues[i][0] in queues[i];
      }
    }
  }

  /** `sched_select_thread(NULL, cpu, false)` finds nothing exactly if nothing is queued, which is
      exactly if the load is 0. */
  lemma SelectFindsWork(s: PerCpu)
    requires Inv(s)
    ensures Select(s, None, false).td == None <==> All(s) == multiset{}
    ensures Select(s, None, false).td == None <==> s.load == 0
  {
    SelectFails(s, None, false);
    BarrenIsEmpty(s.realtime.queues);
    BarrenIsEmpty(s.calendar.queues);
    BagOfSeq(s.idle);
    assert |All(s)| == |Bag(s.realtime.queues)| + |Bag(s.calendar.queues)| + |s.idle|;
  }

  // ---------------------------------------------------------------------------
  // Which thread is selected
  // ---------------------------------------------------------------------------

  /** `td` is the first thread of the queue that may be taken. */
  predicate FirstOf(q: seq<Td>, migrate: bool, td: Td) {
    exists k :: && 0 <= k < |q| && q[k] == td && !(migrate && td.pinned)
                && forall j :: 0 <= j < k ==> migrate && q[j].pinned
  }

  predicate FirstRealtime(s: PerCpu, minprio: nat, migrate: bool, td: Td) {
    exists i :: && minprio <= i < |s.realtime.queues| && FirstOf(s.realtime.queues[i], migrate, td)
                && forall j :: minprio <= j < i ==> Stuck(s.realtime.queues[j], migrate)
  }

  /** The scan of the calendar goes around from the run index. */
  predicate FirstTimeshared(s: PerCpu, migrate: bool, td: Td)
    requires |s.calendar.queues| == RUNQUEUES_N && s.runidx < RUNQUEUES_N
  {
    exists k: nat :: && k < RUNQUEUES_N && FirstOf(s.calendar.queues[Around(s.runidx, k)], migrate, td)
                     && forall j: nat :: j < k ==> Stuck(s.calendar.queues[Around(s.runidx, j)], migrate)
  }

  /** The thread to run instead of `cur`: the first one of the realtime queues from the priority of `cur` on;
      without any, and unless `cur` is realtime or interactive, the first timeshared one; without any,
      and unless `cur` is idle, the first idle one. */
  predicate Best(s: PerCpu, cur: Option<Td>, migrate: bool, td: Td)
    requires Shaped(s)
  {
    var minprio := if cur.Some? then cur.value.priority else 0;
    if !BarrenFrom(s.realtime.queues, minprio, migrate) then FirstRealtime(s, minprio, migrate, td)
    else
      && (cur.Some? ==> cur.value.priorityClass != PRIO_REALTIME && !cur.value.interactive)
      && if !Barren(s.calendar.queues, migrate) then FirstTimeshared(s, migrate, td)
         else && (cur.Some? ==> cur.value.priority != PRIO_IDLE)
              && s.idle != [] && td == s.idle[0] && !(migrate && td.pinned)
  }

  lemma ChosenFirst(rq: RunQueue, i: nat, migrate: bool)
    requires i < |rq.queues| && Offers(rq.queues[i], migrate)
    ensures FirstOf(rq.queues[i], migrate, Chosen(rq, i, migrate)) && !Stuck(rq.queues[i], migrate)
  {
    OffersNothing(rq.queues[i], migrate);
  }

  lemma RealtimeBest(s: PerCpu, minprio: nat, migrate: bool)
    requires Shaped(s) && minprio <= RUNQUEUES_N && PickRealtime(s, minprio, migrate).td.Some?
    ensures FirstRealtime(s, minprio, migrate, PickRealtime(s, minprio, migrate).td.value)
    ensures !BarrenFrom(s.realtime.queues, minprio, migrate)
  {
    var queues := s.realtime.queues;
    var i := Scan(queues, 0, minprio, migrate);
    ChosenFirst(s.realtime, i, migrate);
    forall j | minprio <= j < i ensures Stuck(queues[j], migrate) {
      assert Around(0, j) == j;
      OffersNothing(queues[j], migrate);
    }
  }

  lemma BatchBest(s: PerCpu, migrate: bool)
    requires Shaped(s)
    ensures PickBatch(s, migrate).td.None? <==> Barren(s.calendar.queues, migrate)
    ensures PickBatch(s, migrate).td.Some? ==> FirstTimeshared(s, migrate, PickBatch(s, migrate).td.value)
  {
    var queues := s.calendar.queues;
    var k := Scan(queues, s.runidx, 0, migrate);
    ScanMisses(queues, s.runidx, migrate);
    if k < RUNQUEUES_N {
      ChosenFirst(s.calendar, Around(s.runidx, k), migrate);
      forall j: nat | j < k ensures Stuck(queues[Around(s.runidx, j)], migrate) {
        OffersNothing(queues[Around(s.runidx, j)], migrate);
      }
    }
  }

  lemma LowerBest(s: PerCpu, cur: Option<Td>, migrate: bool)
    requires Shaped(s) && SelectLower(s, cur, migrate).td.Some?
    requires BarrenFrom(s.realtime.queues, if cur.Some? then cur.value.priority else 0, migrate)
    ensures Best(s, cur, migrate, SelectLower(s, cur, migrate).td.value)
  {
    BatchBest(s, migrate);
  }

  /** Selection takes that thread, or nothing if there is none. */
  lemma SelectBest(s: PerCpu, cur: Option<Td>, migrate: bool)
    requires Shaped(s) && (cur.Some? ==> TdOk(cur.value))
    ensures var td := Select(s, cur, migrate).td;
            if td.Some? then Best(s, cur, migrate, td.value) else NothingFor(s, cur, migrate)
  {
    var minprio := if cur.Some? then cur.value.priority else 0;
    SelectFails(s, cur, migrate);
    RealtimeFails(s, minprio, migrate);
    if PickRealtime(s, minprio, migrate).td.Some? {
      RealtimeBest(s, minprio, migrate);
    } else if SelectLower(s, cur, migrate).td.Some? {
      LowerBest(s, cur, migrate);
    }
  }

  // ---------------------------------------------------------------------------
  // Order of realtime threads
  // ---------------------------------------------------------------------------

  /** A realtime or interactive thread that a selection for `cur` may take. */
  predicate Eligible(s: PerCpu, minprio: nat, migrate: bool, td: Td) {
    && td.priority < |s.realtime.queues| && td in s.realtime.queues[td.priority]
    && minprio <= td.priority && !(migrate && td.pinned)
  }

  /** The scan ascends: what is picked has the LOWEST eligible priority. */
  lemma PicksLowest(s: PerCpu, minprio: nat, migrate: bool, other: Td)
    requires Inv(s) && minprio <= RUNQUEUES_N && Eligible(s, minprio, migrate, other)
    ensures var p := PickRealtime(s, minprio, migrate);
            p.td.Some? && Eligible(s, minprio, migrate, p.td.value) && p.td.value.priority <= other.priority
  {
    var queues := s.realtime.queues;
    var i := ScanLowest(queues, minprio, migrate, other);
    assert Chosen(s.realtime, i, migrate) in queues[i];
  }

  lemma ScanLowest(queues: seq<seq<Td>>, minprio: nat, migrate: bool, td: Td) returns (i: nat)
    requires |queues| == RUNQUEUES_N && minprio <= td.priority < RUNQUEUES_N
    requires td in queues[td.priority] && !(migrate && td.pinned)
    ensures i == Scan(queues, 0, minprio, migrate) <= td.priority && Offers(queues[i], migrate)
  {
    i := Scan(queues, 0, minprio, migrate);
    OffersNothing(queues[td.priority], migrate);
    assert Around(0, td.priority) == td.priority;
  }

  lemma {:induction false} InBag(queues: seq<seq<Td>>, i: nat, td: Td)
    requires i < |queues| && td in queues[i]
    ensures td in Bag(queues)
    decreases |queues|
  {
    if i > 0 {
      InBag(queues[1..], i - 1, td);
    }
  }

  lemma EligibleQueued(s: PerCpu, minprio: nat, migrate: bool, td: Td)
    requires Eligible(s, minprio, migrate, td)
    ensures td in All(s)
  {
    InBag(s.realtime.queues, td.priority, td);
  }

  /** A realtime thread is eligible once it is inserted, and stays so when another one is. */
  lemma InsertEligible(s: PerCpu, td: Td, other: Td, migrate: bool)
    requires Shaped(s) && TdOk(td) && TdOk(other) && td.priorityClass == PRIO_REALTIME && !td.pinned
    ensures Eligible(Insert(s, td), 0, migrate, td)
    ensures Eligible(s, 0, migrate, other) ==> Eligible(Insert(s, td), 0, migrate, other)
  {
    var q := s.realtime.queues[td.priority];
    assert (q + [td])[|q|] == td;
  }

  function EmptyQueue(): RunQueue {
    RunQueue(seq(RUNQUEUES_N, _ => false), seq(RUNQUEUES_N, _ => []))
  }

  /** The state of a CPU after `sched_cpu_init`. */
  function IdleCpu(): PerCpu {
    PerCpu(EmptyQueue(), EmptyQueue(), [], 0, 0, 0, None, Status(PRIO_IDLE, false))
  }

  lemma EmptyQueueOk()
    ensures Agrees(EmptyQueue()) && Placed(EmptyQueue()) && Bag(EmptyQueue().queues) == multiset{}
  {
    BagEmpty(EmptyQueue().queues);
  }

  lemma IdleCpuOk()
    ensures Inv(IdleCpu()) && All(IdleCpu()) == multiset{}
  {
    EmptyQueueOk();
    assert All(IdleCpu()) == multiset{};
  }

  /** So the highest eligible priority comes first exactly if all eligible threads share it. */
  lemma HighestFirst(s: PerCpu, minprio: nat, migrate: bool, other: Td)
    requires Inv(s) && minprio <= RUNQUEUES_N && Eligible(s, minprio, migrate, other)
    ensures PickRealtime(s, minprio, migrate).td.Some?
    ensures var td := PickRealtime(s, minprio, migrate).td.value;
            (forall x :: Eligible(s, minprio, migrate, x) ==> x.priority <= td.priority)
            <==>
            (forall x, y :: Eligible(s, minprio, migrate, x) && Eligible(s, minprio, migrate, y) ==> x.priority == y.priority)
  {
    PicksLowest(s, minprio, migrate, other);
    var td := PickRealtime(s, minprio, migrate).td.value;
    forall x | Eligible(s, minprio, migrate, x) ensures td.priority <= x.priority {
      PicksLowest(s, minprio, migrate, x);
    }
  }

  // ---------------------------------------------------------------------------
  // Preemption
  // ---------------------------------------------------------------------------

  /** `should_preempt`, from the stashed status of the running thread. */
  predicate ShouldPreempt(td: Td, running: Status) {
    || running.priority == PRIO_IDLE
    || (PRIO_LOW_BATCH <= running.priority <= PRIO_HIGH_BATCH && !running.interactive && td.interactive)
    || (td.priority >= PRIO_REALTIME && td.priority > running.priority)
  }

  /** `sched_try_preempt`: a displaced `next_thread` goes back on the queues. */
  function TryPreempt(s: PerCpu, td: Td): PerCpu
    requires Shaped(s) && td.priority <= PRIO_MAX && (s.next.Some? ==> s.next.value.priority <= PRIO_MAX)
  {
    if !ShouldPreempt(td, s.running) then Insert(s, td)
    else if s.next.Some? then Insert(s.(next := Some(td)), s.next.value)
    else s.(next := Some(td))
  }

  /** A timeshared thread that is not interactive runs. */
  predicate Timesharing(running: Status) {
    PRIO_LOW_BATCH <= running.priority <= PRIO_HIGH_BATCH && !running.interactive
  }

  /** The slot after `td` was readied. An idle CPU runs it next; an interactive thread goes ahead of a
      timeshared one; a thread of realtime priority goes ahead of any lower one; nothing else goes ahead, in
      particular no timeshared thread that is not interactive. */
  predicate SlotAfter(s: PerCpu, td: Td, next: Option<Td>) {
    && (s.running.priority == PRIO_IDLE ==> next == Some(td))
    && (td.interactive && Timesharing(s.running) ==> next == Some(td))
    && (td.priority >= PRIO_REALTIME && td.priority > s.running.priority ==> next == Some(td))
    && (s.running.priority != PRIO_IDLE && !td.interactive && td.priority < PRIO_REALTIME ==> next == s.next)
    && (s.running.priority != PRIO_IDLE && !Timesharing(s.running) && td.priority <= s.running.priority ==> next == s.next)
    && (s.running.priority != PRIO_IDLE && !Timesharing(s.running) && td.priority < PRIO_REALTIME ==> next == s.next)
    && (s.running.priority != PRIO_IDLE && !td.interactive && td.priority <= s.running.priority ==> next == s.next)
  }

  lemma SlotIs(s: PerCpu, td: Td)
    requires Shaped(s) && TdOk(td) && (s.next.Some? ==> TdOk(s.next.value))
    ensures TryPreempt(s, td).next == if ShouldPreempt(td, s.running) then Some(td) else s.next
  {
  }

  lemma PreemptsWhom(s: PerCpu, td: Td)
    requires Shaped(s) && TdOk(td) && (s.next.Some? ==> TdOk(s.next.value))
    ensures SlotAfter(s, td, TryPreempt(s, td).next)
  {
    SlotIs(s, td);
  }

  /** Exactly `td` joined the queues, and everything agrees. */
  ghost predicate Queues(s: PerCpu, s': PerCpu, td: Td) {
    Inv(s') && All(s') == All(s) + multiset{td} && s'.load == s.load + 1 && s'.next == s.next
  }

  /** Exactly `td` joined the queues and the slot, and everything agrees. */
  ghost predicate Joins(s: PerCpu, s': PerCpu, td: Td) {
    && Inv(s') && Held(s') == Held(s) + multiset{td}
    && s'.next == (if ShouldPreempt(td, s.running) then Some(td) else s.next)
    && s'.load == s.load + (if ShouldPreempt(td, s.running) && s.next.None? then 0 else 1)
  }

  lemma InsertQueues(s: PerCpu, td: Td)
    requires Inv(s) && TdOk(td)
    ensures Queues(s, Insert(s, td), td)
  {
    InsertOk(s, td);
  }

  function Held(s: PerCpu): multiset<Td> {
    All(s) + NextBag(s)
  }

  /** Exactly one thread is added to the queues and the next slot together. The load grows unless
      the thread went into an empty slot. */
  lemma TryPreemptOk(s: PerCpu, td: Td)
    requires Inv(s) && TdOk(td)
    ensures s.next.Some? ==> TdOk(s.next.value)
    ensures Joins(s, TryPreempt(s, td), td)
  {
    SlotOk(s, td);
    if ShouldPreempt(td, s.running) {
      PreemptOk(s, td);
    } else {
      NotPreemptOk(s, td);
    }
  }

  lemma NotPreemptOk(s: PerCpu, td: Td)
    requires Inv(s) && TdOk(td)
    ensures var s' := Insert(s, td);
            && Inv(s') && Held(s') == Held(s) + multiset{td}
            && s'.next == s.next && s'.load == s.load + 1
  {
    InsertOk(s, td);
    assert All(s) + multiset{td} + NextBag(s) == All(s) + NextBag(s) + multiset{td};
  }

  lemma SlotOk(s: PerCpu, td: Td)
    requires Inv(s) && TdOk(td)
    ensures Inv(s.(next := Some(td))) && All(s.(next := Some(td))) == All(s)
    ensures s.next.Some? ==> TdOk(s.next.value)
  {
    assert s.next.Some? ==> s.next.value in NextBag(s);
  }

  lemma PreemptOk(s: PerCpu, td: Td)
    requires Inv(s) && TdOk(td)
    ensures s.next.Some? ==> s.next.value in NextBag(s)
    ensures var s1 := s.(next := Some(td));
            var s' := if s.next.Some? then Insert(s1, s.next.value) else s1;
            && Inv(s') && Held(s') == Held(s) + multiset{td}
            && s'.next == Some(td) && s'.load == s.load + (if s.next.None? then 0 else 1)
  {
    SlotOk(s, td);
    if s.next.Some? {
      InsertOk(s.(next := Some(td)), s.next.value);
    }
  }
}
