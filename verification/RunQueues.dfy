/** The per-CPU run queues of `kernel/core/sched/ule.c`: bitmap-indexed realtime queues, the calendar
    queue and the idle queue. */
module RunQueues {
  import opened Common

  const RUNQUEUES_N: nat := 64
  const PRIO_IDLE: nat := 0
  const PRIO_LOW_BATCH: nat := 1
  const PRIO_HIGH_BATCH: nat := 32
  const PRIO_REALTIME: nat := 33
  const PRIO_MAX: nat := 63

  /** The fields of `struct thread` that the queues depend on. */
  datatype Td = Td(id: nat, priority: nat, priorityClass: nat, interactive: bool, pinned: bool)

  /** A thread of one of the three classes, with a priority that indexes a queue. */
  predicate TdOk(td: Td) {
    && td.priority <= PRIO_MAX
    && (td.priorityClass == PRIO_IDLE || td.priorityClass == PRIO_LOW_BATCH || td.priorityClass == PRIO_REALTIME)
  }

  /** `struct runqueue`: bit i of `status` stands for queue i. */
  datatype RunQueue = RunQueue(status: seq<bool>, queues: seq<seq<Td>>)

  /** `struct sched_percpu` with `next_thread` and `current_thread_status` of the CPU. */
  datatype PerCpu = PerCpu(realtime: RunQueue, calendar: RunQueue, idle: seq<Td>, load: int,
                           runidx: nat, insidx: nat, next: Option<Td>, running: Status)

  datatype Status = Status(priority: nat, interactive: bool)

  // ---------------------------------------------------------------------------
  // Queues as bags
  // ---------------------------------------------------------------------------

  function Bag(queues: seq<seq<Td>>): multiset<Td> {
    if queues == [] then multiset{} else multiset(queues[0]) + Bag(queues[1..])
  }

  lemma Cancel(a: multiset<Td>, b: multiset<Td>, c: multiset<Td>)
    requires a + c == b + c
    ensures a == b
  {
    forall x ensures a[x] == b[x] {
      assert (a + c)[x] == a[x] + c[x] && (b + c)[x] == b[x] + c[x];
    }
  }

  lemma {:induction false} BagUpdate(queues: seq<seq<Td>>, i: nat, q: seq<Td>)
    requires i < |queues|
    ensures Bag(queues[i := q]) + multiset(queues[i]) == Bag(queues) + multiset(q)
    decreases |queues|
  {
    if i > 0 {
      var head, rest := multiset(queues[0]), Bag(queues[1..]);
      BagUpdate(queues[1..], i - 1, q);
      assert queues[i := q][1..] == queues[1..][i - 1 := q];
      var rest' := Bag(queues[1..][i - 1 := q]);
      assert (head + rest') + multiset(queues[i]) == head + (rest' + multiset(queues[i]));
      assert head + (rest + multiset(q)) == (head + rest) + multiset(q);
    } else {
      assert queues[0 := q][1..] == queues[1..];
    }
  }

  lemma {:induction false} BagEmpty(queues: seq<seq<Td>>)
    ensures Bag(queues) == multiset{} <==> forall i :: 0 <= i < |queues| ==> queues[i] == []
    decreases |queues|
  {
    if queues != [] {
      BagEmpty(queues[1..]);
      assert multiset(queues[0]) == multiset{} <==> queues[0] == [] by { BagOfSeq(queues[0]); }
      assert forall i :: 1 <= i < |queues| ==> queues[i] == queues[1..][i - 1];
      assert forall i :: 0 <= i < |queues| - 1 ==> queues[1..][i] == queues[i + 1];
      assert Bag(queues) == multiset{} <==> multiset(queues[0]) == multiset{} && Bag(queues[1..]) == multiset{} by {
        assert |Bag(queues)| == |multiset(queues[0])| + |Bag(queues[1..])|;
      }
    }
  }

  lemma BagOfSeq(q: seq<Td>)
    ensures |multiset(q)| == |q|
  {
  }

  /** Status bit i is set exactly if queue i has a thread. */
  predicate Agrees(rq: RunQueue) {
    && |rq.status| == |rq.queues| == RUNQUEUES_N
    && forall i :: 0 <= i < RUNQUEUES_N ==> (rq.status[i] <==> rq.queues[i] != [])
  }

  function All(s: PerCpu): multiset<Td> {
    Bag(s.realtime.queues) + Bag(s.calendar.queues) + multiset(s.idle)
  }

  function NextBag(s: PerCpu): multiset<Td> {
    if s.next.Some? then multiset{s.next.value} else multiset{}
  }

  /** A thread on the realtime queues sits in the queue of its priority. */
  predicate Placed(rq: RunQueue) {
    forall i, td :: 0 <= i < |rq.queues| && td in rq.queues[i] ==> td.priority == i
  }

  ghost predicate Members(bag: multiset<Td>) {
    forall td :: td in bag ==> TdOk(td)
  }

  /** The agreement of bitmap, queues and load. */
  ghost predicate Inv(s: PerCpu) {
    && Agrees(s.realtime) && Agrees(s.calendar) && Placed(s.realtime)
    && s.load == |All(s)|
    && s.runidx < RUNQUEUES_N && s.insidx < RUNQUEUES_N
    && Members(All(s)) && Members(NextBag(s))
  }

  // ---------------------------------------------------------------------------
  // Inserting
  // ---------------------------------------------------------------------------

  function Append(rq: RunQueue, i: nat, td: Td): RunQueue
    requires i < |rq.status| && i < |rq.queues|
  {
    RunQueue(rq.status[i := true], rq.queues[i := rq.queues[i] + [td]])
  }

  /** The queue that `insert_calendar_queue` chooses, in unsigned arithmetic modulo 64. */
  function CalendarIndex(insidx: nat, priority: nat): nat {
    (insidx as int + PRIO_HIGH_BATCH as int - priority as int) % 64
  }

  /** `sched_insert_in_queue`. */
  function Insert(s: PerCpu, td: Td): PerCpu
    requires |s.realtime.status| == |s.realtime.queues| == |s.calendar.status| == |s.calendar.queues| == RUNQUEUES_N
    requires td.priority <= PRIO_MAX
  {
    var s' := if td.priorityClass == PRIO_REALTIME || td.interactive then
                s.(realtime := Append(s.realtime, td.priority, td))
              else if td.priorityClass == PRIO_LOW_BATCH then
                s.(calendar := Append(s.calendar, CalendarIndex(s.insidx, td.priority), td))
              else if td.priorityClass == PRIO_IDLE then s.(idle := s.idle + [td])
              else s;
    s'.(load := s.load + 1)
  }

  predicate SameBut(a: seq<seq<Td>>, b: seq<seq<Td>>, i: nat, td: Td) {
    |a| == |b| && i < |a| && b[i] == a[i] + [td] && forall j :: 0 <= j < |a| && j != i ==> b[j] == a[j]
  }

  /** Where a thread is queued: a realtime or interactive one behind the others of its priority, a timeshared
      one as many queues after the insert index as its priority is below the highest, around the
      calendar, and an idle one behind the other idle ones. Nothing else moves. */
  lemma InsertPlaces(s: PerCpu, td: Td)
    requires Agrees(s.realtime) && Agrees(s.calendar) && s.insidx < RUNQUEUES_N && TdOk(td)
    ensures var s' := Insert(s, td);
            if td.priorityClass == PRIO_REALTIME || td.interactive then
              SameBut(s.realtime.queues, s'.realtime.queues, td.priority, td) && s'.calendar == s.calendar && s'.idle == s.idle
            else if td.priorityClass == PRIO_LOW_BATCH then
              && s'.realtime == s.realtime && s'.idle == s.idle
              && exists i: nat :: && SameBut(s.calendar.queues, s'.calendar.queues, i, td)
                                  && (i - s.insidx + td.priority - PRIO_HIGH_BATCH) % RUNQUEUES_N == 0
            else
              s'.realtime == s.realtime && s'.calendar == s.calendar && s'.idle == s.idle + [td]
  {
    if td.priorityClass == PRIO_LOW_BATCH && !td.interactive {
      var i := CalendarIndex(s.insidx, td.priority);
      assert SameBut(s.calendar.queues, Insert(s, td).calendar.queues, i, td);
    }
  }

  lemma AppendOk(rq: RunQueue, i: nat, td: Td)
    requires Agrees(rq) && i < RUNQUEUES_N
    ensures Agrees(Append(rq, i, td)) && Bag(Append(rq, i, td).queues) == Bag(rq.queues) + multiset{td}
  {
    BagUpdate(rq.queues, i, rq.queues[i] + [td]);
    var bag, q := Bag(Append(rq, i, td).queues), multiset(rq.queues[i]);
    assert multiset(rq.queues[i] + [td]) == q + multiset{td};
    assert Bag(rq.queues) + (q + multiset{td}) == (Bag(rq.queues) + multiset{td}) + q;
    Cancel(bag, Bag(rq.queues) + multiset{td}, q);
  }

  lemma AppendPlaced(rq: RunQueue, td: Td)
    requires Agrees(rq) && Placed(rq) && td.priority <= PRIO_MAX
    ensures Placed(Append(rq, td.priority, td))
  {
  }

  lemma InsertBag(s: PerCpu, td: Td)
    requires Agrees(s.realtime) && Agrees(s.calendar) && TdOk(td)
    ensures All(Insert(s, td)) == All(s) + multiset{td}
    ensures Agrees(Insert(s, td).realtime) && Agrees(Insert(s, td).calendar)
  {
    if td.priorityClass == PRIO_REALTIME || td.interactive {
      AppendOk(s.realtime, td.priority, td);
    } else if td.priorityClass == PRIO_LOW_BATCH {
      AppendOk(s.calendar, CalendarIndex(s.insidx, td.priority), td);
    } else {
      assert multiset(s.idle + [td]) == multiset(s.idle) + multiset{td};
    }
  }

  /** Insertion adds one thread and keeps bitmap, queues and load in agreement. */
  lemma InsertOk(s: PerCpu, td: Td)
    requires Inv(s) && TdOk(td)
    ensures Inv(Insert(s, td)) && All(Insert(s, td)) == All(s) + multiset{td}
    ensures Insert(s, td).next == s.next && Insert(s, td).load == s.load + 1
  {
    InsertBag(s, td);
    if td.priorityClass == PRIO_REALTIME || td.interactive {
      AppendPlaced(s.realtime, td);
    }
  }

  // ---------------------------------------------------------------------------
  // Picking
  // ---------------------------------------------------------------------------

  /** The position of the thread that a pick takes from a queue: the first, or the first that is
      not pinned when the thread is to migrate; the length of the queue if there is none. */
  function Candidate(q: seq<Td>, migrate: bool): (k: nat)
    ensures k <= |q|
    ensures forall j :: 0 <= j < k ==> migrate && q[j].pinned
    ensures k < |q| ==> !(migrate && q[k].pinned)
  {
    if q == [] || !migrate || !q[0].pinned then 0 else 1 + Candidate(q[1..], migrate)
  }

  predicate Offers(q: seq<Td>, migrate: bool) {
    Candidate(q, migrate) < |q|
  }

  function Without(q: seq<Td>, k: nat): seq<Td>
    requires k < |q|
  {
    q[..k] + q[k + 1..]
  }

  /** Unlink the candidate of queue `i` and clear the status bit of an emptied queue. */
  function Unlink(rq: RunQueue, i: nat, migrate: bool): RunQueue
    requires i < |rq.status| && i < |rq.queues| && Offers(rq.queues[i], migrate)
  {
    var q := Without(rq.queues[i], Candidate(rq.queues[i], migrate));
    RunQueue(if q == [] then rq.status[i := false] else rq.status, rq.queues[i := q])
  }

  function Chosen(rq: RunQueue, i: nat, migrate: bool): Td
    requires i < |rq.queues| && Offers(rq.queues[i], migrate)
  {
    rq.queues[i][Candidate(rq.queues[i], migrate)]
  }

  lemma WithoutBag(q: seq<Td>, k: nat)
    requires k < |q|
    ensures multiset(Without(q, k)) + multiset{q[k]} == multiset(q)
  {
    assert q == q[..k] + [q[k]] + q[k + 1..];
  }

  lemma UnlinkOk(rq: RunQueue, i: nat, migrate: bool)
    requires Agrees(rq) && i < RUNQUEUES_N && Offers(rq.queues[i], migrate)
    ensures Agrees(Unlink(rq, i, migrate))
    ensures Bag(rq.queues) == Bag(Unlink(rq, i, migrate).queues) + multiset{Chosen(rq, i, migrate)}
  {
    var k := Candidate(rq.queues[i], migrate);
    WithoutBag(rq.queues[i], k);
    ReplaceBag(rq.queues, i, Without(rq.queues[i], k), Chosen(rq, i, migrate));
  }

  lemma ReplaceBag(queues: seq<seq<Td>>, i: nat, q: seq<Td>, td: Td)
    requires i < |queues| && multiset(q) + multiset{td} == multiset(queues[i])
    ensures Bag(queues) == Bag(queues[i := q]) + multiset{td}
  {
    BagUpdate(queues, i, q);
    var bag := Bag(queues[i := q]);
    assert bag + (multiset(q) + multiset{td}) == (bag + multiset{td}) + multiset(q);
    Cancel(Bag(queues), bag + multiset{td}, multiset(q));
  }

  /** `calendar_queue_increment`. */
  function Increment(s: PerCpu): PerCpu {
    var run := (s.runidx + 1) % RUNQUEUES_N;
    s.(runidx := run, insidx := if run == s.insidx then (s.insidx + 1) % RUNQUEUES_N else s.insidx)
  }

  /** The queue a scan reaches after `n` steps. */
  function Around(start: nat, n: nat): nat
    requires start < RUNQUEUES_N && n < RUNQUEUES_N
  {
    if start + n < RUNQUEUES_N then start + n else start + n - RUNQUEUES_N
  }

  /** Taking a thread off calendar queue `i`: an emptied queue moves the run index on. */
  function TakeBatch(s: PerCpu, i: nat, migrate: bool): PerCpu
    requires i < |s.calendar.status| && i < |s.calendar.queues| && Offers(s.calendar.queues[i], migrate)
  {
    var s' := s.(calendar := Unlink(s.calendar, i, migrate));
    if s'.calendar.queues[i] == [] && !migrate then Increment(s') else s'
  }
}
