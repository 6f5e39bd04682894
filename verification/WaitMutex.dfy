/** Mutual exclusion and first-in first-out hand-off of `mutex.c`. */
module WaitMutex {
  import opened Common
  import opened WaitProtocol
  import opened WaitInvariant

  /** The discipline of the clients of mutex `o`: it is only waited for by `mutex_lock` with an
      infinite timeout, and only its holder unlocks it. */
  predicate Fair(s: State, e: Step, o: nat) {
    match e
    case BeginStep(_, os, timeout, locking) => o in os ==> os == [o] && timeout.Forever? && locking
    case UnlockStep(t, p) => p == o && o < |s.objects| ==> t in s.objects[o].holders
    case _ => true
  }

  ghost predicate FairRun(s: State, es: seq<Step>, o: nat)
    requires IsRun(s, es)
    decreases |es|
  {
    es == [] || (Fair(s, es[0], o) && FairRun(Apply(s, es[0]), es[1..], o))
  }

  // ---------------------------------------------------------------------------
  // The invariant of one mutex
  // ---------------------------------------------------------------------------

  predicate Locking(th: Thread, o: nat) {
    !th.pc.Idle? && th.targets == [o]
  }

  /** A thread that was granted the mutex through the queue and has not looked at its waitblock. */
  predicate Unswept(th: Thread) {
    && |th.blocks| == 1
    && (th.pc.Probing? || th.pc.Committing? || th.pc.Sleeping? || th.pc == Sweeping(0))
  }

  predicate MutexThread(ob: Object, o: nat, t: nat, th: Thread) {
    && (!th.pc.Idle? && o in th.targets ==> th.targets == [o] && th.timeout.Forever? && th.locking)
    && (Locking(th, o) && th.status.Satisfied? ==> t in ob.holders)
    && (t in ob.holders && !Locking(th, o) ==> ob.owner == Some(t))
    && (Choosing(ob, t) ==> Locking(th, o) && Unswept(th))
  }

  /** The signaller has chosen `t` and not released the lock. */
  predicate Choosing(ob: Object, t: nat) {
    ob.lock == Exit(Some(t)) || Marks(ob, t)
  }

  function Threads(q: seq<Block>): seq<nat> {
    seq(|q|, i requires 0 <= i < |q| => q[i].thread)
  }

  predicate MutexObject(ob: Object) {
    && ob.kind.Mutex? && 0 <= ob.count && ob.count + |ob.holders| == 1
    && (ob.lock.Loop? || Trying(ob.lock) ==> ob.count == 1)
    && !ob.lock.Try3? && !ob.lock.Skip?
    && (ob.lock.Exit? ==> ob.holders == if ob.lock.thread.None? then {} else {ob.lock.thread.value})
    && (ob.lock.Mark? ==> ob.holders == {ob.lock.block.thread})
    && 1 + ob.released == ob.count + ob.delivered
    && ob.arrivals == ob.grants + Threads(Waiters(ob))
  }

  ghost predicate MutexInv(s: State, o: nat) {
    && o < s.users && o < |s.objects|
    && MutexObject(s.objects[o])
    && (forall t :: 0 <= t < |s.threads| ==> MutexThread(s.objects[o], o, t, s.threads[t]))
  }

  /** The queue with its history moved by at most one thread: nobody left it, somebody joined its
      end, or its first thread was granted the mutex. While somebody waits, every unlock that
      has made its choice made a grant. */
  ghost predicate QueueMoves(a: Object, b: Object) {
    && Chosen(a) <= Chosen(b)
    && (
    || (Waiters(a) <= Waiters(b) && b.grants == a.grants && (Waiters(a) != [] ==> Debt(b) == Debt(a)))
    || (Waiters(a) != [] && Waiters(b) == Waiters(a)[1..] && b.grants == a.grants + [Waiters(a)[0].thread] &&
        Debt(b) == Debt(a)))
  }

  /** Unlocks that have decided whom they give the mutex to. */
  function Chosen(ob: Object): int {
    ob.released - if ob.lock.Loop? || Trying(ob.lock) then 1 else 0
  }

  /** Those that gave it to nobody. */
  function Debt(ob: Object): int {
    Chosen(ob) - |ob.grants|
  }

  /** What a step does to mutex `o`. */
  ghost predicate Good(s: State, s': State, o: nat) {
    MutexInv(s', o) && o < |s.objects| && QueueMoves(s.objects[o], s'.objects[o])
  }

  // ---------------------------------------------------------------------------
  // Steps that leave the mutex alone
  // ---------------------------------------------------------------------------

  /** How a thread may change in a step that does not touch mutex `o`. */
  predicate Untouched(ob: Object, o: nat, t: nat, a: Thread, b: Thread) {
    || a == b
    || (SameTargets(a, b) &&
        (Locking(a, o) ==> !b.pc.Idle? && (b.status.Satisfied? ==> a.status.Satisfied?) &&
                           (Choosing(ob, t) && Unswept(a) ==> Unswept(b))))
  }

  lemma ElsewhereKeeps(s: State, s': State, o: nat)
    requires MutexInv(s, o) && |s'.threads| == |s.threads| && |s'.objects| == |s.objects| && s'.users == s.users
    requires s'.objects[o] == s.objects[o]
    requires forall t :: 0 <= t < |s.threads| ==> Untouched(s.objects[o], o, t, s.threads[t], s'.threads[t])
    ensures Good(s, s', o)
  {
    forall t | 0 <= t < |s'.threads| ensures MutexThread(s'.objects[o], o, t, s'.threads[t]) {
      assert MutexThread(s.objects[o], o, t, s.threads[t]);
      assert Untouched(s.objects[o], o, t, s.threads[t], s'.threads[t]);
    }
  }

  lemma BeginTargets(s: State, t: nat, os: seq<nat>, timeout: Timeout, locking: bool, o: nat)
    requires CanBegin(s, t, os, timeout, locking) && o < s.users
    ensures Locking(Begin(s, t, os, timeout, locking).threads[t], o) ==> os == [o]
    ensures o in Begin(s, t, os, timeout, locking).threads[t].targets <==> o in os
  {
    var targets := Begin(s, t, os, timeout, locking).threads[t].targets;
    if timeout.After? {
      assert targets == os + [StackTimer(s, t)];
      assert targets[|os|] == StackTimer(s, t) != o;
    }
  }

  lemma BeginGood(s: State, t: nat, os: seq<nat>, timeout: Timeout, locking: bool, o: nat)
    requires Inv(s) && MutexInv(s, o) && CanBegin(s, t, os, timeout, locking)
    requires Fair(s, BeginStep(t, os, timeout, locking), o)
    ensures Good(s, Begin(s, t, os, timeout, locking), o)
  {
    var s' := Begin(s, t, os, timeout, locking);
    assert s'.objects[o] == s.objects[o];
    assert MutexThread(s.objects[o], o, t, s.threads[t]);
    BeginTargets(s, t, os, timeout, locking, o);
    forall u | 0 <= u < |s'.threads| ensures MutexThread(s'.objects[o], o, u, s'.threads[u]) {
      assert MutexThread(s.objects[o], o, u, s.threads[u]);
    }
  }

  lemma ProbeGood(s: State, t: nat, o: nat)
    requires Inv(s) && MutexInv(s, o) && CanProbe(s, t)
    ensures Good(s, Probe(s, t), o)
  {
    var th := s.threads[t];
    var i := |th.blocks|;
    assert ThreadOk(th) && MutexThread(s.objects[o], o, t, th);
    if i < |th.targets| && th.targets[i] == o {
      assert o in th.targets;
      ProbeMutex(s, t, o);
    } else {
      ElsewhereKeeps(s, Probe(s, t), o);
    }
  }

  lemma ProbeMutex(s: State, t: nat, o: nat)
    requires Inv(s) && MutexInv(s, o) && CanProbe(s, t)
    requires s.threads[t].blocks == [] && s.threads[t].targets == [o]
    ensures Good(s, Probe(s, t), o)
  {
    var th := s.threads[t];
    var ob := s.objects[o];
    var s' := Probe(s, t);
    assert ThreadOk(th) && MutexThread(ob, o, t, th) && ObjectOk(ob);
    NotDangling(s, t);
    assert th.status.InProgress?;
    if ob.count > 0 {
      assert ob.holders == {};
      assert s'.objects[o].holders == {t};
      assert Waiters(s'.objects[o]) == Waiters(ob) == [];
    } else {
      assert Waiters(s'.objects[o]) == Waiters(ob) + [Block(t, 0)];
      assert Threads(Waiters(s'.objects[o])) == Threads(Waiters(ob)) + [t];
    }
    forall u | 0 <= u < |s'.threads| ensures MutexThread(s'.objects[o], o, u, s'.threads[u]) {
      assert MutexThread(ob, o, u, s.threads[u]);
    }
  }

  /** Steps of a waiter after its probes, except the last step of `mutex_lock`. */
  predicate Later(e: Step) {
    || e.CheckStep? || e.BackOutStep? || e.ArmStep? || e.CommitStep? || e.WakeStep? || e.DisarmStep? || e.SweepStep?
  }

  lemma LaterGood(s: State, e: Step, o: nat)
    requires Inv(s) && MutexInv(s, o) && Enabled(s, e) && Later(e)
    ensures Good(s, Apply(s, e), o)
  {
    var t := e.t;
    var s' := Apply(s, e);
    var th := s.threads[t];
    assert ThreadOk(th) && MutexThread(s.objects[o], o, t, th) && TargetsOk(s, t);
    LaterElsewhere(s, e, o);
    LaterThread(s, e, o);
    forall u | 0 <= u < |s.threads| ensures Untouched(s.objects[o], o, u, s.threads[u], s'.threads[u]) {
    }
    ElsewhereKeeps(s, s', o);
  }

  /** A waiter never takes a waitblock back from a mutex queue. */
  lemma LaterElsewhere(s: State, e: Step, o: nat)
    requires Inv(s) && MutexInv(s, o) && Enabled(s, e) && Later(e)
    ensures |Apply(s, e).objects| == |s.objects| && Apply(s, e).objects[o] == s.objects[o]
    ensures Apply(s, e).users == s.users
  {
    match e
    case BackOutStep(t) => BackOutElsewhere(s, t, o);
    case SweepStep(t) => SweepElsewhere(s, t, o);
    case _ =>
  }

  lemma BackOutElsewhere(s: State, t: nat, o: nat)
    requires Inv(s) && MutexInv(s, o) && CanBackOut(s, t)
    ensures |BackOut(s, t).objects| == |s.objects| && BackOut(s, t).objects[o] == s.objects[o]
  {
    var th := s.threads[t];
    assert ThreadOk(th) && MutexThread(s.objects[o], o, t, th);
    if th.pc.next < th.satisfier {
      assert th.targets[th.pc.next] in th.targets;
    }
  }

  lemma SweepElsewhere(s: State, t: nat, o: nat)
    requires Inv(s) && MutexInv(s, o) && CanSweep(s, t)
    ensures |Sweep(s, t).objects| == |s.objects| && Sweep(s, t).objects[o] == s.objects[o]
  {
    var th := s.threads[t];
    assert ThreadOk(th) && MutexThread(s.objects[o], o, t, th) && PendingOk(s, t);
    if th.pc.next < |th.targets| {
      assert th.targets[th.pc.next] in th.targets;
    }
  }

  lemma LaterThread(s: State, e: Step, o: nat)
    requires Inv(s) && MutexInv(s, o) && Enabled(s, e) && Later(e)
    ensures |Apply(s, e).threads| == |s.threads|
    ensures forall u :: 0 <= u < |s.threads| && u != e.t ==> Apply(s, e).threads[u] == s.threads[u]
    ensures Untouched(s.objects[o], o, e.t, s.threads[e.t], Apply(s, e).threads[e.t])
  {
    var th := s.threads[e.t];
    assert ThreadOk(th) && MutexThread(s.objects[o], o, e.t, th);
    StepTargets(s, e, e.t);
    if Locking(th, o) {
      assert o in th.targets;
      LaterLocking(s, e, o);
    }
  }

  lemma LaterLocking(s: State, e: Step, o: nat)
    requires Inv(s) && MutexInv(s, o) && Enabled(s, e) && Later(e)
    requires var th := s.threads[e.t]; Locking(th, o) && th.timeout.Forever? && th.locking
    ensures Untouched(s.objects[o], o, e.t, s.threads[e.t], Apply(s, e).threads[e.t])
  {
    assert ThreadOk(s.threads[e.t]);
  }

  lemma OwnGood(s: State, t: nat, o: nat)
    requires Inv(s) && MutexInv(s, o) && CanOwn(s, t)
    ensures Good(s, Own(s, t), o)
  {
    var th := s.threads[t];
    var s' := Own(s, t);
    assert ThreadOk(th) && MutexThread(s.objects[o], o, t, th);
    if th.targets[0] == o {
      assert o in th.targets;
      assert |s.objects[o].holders| == 1 && t in s.objects[o].holders;
      OnlyMember(s.objects[o].holders, t);
      forall u | 0 <= u < |s'.threads| ensures MutexThread(s'.objects[o], o, u, s'.threads[u]) {
        assert MutexThread(s.objects[o], o, u, s.threads[u]);
      }
      assert Waiters(s'.objects[o]) == Waiters(s.objects[o]);
    } else {
      ElsewhereKeeps(s, s', o);
    }
  }

  lemma OnlyMember(a: set<nat>, t: nat)
    requires |a| <= 1 && t in a
    ensures a == {t}
  {
    assert |a - {t}| == |a| - 1;
  }

  // ---------------------------------------------------------------------------
  // Steps of the signaller
  // ---------------------------------------------------------------------------

  lemma UnlockGood(s: State, t: nat, p: nat, o: nat)
    requires Inv(s) && MutexInv(s, o) && CanUnlock(s, t, p) && Fair(s, UnlockStep(t, p), o)
    ensures Good(s, Unlock(s, t, p), o)
  {
    var s' := Unlock(s, t, p);
    if p == o {
      OnlyMember(s.objects[o].holders, t);
      assert s'.objects[o].holders == {};
      assert Waiters(s'.objects[o]) == Waiters(s.objects[o]);
      forall u | 0 <= u < |s'.threads| ensures MutexThread(s'.objects[o], o, u, s'.threads[u]) {
        assert MutexThread(s.objects[o], o, u, s.threads[u]);
      }
    } else {
      ElsewhereKeeps(s, s', o);
    }
  }

  lemma DrainGood(s: State, p: nat, o: nat)
    requires Inv(s) && MutexInv(s, o) && CanDrain(s, p)
    ensures Good(s, Drain(s, p), o)
  {
    var s' := Drain(s, p);
    if p == o {
      DrainedObject(s.objects[o]);
      forall u | 0 <= u < |s'.threads| ensures MutexThread(s'.objects[o], o, u, s'.threads[u]) {
        assert MutexThread(s.objects[o], o, u, s.threads[u]);
      }
    } else {
      ElsewhereKeeps(s, s', o);
    }
  }

  lemma DrainedObject(ob: Object)
    requires MutexObject(ob) && ob.lock.Loop?
    ensures var ob' := if ob.queue != [] && ob.count > 0 then ob.(queue := ob.queue[1..], lock := Try1(ob.queue[0]))
                       else ob.(lock := Exit(None));
            MutexObject(ob') && QueueMoves(ob, ob') && ob'.holders == ob.holders == {} && ob'.owner == ob.owner
  {
    assert ob.holders == {};
    if ob.queue != [] {
      assert ob.queue == [ob.queue[0]] + ob.queue[1..];
    }
  }

  /** The waitblock a signaller of the mutex has in its hands belongs to a wait nobody else satisfies. */
  lemma InFlightUnsatisfied(s: State, o: nat)
    requires Inv(s) && MutexInv(s, o) && InFlight(s, o)
    ensures var b := s.objects[o].lock.block;
            && b.index == 0 && Locking(s.threads[b.thread], o) && Unswept(s.threads[b.thread])
            && !s.threads[b.thread].status.Satisfied?
  {
    InFlightAttached(s, o);
    var b := s.objects[o].lock.block;
    var th := s.threads[b.thread];
    assert MutexThread(s.objects[o], o, b.thread, th);
    assert th.targets[b.index] in th.targets;
    assert ThreadOk(th);
  }

  lemma SwapGood(s: State, o: nat, wake: bool)
    requires Inv(s) && MutexInv(s, o) && InFlight(s, o)
    ensures Good(s, Swap(s, o, wake), o)
  {
    var ob := s.objects[o];
    var t := ob.lock.block.thread;
    var s' := Swap(s, o, wake);
    InFlightUnsatisfied(s, o);
    assert ob.holders == {} && s'.objects[o].holders == {t};
    SwapHistory(ob, t, wake);
    assert MutexObject(s'.objects[o]);
    forall u | 0 <= u < |s'.threads| ensures MutexThread(s'.objects[o], o, u, s'.threads[u]) {
      assert MutexThread(ob, o, u, s.threads[u]);
    }
  }

  lemma Regrouped(grants: seq<nat>, w: seq<Block>)
    requires w != []
    ensures grants + Threads(w) == (grants + [w[0].thread]) + Threads(w[1..])
  {
    assert Threads(w) == [w[0].thread] + Threads(w[1..]);
  }

  lemma SwapWaiters(ob: Object, lock: Lock)
    requires Trying(ob.lock) && !Trying(lock)
    ensures Waiters(ob) != [] && Waiters(ob)[0] == ob.lock.block
    ensures Waiters(ob.(lock := lock)) == Waiters(ob)[1..] == ob.queue
  {
  }

  lemma SwapHistory(ob: Object, t: nat, wake: bool)
    requires MutexObject(ob) && Trying(ob.lock) && ob.lock.block.thread == t
    ensures var ob' := Deliver(Consume(ob), t).(lock := Mark(ob.lock.block, wake), grants := ob.grants + [t]);
            && Waiters(ob') == Waiters(ob)[1..]
            && ob'.arrivals == ob'.grants + Threads(Waiters(ob'))
            && QueueMoves(ob, ob')
  {
    var ob' := Deliver(Consume(ob), t).(lock := Mark(ob.lock.block, wake), grants := ob.grants + [t]);
    SwapWaiters(ob, ob'.lock);
    assert Waiters(ob') == Waiters(ob.(lock := ob'.lock));
    Regrouped(ob.grants, Waiters(ob));
  }

  lemma StoreGood(s: State, p: nat, o: nat)
    requires Inv(s) && MutexInv(s, o) && CanStore(s, p)
    ensures Good(s, Store(s, p), o)
  {
    var s' := Store(s, p);
    MarkedThread(s, p);
    if p == o {
      var ob := s.objects[o];
      assert Waiters(s'.objects[o]) == Waiters(ob);
      forall u | 0 <= u < |s'.threads| ensures MutexThread(s'.objects[o], o, u, s'.threads[u]) {
        assert MutexThread(ob, o, u, s.threads[u]);
      }
    } else {
      ElsewhereKeeps(s, s', o);
    }
  }

  lemma TryGood(s: State, e: Step, o: nat)
    requires Inv(s) && MutexInv(s, o) && Enabled(s, e)
    requires e.FirstStep? || e.SecondStep? || e.ThirdStep? || e.SkipStep?
    ensures Good(s, Apply(s, e), o)
  {
    if e.o == o {
      var ob := s.objects[o];
      InFlightUnsatisfied(s, o);
      var status := s.threads[ob.lock.block.thread].status;
      if (e.FirstStep? && status.InProgress?) || (e.SecondStep? && status.Committed?) {
        SwapGood(s, o, e.SecondStep?);
      } else {
        assert LearnedOk(s, o);
        FailedSwapGood(s, o);
      }
    } else {
      TryElsewhere(s, e, o);
    }
  }

  lemma FailedSwapGood(s: State, o: nat)
    requires Inv(s) && MutexInv(s, o) && CanTry1(s, o)
    ensures Good(s, WithObject(s, o, s.objects[o].(lock := Try2(s.objects[o].lock.block))), o)
  {
    var ob := s.objects[o];
    var s' := WithObject(s, o, ob.(lock := Try2(ob.lock.block)));
    assert Waiters(s'.objects[o]) == Waiters(ob);
    forall u | 0 <= u < |s'.threads| ensures MutexThread(s'.objects[o], o, u, s'.threads[u]) {
      assert MutexThread(ob, o, u, s.threads[u]);
    }
  }

  lemma TryElsewhere(s: State, e: Step, o: nat)
    requires Inv(s) && MutexInv(s, o) && Enabled(s, e)
    requires e.FirstStep? || e.SecondStep? || e.ThirdStep? || e.SkipStep?
    requires e.o != o
    ensures Good(s, Apply(s, e), o)
  {
    var p := e.o;
    if (e.FirstStep? && s.threads[s.objects[p].lock.block.thread].status.InProgress?) ||
       (e.SecondStep? && s.threads[s.objects[p].lock.block.thread].status.Committed?) {
      SwapElsewhere(s, p, e.SecondStep?, o);
    } else if e.SkipStep? {
      SkipElsewhere(s, p, o);
    } else {
      ElsewhereKeeps(s, Apply(s, e), o);
    }
  }

  lemma SwapElsewhere(s: State, p: nat, wake: bool, o: nat)
    requires Inv(s) && MutexInv(s, o) && InFlight(s, p) && p != o
    ensures Good(s, Swap(s, p, wake), o)
  {
    InFlightAttached(s, p);
    var b := s.objects[p].lock.block;
    assert s.threads[b.thread].targets[b.index] != o;
    ElsewhereKeeps(s, Swap(s, p, wake), o);
  }

  lemma SkipElsewhere(s: State, p: nat, o: nat)
    requires Inv(s) && MutexInv(s, o) && CanSkip(s, p) && p != o
    ensures Good(s, SkipOver(s, p), o)
  {
    ElsewhereKeeps(s, SkipOver(s, p), o);
  }

  lemma FinishGood(s: State, p: nat, o: nat)
    requires Inv(s) && MutexInv(s, o) && CanFinish(s, p)
    ensures Good(s, Finish(s, p), o)
  {
    var s' := Finish(s, p);
    if p == o {
      assert Waiters(s'.objects[o]) == Waiters(s.objects[o]);
      forall u | 0 <= u < |s'.threads| ensures MutexThread(s'.objects[o], o, u, s'.threads[u]) {
        assert MutexThread(s.objects[o], o, u, s.threads[u]);
      }
    } else {
      ElsewhereKeeps(s, s', o);
    }
  }

  lemma ElsewhereGood(s: State, e: Step, o: nat)
    requires Inv(s) && MutexInv(s, o) && Enabled(s, e)
    requires e.ReleaseStep? || e.ExpireStep? || e.StartStep? || e.StopStep? || e.TickStep?
    ensures Good(s, Apply(s, e), o)
  {
    ElsewhereKeeps(s, Apply(s, e), o);
  }

  lemma WaiterGood(s: State, e: Step, o: nat)
    requires Inv(s) && MutexInv(s, o) && Enabled(s, e) && Fair(s, e, o) && WaiterStep(e)
    ensures Good(s, Apply(s, e), o)
  {
    match e
    case BeginStep(t, os, timeout, locking) => BeginGood(s, t, os, timeout, locking, o);
    case ProbeStep(t) => ProbeGood(s, t, o);
    case OwnStep(t) => OwnGood(s, t, o);
    case _ => LaterGood(s, e, o);
  }

  lemma SignallerGood(s: State, e: Step, o: nat)
    requires Inv(s) && MutexInv(s, o) && Enabled(s, e) && Fair(s, e, o)
    requires e.UnlockStep? || e.DrainStep? || e.StoreStep? || e.FinishStep?
    ensures Good(s, Apply(s, e), o)
  {
    match e
    case UnlockStep(t, p) => UnlockGood(s, t, p, o);
    case DrainStep(p) => DrainGood(s, p, o);
    case StoreStep(p) => StoreGood(s, p, o);
    case FinishStep(p) => FinishGood(s, p, o);
  }

  lemma StepGood(s: State, e: Step, o: nat)
    requires Inv(s) && MutexInv(s, o) && Enabled(s, e) && Fair(s, e, o)
    ensures Good(s, Apply(s, e), o)
  {
    if WaiterStep(e) {
      WaiterGood(s, e, o);
    } else if e.FirstStep? || e.SecondStep? || e.ThirdStep? || e.SkipStep? {
      TryGood(s, e, o);
    } else if e.ReleaseStep? || e.ExpireStep? || e.StartStep? || e.StopStep? || e.TickStep? {
      ElsewhereGood(s, e, o);
    } else {
      SignallerGood(s, e, o);
    }
  }

  // ---------------------------------------------------------------------------
  // Runs
  // ---------------------------------------------------------------------------

  lemma InitialMutex(s: State, o: nat)
    requires Initial(s) && o < s.users && s.objects[o].kind.Mutex?
    ensures MutexInv(s, o)
  {
    assert InitialObject(s.objects[o]);
    forall t | 0 <= t < |s.threads| ensures MutexThread(s.objects[o], o, t, s.threads[t]) {
      assert InitialThread(s.threads[t]);
    }
  }

  lemma {:induction false} RunGood(s: State, es: seq<Step>, o: nat)
    requires Inv(s) && MutexInv(s, o) && IsRun(s, es) && TidyRun(s, es) && FairRun(s, es, o)
    ensures Inv(Final(s, es)) && MutexInv(Final(s, es), o)
    decreases |es|
  {
    if es != [] {
      StepKeeps(s, es[0]);
      StepGood(s, es[0], o);
      RunGood(Apply(s, es[0]), es[1..], o);
    }
  }

  /** In every run of disciplined clients the signal and the holders add up to one, every unlock is
      still there or satisfied one lock, `mutex_lock` returns only to the holder, and once it has
      returned `owner` names the holder. */
  lemma MutualExclusion(s: State, es: seq<Step>, o: nat)
    requires Initial(s) && o < s.users && s.objects[o].kind.Mutex?
    requires IsRun(s, es) && TidyRun(s, es) && FairRun(s, es, o)
    ensures var f := Final(s, es);
            && o < |f.objects|
            && f.objects[o].count + |f.objects[o].holders| == 1 && 0 <= f.objects[o].count
            && 1 + f.objects[o].released == f.objects[o].count + f.objects[o].delivered
            && (forall t :: 0 <= t < |f.threads| && f.threads[t].pc.Owning? && f.threads[t].targets == [o] ==>
                  f.objects[o].holders == {t})
            && (forall t :: 0 <= t < |f.threads| && f.threads[t].pc.Idle? && t in f.objects[o].holders ==>
                  f.objects[o].holders == {t} && f.objects[o].owner == Some(t))
  {
    InitialOk(s);
    InitialMutex(s, o);
    RunGood(s, es, o);
    var f := Final(s, es);
    forall t | 0 <= t < |f.threads| && f.threads[t].pc.Owning? && f.threads[t].targets == [o]
      ensures f.objects[o].holders == {t}
    {
      assert ThreadOk(f.threads[t]) && MutexThread(f.objects[o], o, t, f.threads[t]);
      OnlyMember(f.objects[o].holders, t);
    }
    forall t | 0 <= t < |f.threads| && f.threads[t].pc.Idle? && t in f.objects[o].holders
      ensures f.objects[o].holders == {t} && f.objects[o].owner == Some(t)
    {
      assert MutexThread(f.objects[o], o, t, f.threads[t]);
      OnlyMember(f.objects[o].holders, t);
    }
  }

  lemma {:induction false} GrantsGrow(s: State, es: seq<Step>, o: nat)
    requires Inv(s) && MutexInv(s, o) && IsRun(s, es) && TidyRun(s, es) && FairRun(s, es, o)
    ensures o < |Final(s, es).objects| && s.objects[o].grants <= Final(s, es).objects[o].grants
    ensures Chosen(s.objects[o]) <= Chosen(Final(s, es).objects[o])
    decreases |es|
  {
    if es != [] {
      StepKeeps(s, es[0]);
      StepGood(s, es[0], o);
      GrantsGrow(Apply(s, es[0]), es[1..], o);
    }
  }

  /** The waiter at position `k` of `a` after the mutex went from `a` to `b`: it was granted the
      mutex as the (k+1)-th since, or it has moved up by one place for every grant, with the same
      threads in front of it, and every unlock that has chosen its successor made one grant. */
  ghost predicate InTurn(a: Object, b: Object, k: nat)
    requires k < |Waiters(a)|
  {
    && a.grants <= b.grants
    && var g := |b.grants| - |a.grants|;
    if g > k then b.grants[|a.grants| + k] == Waiters(a)[k].thread && Chosen(a) + k + 1 <= Chosen(b)
    else k - g < |Waiters(b)| && Waiters(b)[..k - g + 1] == Waiters(a)[g..k + 1] && Debt(b) == Debt(a)
  }

  lemma InTurnStays(a: Object, b: Object, c: Object, k: nat)
    requires k < |Waiters(a)| && Waiters(a) <= Waiters(b) && b.grants == a.grants && Debt(b) == Debt(a)
    requires InTurn(b, c, k)
    ensures InTurn(a, c, k)
  {
    var g := |c.grants| - |b.grants|;
    if g <= k {
      assert Waiters(b)[g..k + 1] == Waiters(a)[g..k + 1];
    }
  }

  lemma InTurnMoves(a: Object, b: Object, c: Object, k: nat)
    requires 0 < k < |Waiters(a)| && Waiters(b) == Waiters(a)[1..] && Debt(b) == Debt(a)
    requires b.grants == a.grants + [Waiters(a)[0].thread]
    requires InTurn(b, c, k - 1)
    ensures InTurn(a, c, k)
  {
    var g := |c.grants| - |b.grants|;
    if g <= k - 1 {
      assert Waiters(b)[g..k] == Waiters(a)[g + 1..k + 1];
    }
  }

  lemma InTurnStep(a: Object, b: Object, c: Object, k: nat)
    requires k < |Waiters(a)| && QueueMoves(a, b) && b.grants <= c.grants && Chosen(b) <= Chosen(c)
    requires b.grants == a.grants ==> k < |Waiters(b)| && InTurn(b, c, k)
    requires b.grants != a.grants && k > 0 ==> k - 1 < |Waiters(b)| && InTurn(b, c, k - 1)
    ensures InTurn(a, c, k)
  {
    if b.grants == a.grants {
      InTurnStays(a, b, c, k);
    } else if k > 0 {
      InTurnMoves(a, b, c, k);
    }
  }

  lemma StepQueue(s: State, e: Step, o: nat)
    requires Inv(s) && MutexInv(s, o) && Enabled(s, e) && Tidy(s, e) && Fair(s, e, o)
    ensures Inv(Apply(s, e)) && MutexInv(Apply(s, e), o) && QueueMoves(s.objects[o], Apply(s, e).objects[o])
  {
    StepKeeps(s, e);
    StepGood(s, e, o);
  }

  lemma StaysQueued(a: Object, b: Object, k: nat)
    requires k < |Waiters(a)| && QueueMoves(a, b)
    ensures if b.grants == a.grants then k < |Waiters(b)| else k <= |Waiters(b)|
  {
  }

  lemma RunQueue(s: State, es: seq<Step>, o: nat)
    requires Inv(s) && MutexInv(s, o) && IsRun(s, es) && TidyRun(s, es) && FairRun(s, es, o) && es != []
    ensures var s' := Apply(s, es[0]);
            && Inv(s') && MutexInv(s', o) && QueueMoves(s.objects[o], s'.objects[o])
            && IsRun(s', es[1..]) && TidyRun(s', es[1..]) && FairRun(s', es[1..], o)
            && Final(s, es) == Final(s', es[1..])
  {
    StepQueue(s, es[0], o);
  }

  lemma InTurnHere(a: Object, k: nat)
    requires k < |Waiters(a)|
    ensures InTurn(a, a, k)
  {
  }

  /** Strict first-in first-out hand-off: a waiter at position k gets the mutex with the (k+1)-th
      unlock and is never overtaken. */
  lemma {:induction false} FifoHandOff(s: State, es: seq<Step>, o: nat, k: nat)
    requires Inv(s) && MutexInv(s, o) && IsRun(s, es) && TidyRun(s, es) && FairRun(s, es, o)
    requires k < |Waiters(s.objects[o])|
    ensures o < |Final(s, es).objects| && InTurn(s.objects[o], Final(s, es).objects[o], k)
    decreases |es|, 0
  {
    if es == [] {
      InTurnHere(s.objects[o], k);
    } else {
      RunQueue(s, es, o);
      FifoNext(s.objects[o], Apply(s, es[0]), es[1..], o, k);
    }
  }

  /** The same, one step earlier. */
  lemma {:induction false} FifoNext(a: Object, s: State, es: seq<Step>, o: nat, k: nat)
    requires Inv(s) && MutexInv(s, o) && IsRun(s, es) && TidyRun(s, es) && FairRun(s, es, o)
    requires k < |Waiters(a)| && QueueMoves(a, s.objects[o])
    ensures o < |Final(s, es).objects| && InTurn(a, Final(s, es).objects[o], k)
    decreases |es|, 1
  {
    GrantsGrow(s, es, o);
    StaysQueued(a, s.objects[o], k);
    if s.objects[o].grants == a.grants {
      FifoHandOff(s, es, o, k);
    } else if k > 0 {
      FifoHandOff(s, es, o, k - 1);
    }
    InTurnStep(a, s.objects[o], Final(s, es).objects[o], k);
  }

  /** After u completed unlocks the waiter at position k has the mutex if u > k and otherwise is at
      position k - u. */
  predicate AfterUnlocks(a: Object, b: Object, k: nat)
    requires k < |a.queue|
  {
    var u := b.released - a.released;
    if u > k then |a.grants| + k < |b.grants| && b.grants[|a.grants| + k] == a.queue[k].thread
    else u >= 0 && k - u < |b.queue| && b.queue[k - u] == a.queue[k]
  }

  lemma FreeInTurn(a: Object, b: Object, k: nat)
    requires a.lock.Free? && b.lock.Free? && k < |Waiters(a)| && InTurn(a, b, k)
    ensures k < |a.queue| && AfterUnlocks(a, b, k)
  {
    assert Waiters(a) == a.queue && Waiters(b) == b.queue;
    var g := |b.grants| - |a.grants|;
    if g <= k {
      assert Waiters(b)[..k - g + 1][k - g] == Waiters(a)[g..k + 1][k - g];
    }
  }

  /** The same between two states in which nobody is unlocking. */
  lemma UnlocksToGo(s: State, es: seq<Step>, o: nat, k: nat)
    requires Inv(s) && MutexInv(s, o) && IsRun(s, es) && TidyRun(s, es) && FairRun(s, es, o)
    requires s.objects[o].lock.Free? && k < |s.objects[o].queue|
    requires o < |Final(s, es).objects| && Final(s, es).objects[o].lock.Free?
    ensures AfterUnlocks(s.objects[o], Final(s, es).objects[o], k)
  {
    var a, b := s.objects[o], Final(s, es).objects[o];
    assert InTurn(a, b, k) by { FifoHandOff(s, es, o, k); }
    FreeInTurn(a, b, k);
  }

  /** The order of grants through the queue is the order of arrival, in every run. */
  lemma GrantsFollowArrivals(s: State, es: seq<Step>, o: nat)
    requires Initial(s) && o < s.users && s.objects[o].kind.Mutex?
    requires IsRun(s, es) && TidyRun(s, es) && FairRun(s, es, o)
    ensures o < |Final(s, es).objects|
    ensures Final(s, es).objects[o].grants <= Final(s, es).objects[o].arrivals
  {
    InitialOk(s);
    InitialMutex(s, o);
    RunGood(s, es, o);
  }
}
