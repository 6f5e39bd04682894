/** What the wait protocol guarantees in every reachable state. */
module WaitTheorems {
  import opened Common
  import opened WaitProtocol
  import opened WaitInvariant

  /** The end of some run. */
  ghost predicate Reachable(s: State) {
    exists s0: State, es: seq<Step> :: Initial(s0) && IsRun(s0, es) && Final(s0, es) == s
  }

  /** The end of a run in which every wait takes its waitblocks back before it returns. */
  ghost predicate TidyReachable(s: State) {
    exists s0: State, es: seq<Step> :: Initial(s0) && IsRun(s0, es) && TidyRun(s0, es) && Final(s0, es) == s
  }

  lemma ReachableInv(s: State)
    requires TidyReachable(s)
    ensures Inv(s)
  {
    var s0: State, es: seq<Step> :| Initial(s0) && IsRun(s0, es) && TidyRun(s0, es) && Final(s0, es) == s;
    InitialOk(s0);
    RunKeeps(s0, es);
  }

  lemma {:induction false} RunExtends(s: State, es: seq<Step>, e: Step)
    requires IsRun(s, es) && Enabled(Final(s, es), e)
    ensures IsRun(s, es + [e]) && Final(s, es + [e]) == Apply(Final(s, es), e)
    ensures TidyRun(s, es) && Tidy(Final(s, es), e) ==> TidyRun(s, es + [e])
    decreases |es|
  {
    if es == [] {
      assert ([] + [e])[1..] == [];
    } else {
      assert (es + [e])[1..] == es[1..] + [e];
      RunExtends(Apply(s, es[0]), es[1..], e);
    }
  }

  lemma TakeStep(s: State, e: Step) returns (s': State)
    requires Reachable(s) && Enabled(s, e)
    ensures s' == Apply(s, e) && Reachable(s')
  {
    s' := Apply(s, e);
    var s0: State, es: seq<Step> :| Initial(s0) && IsRun(s0, es) && Final(s0, es) == s;
    RunExtends(s0, es, e);
  }

  lemma TakeTidyStep(s: State, e: Step) returns (s': State)
    requires TidyReachable(s) && Enabled(s, e) && Tidy(s, e)
    ensures s' == Apply(s, e) && TidyReachable(s')
  {
    s' := Apply(s, e);
    var s0: State, es: seq<Step> :| Initial(s0) && IsRun(s0, es) && TidyRun(s0, es) && Final(s0, es) == s;
    RunExtends(s0, es, e);
  }

  lemma TidyIsReachable(s: State)
    requires TidyReachable(s)
    ensures Reachable(s)
  {
  }

  // ---------------------------------------------------------------------------
  // Tidy returns
  // ---------------------------------------------------------------------------

  /** The invariant survives a step exactly if the step is tidy. */
  lemma TidyExactly(s: State, e: Step)
    requires Inv(s) && Enabled(s, e)
    ensures Inv(Apply(s, e)) <==> Tidy(s, e)
  {
    if Tidy(s, e) {
      StepKeeps(s, e);
    } else {
      UntidyBreaks(s, e.t);
    }
  }

  lemma UntidyBreaks(s: State, t: nat)
    requires Inv(s) && CanBackOut(s, t) && !Tidy(s, BackOutStep(t))
    ensures !Inv(BackOut(s, t))
  {
    var s' := BackOut(s, t);
    var o :| 0 <= o < |s.objects| && Holds(s.objects[o], t);
    assert s'.objects == s.objects && !Waiting(s'.threads[t].pc);
    if Marks(s.objects[o], t) {
      assert LearnedOk(s', o) ==> s'.threads[t].pending;
      assert ThreadOk(s'.threads[t]) ==> !s'.threads[t].pending;
    } else {
      var b :| b in Waiters(s.objects[o]) && b.thread == t;
      assert b in Waiters(s'.objects[o]) && !Attached(s'.threads, o, b);
    }
  }

  /** A return is untidy exactly if it is that of a poll which a signaller satisfied after the probe
      (line 92 with `satisfier == -1`) and a waitblock of which is still ACTIVE: on the queue of
      another object, or because the satisfying signaller has not come to line 205. */
  lemma UntidyReturns(s: State, t: nat)
    requires Inv(s) && CanBackOut(s, t) && s.threads[t].pc.next >= s.threads[t].satisfier
    ensures var th := s.threads[t];
            !Tidy(s, BackOutStep(t)) <==>
              th.timeout.Poll? && th.satisfier == -1 && exists i :: 0 <= i < |th.blocks| && th.blocks[i].Active?
  {
    var th := s.threads[t];
    assert ThreadOk(th) && PendingOk(s, t) && TargetsOk(s, t);
    if i :| 0 <= i < |th.blocks| && th.blocks[i].Active? && th.satisfier == -1 {
      ActiveHeld(s, t, i);
    }
    if !Tidy(s, BackOutStep(t)) {
      var o :| 0 <= o < |s.objects| && Holds(s.objects[o], t);
      HeldActive(s, t, o);
    }
  }

  lemma ActiveHeld(s: State, t: nat, i: nat)
    requires Inv(s) && t < |s.threads| && Waiting(s.threads[t].pc) && Passed(s.threads[t].pc) <= i < |s.threads[t].blocks|
    requires s.threads[t].blocks[i].Active?
    ensures exists o :: 0 <= o < |s.objects| && Holds(s.objects[o], t)
  {
    var th := s.threads[t];
    if th.pending && th.winner == i {
      assert PendingOk(s, t);
      assert Marks(s.objects[th.targets[i]], t);
    } else {
      AttachedHolds(s, t, i);
    }
  }

  lemma HeldActive(s: State, t: nat, o: nat)
    requires Inv(s) && t < |s.threads| && o < |s.objects| && Holds(s.objects[o], t)
    ensures Waiting(s.threads[t].pc)
    ensures exists i :: Passed(s.threads[t].pc) <= i < |s.threads[t].blocks| && s.threads[t].blocks[i].Active?
  {
    var th := s.threads[t];
    assert LearnedOk(s, o) && ThreadOk(th);
    if Marks(s.objects[o], t) {
      assert th.blocks[th.winner].Active?;
    } else {
      var b :| b in Waiters(s.objects[o]) && b.thread == t;
      assert Attached(s.threads, o, b);
      assert th.blocks[b.index].Active?;
    }
  }

  predicate NoPoll(e: Step) {
    e.BeginStep? ==> !e.timeout.Poll?
  }

  ghost predicate NoPolls(s: State) {
    forall t :: 0 <= t < |s.threads| && !s.threads[t].pc.Idle? ==> !s.threads[t].timeout.Poll?
  }

  /** A kernel that does not poll is always tidy. */
  lemma {:induction false} NoPollsTidy(s: State, es: seq<Step>)
    requires Inv(s) && NoPolls(s) && IsRun(s, es) && forall i :: 0 <= i < |es| ==> NoPoll(es[i])
    ensures TidyRun(s, es)
    decreases |es|
  {
    if es != [] {
      var e := es[0];
      if e.BackOutStep? && s.threads[e.t].pc.next >= s.threads[e.t].satisfier {
        UntidyReturns(s, e.t);
      }
      StepKeeps(s, e);
      StillNoPolls(s, e);
      NoPollsTidy(Apply(s, e), es[1..]);
    }
  }

  lemma StillNoPolls(s: State, e: Step)
    requires NoPolls(s) && Enabled(s, e) && NoPoll(e)
    ensures NoPolls(Apply(s, e))
  {
    forall t | 0 <= t < |Apply(s, e).threads| && !Apply(s, e).threads[t].pc.Idle?
      ensures !Apply(s, e).threads[t].timeout.Poll?
    {
      if !(e.BeginStep? && e.t == t) {
        SameSize(s, e);
        StepTargets(s, e, t);
      }
    }
  }

  lemma SameSize(s: State, e: Step)
    requires Enabled(s, e)
    ensures |Apply(s, e).threads| == |s.threads|
  {
  }

  // ---------------------------------------------------------------------------
  // One satisfier, one wake-up
  // ---------------------------------------------------------------------------

  /** In every interleaving a wait is satisfied at most once, by one agent, with at most one of its
      waitblocks SIGNALED, and it is woken at most once and only after it committed. */
  lemma OneSatisfier(s: State, t: nat)
    requires TidyReachable(s) && t < |s.threads|
    ensures var th := s.threads[t];
            && th.moves <= 1 && (th.moves == 1 <==> th.status.Satisfied?)
            && th.wakes <= th.moves && (th.wakes == 1 ==> th.committed)
            && (Waiting(th.pc) ==>
                  forall i, j | 0 <= i < |th.blocks| && 0 <= j < |th.blocks| ::
                    th.blocks[i].Signaled? && th.blocks[j].Signaled? ==> i == j)
  {
    ReachableInv(s);
    assert ThreadOk(s.threads[t]);
  }

  /** The step that satisfies a wait of `t`. */
  predicate Satisfies(s: State, e: Step, t: nat) {
    match e
    case ProbeStep(u) => u == t
    case FirstStep(o) => o < |s.objects| && s.objects[o].lock.Try1? && s.objects[o].lock.block.thread == t
    case SecondStep(o) => o < |s.objects| && s.objects[o].lock.Try2? && s.objects[o].lock.block.thread == t
    case _ => false
  }

  /** One edge of the life of a status word. */
  predicate StatusEdge(s: State, e: Step, t: nat, a: Thread, b: Thread) {
    || (b.status == a.status && b.wakes == a.wakes)
    || (e.BeginStep? && e.t == t && a.pc.Idle? && b.status.InProgress? && b.wakes == 0)
    || (e == CommitStep(t) && a.status.InProgress? && b.status.Committed? && b.wakes == a.wakes)
    || (Satisfies(s, e, t) && !a.status.Satisfied? && b.status.Satisfied? && b.wakes == a.wakes)
    || (e.StoreStep? && e.o < |s.objects| && Marks(s.objects[e.o], t) && s.objects[e.o].lock.wake &&
        b.status == a.status && b.wakes == a.wakes + 1)
  }

  /** The status word only moves IN_PROGRESS, (COMMITTED,) SATISFIED: the thread itself commits, the
      thread or one signaller satisfies, and only a new wait of an idle thread starts over. A thread
      is woken by the signaller that satisfied a committed wait and by nobody else. */
  lemma StatusMoves(s: State, e: Step, t: nat)
    requires Enabled(s, e) && t < |s.threads|
    ensures |Apply(s, e).threads| == |s.threads|
    ensures StatusEdge(s, e, t, s.threads[t], Apply(s, e).threads[t])
  {
    if WaiterStep(e) {
      WaiterMoves(s, e, t);
    } else {
      SignallerMoves(s, e, t);
    }
  }

  lemma SignallerMoves(s: State, e: Step, t: nat)
    requires Enabled(s, e) && t < |s.threads| && !WaiterStep(e)
    ensures |Apply(s, e).threads| == |s.threads|
    ensures StatusEdge(s, e, t, s.threads[t], Apply(s, e).threads[t])
  {
  }

  lemma WaiterMoves(s: State, e: Step, t: nat)
    requires Enabled(s, e) && t < |s.threads| && WaiterStep(e)
    ensures |Apply(s, e).threads| == |s.threads|
    ensures StatusEdge(s, e, t, s.threads[t], Apply(s, e).threads[t])
  {
    if e.BeginStep? || e.ProbeStep? || e.CheckStep? || e.BackOutStep? {
      EarlyMoves(s, e, t);
    } else {
      LateMoves(s, e, t);
    }
  }

  lemma EarlyMoves(s: State, e: Step, t: nat)
    requires Enabled(s, e) && t < |s.threads|
    requires e.BeginStep? || e.ProbeStep? || e.CheckStep? || e.BackOutStep?
    ensures |Apply(s, e).threads| == |s.threads|
    ensures StatusEdge(s, e, t, s.threads[t], Apply(s, e).threads[t])
  {
  }

  lemma LateMoves(s: State, e: Step, t: nat)
    requires Enabled(s, e) && t < |s.threads|
    requires e.ArmStep? || e.CommitStep? || e.WakeStep? || e.DisarmStep? || e.SweepStep? || e.OwnStep?
    ensures |Apply(s, e).threads| == |s.threads|
    ensures StatusEdge(s, e, t, s.threads[t], Apply(s, e).threads[t])
  {
  }

  /** The three cases of the signaller are exhaustive: when both swaps have failed the wait has
      been satisfied by someone else, so the fall-through is dead. */
  lemma ThreeCases(s: State, o: nat)
    requires TidyReachable(s) && CanTry3(s, o)
    ensures s.threads[s.objects[o].lock.block.thread].status.Satisfied?
    ensures Third(s, o).objects[o].lock.Skip?
  {
    ReachableInv(s);
    assert LearnedOk(s, o);
  }

  /** The final loop neither finds a second satisfier nor unlinks a waitblock twice. */
  lemma SweepNeverHalts(s: State, t: nat)
    requires TidyReachable(s) && s.halt.Live? && CanSweep(s, t)
    ensures Sweep(s, t).halt.Live?
  {
    ReachableInv(s);
    var th := s.threads[t];
    assert ThreadOk(th);
    if th.pc.next < |th.targets| && th.blocks[th.pc.next].Active? {
      SweepUnlinks(s, t);
    }
  }

  /** The panic of line 94 is reached exactly by a poll that nobody satisfied: such a wait does not
      return immediately as `wait.h` says. */
  lemma CheckPanics(s: State, t: nat)
    requires TidyReachable(s) && s.halt.Live? && CanCheck(s, t)
    ensures Check(s, t).halt.Panicked? <==> s.threads[t].timeout.Poll? && s.threads[t].status.InProgress?
  {
    ReachableInv(s);
    assert ThreadOk(s.threads[t]);
  }

  /** The early removal loop unlinks a waitblock that is on no queue exactly when a signaller has
      already taken that waitblock, which is what line 151 tests and line 106 does not. */
  lemma BackOutCorrupts(s: State, t: nat)
    requires TidyReachable(s) && s.halt.Live? && CanBackOut(s, t)
    ensures var th := s.threads[t];
            BackOut(s, t).halt.Corrupt? <==> th.pc.next < th.satisfier && !th.blocks[th.pc.next].Active?
  {
    ReachableInv(s);
    var th := s.threads[t];
    var i := th.pc.next;
    assert PendingOk(s, t) && ThreadOk(th);
    if i < th.satisfier {
      var ob := s.objects[th.targets[i]];
      assert Waiters(ob) == ob.queue;
      assert Block(t, i) in Waiters(ob) <==> Attached(s.threads, th.targets[i], Block(t, i));
    }
  }

  // ---------------------------------------------------------------------------
  // No lost wake-up
  // ---------------------------------------------------------------------------

  /** An object whose lock is free and that still holds a signal has nobody queued. */
  lemma NoLostWakeup(s: State, o: nat)
    requires TidyReachable(s) && o < |s.objects| && s.objects[o].lock.Free? && s.objects[o].count > 0
    ensures s.objects[o].queue == []
    ensures forall t, i :: 0 <= t < |s.threads| && 0 <= i < |s.threads[t].targets| && s.threads[t].targets[i] == o ==>
                             !(s.threads[t].pc.Sleeping? && s.threads[t].status.Committed?)
  {
    ReachableInv(s);
    assert ObjectOk(s.objects[o]);
    assert Waiters(s.objects[o]) == [];
    forall t, i | 0 <= t < |s.threads| && 0 <= i < |s.threads[t].targets| && s.threads[t].targets[i] == o
      ensures !(s.threads[t].pc.Sleeping? && s.threads[t].status.Committed?)
    {
      assert ThreadOk(s.threads[t]);
      assert !Attached(s.threads, o, Block(t, i));
    }
  }

  /** A committed thread is linked to every object it waits for, so the next signal of any of them
      reaches it. */
  lemma SleeperIsLinked(s: State, t: nat, i: nat)
    requires TidyReachable(s) && t < |s.threads| && s.threads[t].status.Committed? && i < |s.threads[t].targets|
    ensures s.threads[t].targets[i] < |s.objects|
    ensures Block(t, i) in Waiters(s.objects[s.threads[t].targets[i]])
  {
    ReachableInv(s);
    assert ThreadOk(s.threads[t]) && TargetsOk(s, t);
    assert Attached(s.threads, s.threads[t].targets[i], Block(t, i));
  }

  // ---------------------------------------------------------------------------
  // Returning
  // ---------------------------------------------------------------------------

  lemma NoneHeld(s: State, t: nat)
    requires Inv(s) && t < |s.threads| && !Waiting(s.threads[t].pc)
    ensures forall o :: 0 <= o < |s.objects| ==> !Holds(s.objects[o], t)
  {
    forall o | 0 <= o < |s.objects| ensures !Holds(s.objects[o], t) {
      if Holds(s.objects[o], t) {
        HeldActive(s, t, o);
      }
    }
  }

  lemma NoneHeldByTimer(s: State, t: nat)
    requires Inv(s) && t < |s.threads| && !Waiting(s.threads[t].pc)
    ensures Waiters(s.objects[StackTimer(s, t)]) == []
  {
    NoneHeld(s, t);
    var w := Waiters(s.objects[StackTimer(s, t)]);
    assert w == [] || w[0] in w;
    StackTimerPrivate(s, t);
  }

  /** A thread that is not in a wait has no waitblock on any queue or in any signaller's hands,
      and its stack timer is stopped, unlocked and in no heap. */
  lemma CleanReturn(s: State, t: nat)
    requires TidyReachable(s) && t < |s.threads| && !Waiting(s.threads[t].pc)
    ensures forall o :: 0 <= o < |s.objects| ==> !Holds(s.objects[o], t)
    ensures var tm := s.users + t;
            && tm < |s.objects| && s.objects[tm].timer.Stopped? && !s.objects[tm].inHeap
            && s.objects[tm].lock.Free? && Waiters(s.objects[tm]) == []
  {
    ReachableInv(s);
    NoneHeld(s, t);
    NoneHeldByTimer(s, t);
    assert StackTimerOk(s, t) && ObjectOk(s.objects[StackTimer(s, t)]);
  }

  /** The value `wait_any` returns after it has published all its waitblocks: the index of the one
      object that satisfied it, or -1 exactly when that was the timer, which then is due. */
  lemma SweepReturns(s: State, t: nat)
    requires TidyReachable(s) && CanSweep(s, t) && s.threads[t].pc.next == |s.threads[t].targets|
    ensures var th, th' := s.threads[t], Sweep(s, t).threads[t];
            && !Waiting(th'.pc)
            && th.moves == 1 && 0 <= th.winner < |th.targets|
            && (th'.result == -1 <==> th.timeout.After? && th.winner == |th.targets| - 1)
            && (th'.result != -1 ==> th'.result == th.winner && th.targets[th.winner] < s.users)
            && (th'.result == -1 ==> s.users + t < |s.objects| && s.objects[s.users + t].deadline <= s.now)
  {
    ReachableInv(s);
    assert ThreadOk(s.threads[t]) && TargetsOk(s, t) && StackTimerOk(s, t);
  }

  /** The value it returns when it backs out early. A poll that a signaller satisfies between the probe
      and line 93 returns -1 although its signal was consumed. */
  lemma BackOutReturns(s: State, t: nat)
    requires TidyReachable(s) && CanBackOut(s, t) && s.threads[t].pc.next >= s.threads[t].satisfier
    ensures var th, th' := s.threads[t], BackOut(s, t).threads[t];
            && !Waiting(th'.pc) && th.moves == 1
            && (th'.result != -1 ==> 0 <= th'.result == th.winner < |th.targets| && th.targets[th.winner] < s.users)
            && (th'.result == -1 <==> th.timeout.Poll? && |th.blocks| == |th.targets|)
  {
    ReachableInv(s);
    assert ThreadOk(s.threads[t]) && TargetsOk(s, t);
  }

  // ---------------------------------------------------------------------------
  // Conservation
  // ---------------------------------------------------------------------------

  /** A semaphore accounts for its signals, and a signaller only works on a signaled object. */
  predicate BackedObject(ob: Object) {
    Conserved(ob) && (Trying(ob.lock) ==> ob.count > 0)
  }

  ghost predicate Backed(s: State) {
    forall o :: 0 <= o < |s.objects| ==> BackedObject(s.objects[o])
  }

  lemma StepBacked(s: State, e: Step)
    requires Backed(s) && Enabled(s, e)
    ensures Backed(Apply(s, e))
  {
    ObjectsStay(s, e);
    forall o | 0 <= o < |Apply(s, e).objects| ensures BackedObject(Apply(s, e).objects[o]) {
      if WaiterStep(e) {
        WaiterBacked(s, e, o);
      } else if e.FirstStep? || e.SecondStep? || e.ThirdStep? || e.StoreStep? || e.SkipStep? {
        TryBacked(s, e, o);
      } else {
        OtherBacked(s, e, o);
      }
    }
  }

  lemma ObjectsStay(s: State, e: Step)
    requires Enabled(s, e)
    ensures |Apply(s, e).objects| == |s.objects|
  {
  }

  lemma WaiterBacked(s: State, e: Step, o: nat)
    requires Enabled(s, e) && WaiterStep(e) && o < |s.objects| == |Apply(s, e).objects| && BackedObject(s.objects[o])
    ensures BackedObject(Apply(s, e).objects[o])
  {
  }

  lemma TryBacked(s: State, e: Step, o: nat)
    requires Enabled(s, e) && o < |s.objects| == |Apply(s, e).objects| && BackedObject(s.objects[o])
    requires e.FirstStep? || e.SecondStep? || e.ThirdStep? || e.StoreStep? || e.SkipStep?
    ensures BackedObject(Apply(s, e).objects[o])
  {
  }

  lemma OtherBacked(s: State, e: Step, o: nat)
    requires Enabled(s, e) && o < |s.objects| == |Apply(s, e).objects| && BackedObject(s.objects[o])
    requires !WaiterStep(e) && !e.FirstStep? && !e.SecondStep? && !e.ThirdStep? && !e.StoreStep? && !e.SkipStep?
    ensures BackedObject(Apply(s, e).objects[o])
  {
  }

  lemma {:induction false} RunBacked(s: State, es: seq<Step>)
    requires Backed(s) && IsRun(s, es)
    ensures Backed(Final(s, es))
    decreases |es|
  {
    if es != [] {
      StepBacked(s, es[0]);
      RunBacked(Apply(s, es[0]), es[1..]);
    }
  }

  /** A semaphore's signals are neither lost nor duplicated, and never negative, in every run. */
  lemma SemaphoreConserves(s: State, o: nat)
    requires Reachable(s) && o < |s.objects| && s.objects[o].kind.Semaphore?
    ensures s.objects[o].initial + s.objects[o].released == s.objects[o].count + s.objects[o].delivered
    ensures s.objects[o].initial >= 0 ==> s.objects[o].count >= 0
  {
    var s0: State, es: seq<Step> :| Initial(s0) && IsRun(s0, es) && Final(s0, es) == s;
    assert forall p :: 0 <= p < |s0.objects| ==> InitialObject(s0.objects[p]);
    RunBacked(s0, es);
  }

  /** The wait of `t` is satisfied by object `o` in this step. */
  predicate WonBy(s: State, s': State, t: nat, o: nat) {
    && t < |s.threads| == |s'.threads|
    && s'.threads[t].moves == s.threads[t].moves + 1
    && 0 <= s'.threads[t].winner < |s'.threads[t].targets|
    && s'.threads[t].targets[s'.threads[t].winner] == o
  }

  /** Object `o` paid for the wait it satisfied, or it satisfied none and kept its signals. */
  ghost predicate Accounted(s: State, s': State, o: nat, refilled: bool) {
    && o < |s.objects| == |s'.objects|
    && var a, b := s.objects[o], s'.objects[o];
    || (b.delivered == a.delivered + 1 && (exists t :: WonBy(s, s', t, o)) &&
        b.count == if a.kind.Timer? then a.count else a.count - 1)
    || (b.delivered == a.delivered && (forall t :: !WonBy(s, s', t, o)) && (refilled || b.count == a.count))
  }

  /** A signal is spent exactly by the wait it satisfies: no step lowers the count of an object
      that is not the winner of a wait in that step, so a wait that its timeout satisfies leaves the
      signals of all its other objects alone. */
  lemma SpentByWinner(s: State, e: Step, o: nat)
    requires TidyReachable(s) && Enabled(s, e) && o < s.users
    ensures Accounted(s, Apply(s, e), o, e == ReleaseStep(o) || e == ExpireStep(o) || (e.UnlockStep? && e.o == o))
  {
    ReachableInv(s);
    StepAccounted(s, e, o);
  }

  lemma StepAccounted(s: State, e: Step, o: nat)
    requires Inv(s) && Enabled(s, e) && o < s.users
    ensures Accounted(s, Apply(s, e), o, e == ReleaseStep(o) || e == ExpireStep(o) || (e.UnlockStep? && e.o == o))
  {
    match e
    case BeginStep(t, os, timeout, locking) => BeginAccounted(s, t, os, timeout, locking, o);
    case ProbeStep(t) => ProbeAccounted(s, t, o);
    case FirstStep(p) => FirstAccounted(s, p, o);
    case SecondStep(p) => SecondAccounted(s, p, o);
    case _ => OtherAccounted(s, e, o);
  }

  lemma FirstAccounted(s: State, p: nat, o: nat)
    requires Inv(s) && CanTry1(s, p) && o < s.users
    ensures Accounted(s, First(s, p), o, false)
  {
    if s.threads[s.objects[p].lock.block.thread].status.InProgress? {
      SwapAccounted(s, p, false, o);
    } else {
      RelockAccounted(s, p, Try2(s.objects[p].lock.block), o);
    }
  }

  lemma SecondAccounted(s: State, p: nat, o: nat)
    requires Inv(s) && CanTry2(s, p) && o < s.users
    ensures Accounted(s, Second(s, p), o, false)
  {
    if s.threads[s.objects[p].lock.block.thread].status.Committed? {
      SwapAccounted(s, p, true, o);
    } else {
      RelockAccounted(s, p, Try3(s.objects[p].lock.block), o);
    }
  }

  lemma RelockAccounted(s: State, p: nat, lock: Lock, o: nat)
    requires WellFormed(s) && p < |s.objects| && o < s.users
    ensures Accounted(s, WithObject(s, p, s.objects[p].(lock := lock)), o, false)
  {
    assert forall t :: !WonBy(s, WithObject(s, p, s.objects[p].(lock := lock)), t, o);
  }

  lemma OtherAccounted(s: State, e: Step, o: nat)
    requires Inv(s) && Enabled(s, e) && o < s.users
    requires !e.BeginStep? && !e.ProbeStep? && !e.FirstStep? && !e.SecondStep?
    ensures Accounted(s, Apply(s, e), o, e == ReleaseStep(o) || e == ExpireStep(o) || (e.UnlockStep? && e.o == o))
  {
    SameMoves(s, e);
    SameObject(s, e, o);
    assert forall t :: !WonBy(s, Apply(s, e), t, o);
  }

  lemma SameObject(s: State, e: Step, o: nat)
    requires Inv(s) && Enabled(s, e) && o < s.users
    requires !e.BeginStep? && !e.ProbeStep? && !e.FirstStep? && !e.SecondStep?
    ensures o < |s.objects| == |Apply(s, e).objects|
    ensures Apply(s, e).objects[o].delivered == s.objects[o].delivered
    ensures Apply(s, e).objects[o].count == s.objects[o].count || e == ReleaseStep(o) || e == ExpireStep(o) ||
            (e.UnlockStep? && e.o == o)
  {
  }

  lemma SameMoves(s: State, e: Step)
    requires Enabled(s, e)
    requires !e.BeginStep? && !e.ProbeStep? && !e.FirstStep? && !e.SecondStep?
    ensures |Apply(s, e).threads| == |s.threads|
    ensures forall t :: 0 <= t < |s.threads| ==> Apply(s, e).threads[t].moves == s.threads[t].moves
  {
  }

  lemma BeginAccounted(s: State, t: nat, os: seq<nat>, timeout: Timeout, locking: bool, o: nat)
    requires CanBegin(s, t, os, timeout, locking) && o < s.users
    ensures Accounted(s, Begin(s, t, os, timeout, locking), o, false)
  {
    assert forall u :: !WonBy(s, Begin(s, t, os, timeout, locking), u, o);
  }

  lemma ProbeAccounted(s: State, t: nat, o: nat)
    requires Inv(s) && CanProbe(s, t) && o < s.users
    ensures Accounted(s, Probe(s, t), o, false)
  {
    var th := s.threads[t];
    var s' := Probe(s, t);
    if s'.threads[t].moves != th.moves && th.targets[|th.blocks|] == o {
      assert WonBy(s, s', t, o);
    } else {
      assert forall u :: !WonBy(s, s', u, o);
    }
  }

  lemma SwapAccounted(s: State, p: nat, wake: bool, o: nat)
    requires Inv(s) && InFlight(s, p) && o < s.users
    ensures Accounted(s, Swap(s, p, wake), o, false)
  {
    InFlightAttached(s, p);
    var s' := Swap(s, p, wake);
    var t := s.objects[p].lock.block.thread;
    if o == p {
      assert WonBy(s, s', t, o);
    } else {
      assert forall u :: !WonBy(s, s', u, o);
    }
  }
}
