/** `wait_one`: waits on a single object, with or without a timeout. */
module WaitOne {
  import opened Common
  import opened WaitProtocol
  import opened WaitInvariant
  import opened WaitTheorems

  /** Only `wait_one` is called, and without a zero timeout unless `polls` allows it. */
  predicate OnlyWaitOne(e: Step, polls: bool) {
    e.BeginStep? ==> |e.os| <= 1 && (polls || !e.timeout.Poll?)
  }

  predicate SingleWait(th: Thread, polls: bool) {
    !th.pc.Idle? ==> |th.targets| <= (if th.timeout.After? then 2 else 1) && (polls || !th.timeout.Poll?)
  }

  ghost predicate SingleWaits(s: State, polls: bool) {
    && (forall t :: 0 <= t < |s.threads| ==> SingleWait(s.threads[t], polls))
    && (s.halt.Live? || (polls && s.halt.Panicked?))
  }

  lemma BeginSingle(s: State, e: Step, polls: bool)
    requires Enabled(s, e) && OnlyWaitOne(e, polls) && e.BeginStep?
    ensures |Apply(s, e).threads| == |s.threads| && SingleWait(Apply(s, e).threads[e.t], polls)
  {
  }

  lemma StepSingle(s: State, e: Step, polls: bool)
    requires SingleWaits(s, polls) && Enabled(s, e) && OnlyWaitOne(e, polls)
    ensures forall t :: 0 <= t < |Apply(s, e).threads| ==> SingleWait(Apply(s, e).threads[t], polls)
  {
    SameThreads(s, e);
    var s' := Apply(s, e);
    forall t | 0 <= t < |s'.threads| ensures SingleWait(s'.threads[t], polls) {
      if e.BeginStep? && e.t == t {
        BeginSingle(s, e, polls);
      } else {
        StepTargets(s, e, t);
        StaysSingle(s.threads[t], s'.threads[t], polls);
      }
    }
  }

  lemma SameThreads(s: State, e: Step)
    requires Enabled(s, e)
    ensures |Apply(s, e).threads| == |s.threads|
  {
  }

  lemma StaysSingle(a: Thread, b: Thread, polls: bool)
    requires SingleWait(a, polls) && SameTargets(a, b)
    ensures SingleWait(b, polls)
  {
  }

  /** The early satisfier of a single wait has index 0, so the removal loop is empty; the two other
      halts are unreachable in general. */
  lemma StepLive(s: State, e: Step, polls: bool)
    requires Inv(s) && SingleWaits(s, polls) && Enabled(s, e) && OnlyWaitOne(e, polls)
    ensures Apply(s, e).halt.Live? || (polls && Apply(s, e).halt.Panicked?)
  {
    match e
    case ProbeStep(t) => NotDangling(s, t);
    case CheckStep(t) => assert ThreadOk(s.threads[t]);
    case BackOutStep(t) => assert ThreadOk(s.threads[t]);
    case SweepStep(t) =>
      var th := s.threads[t];
      assert ThreadOk(th);
      if th.pc.next < |th.targets| && th.blocks[th.pc.next].Active? {
        SweepUnlinks(s, t);
      }
    case _ =>
  }

  lemma {:induction false} RunSingle(s: State, es: seq<Step>, polls: bool)
    requires Inv(s) && SingleWaits(s, polls) && IsRun(s, es) && TidyRun(s, es)
    requires forall i :: 0 <= i < |es| ==> OnlyWaitOne(es[i], polls)
    ensures SingleWaits(Final(s, es), polls)
    decreases |es|
  {
    if es != [] {
      StepKeeps(s, es[0]);
      StepSingle(s, es[0], polls);
      StepLive(s, es[0], polls);
      RunSingle(Apply(s, es[0]), es[1..], polls);
    }
  }

  /** A kernel that only calls `wait_one` and does not poll never panics and never corrupts a queue. */
  lemma WaitOneNeverHalts(s: State, es: seq<Step>)
    requires Initial(s) && IsRun(s, es)
    requires forall i :: 0 <= i < |es| ==> OnlyWaitOne(es[i], false)
    ensures Final(s, es).halt.Live?
  {
    InitialOk(s);
    assert forall t :: 0 <= t < |s.threads| ==> InitialThread(s.threads[t]);
    forall i | 0 <= i < |es| ensures NoPoll(es[i]) {
      assert OnlyWaitOne(es[i], false);
    }
    NoPollsTidy(s, es);
    RunSingle(s, es, false);
  }

  /** If it polls, and every poll returns tidily, it never corrupts a queue. */
  lemma TidyPollsNeverCorrupt(s: State, es: seq<Step>)
    requires Initial(s) && IsRun(s, es) && TidyRun(s, es)
    requires forall i :: 0 <= i < |es| ==> OnlyWaitOne(es[i], true)
    ensures !Final(s, es).halt.Corrupt?
  {
    InitialOk(s);
    assert forall t :: 0 <= t < |s.threads| ==> InitialThread(s.threads[t]);
    RunSingle(s, es, true);
  }

  // ---------------------------------------------------------------------------
  // The multi-object wait does not have this property
  // ---------------------------------------------------------------------------

  function Fresh(kind: Kind, count: int): Object {
    Object(kind, count, [], Free, None, Stopped, false, 0, count, 0, 0, [], [], {})
  }

  /** One thread, two empty semaphores. */
  function TwoSemaphores(): State {
    State([Thread(InProgress, Idle, [], Forever, false, [], -1, false, 0, -1, 0, false, 0, false)],
          [Fresh(Semaphore, 0), Fresh(Semaphore, 0), Fresh(Timer, 0)], 2, 0, Live)
  }

  /** Thread 0 enters `wait_any`. */
  lemma Started(os: seq<nat>, timeout: Timeout) returns (s: State)
    requires !timeout.After? && forall i :: 0 <= i < |os| ==> os[i] < 2
    ensures TidyReachable(s)
    ensures s == TwoSemaphores().(threads := [Thread(InProgress, Probing, os, timeout, false, [], -1, false, 0,
                                                     -1, 0, false, 0, false)])
  {
    s := TwoSemaphores();
    assert IsRun(s, []) && TidyRun(s, []) && Final(s, []) == s;
    s := TakeTidyStep(s, BeginStep(0, os, timeout, false));
  }

  /** Thread 0 has published on semaphore 0 and not yet probed semaphore 1. */
  lemma PublishedHalf() returns (s: State)
    ensures TidyReachable(s) && s.halt.Live? && s.users == 2 && |s.objects| == 3 && |s.threads| == 1
    ensures s.threads[0] == Thread(InProgress, Probing, [0, 1], Forever, false, [Active], -1, false, 0, -1, 0, false, 0, false)
    ensures s.objects[0] == Fresh(Semaphore, 0).(queue := [Block(0, 0)], arrivals := [0])
    ensures s.objects[1] == Fresh(Semaphore, 0)
  {
    s := Started([0, 1], Forever);
    s := TakeTidyStep(s, ProbeStep(0));
    assert s.objects[0].queue == [Block(0, 0)] && s.objects[0].arrivals == [0] && s.threads[0].blocks == [Active];
  }

  /** Semaphore 0 is released and its waitblock popped. */
  lemma PoppedFirst() returns (s: State)
    ensures TidyReachable(s) && s.halt.Live? && s.users == 2 && |s.objects| == 3 && |s.threads| == 1
    ensures s.threads[0] == Thread(InProgress, Probing, [0, 1], Forever, false, [Active], -1, false, 0, -1, 0, false, 0, false)
    ensures s.objects[0].kind.Semaphore? && s.objects[0].lock == Try1(Block(0, 0)) && s.objects[0].queue == []
    ensures s.objects[1] == Fresh(Semaphore, 0)
  {
    s := PublishedHalf();
    s := TakeTidyStep(s, ReleaseStep(0));
    s := TakeTidyStep(s, DrainStep(0));
  }

  /** Its signaller has satisfied the wait and not yet stored into the waitblock. */
  lemma MarkedFirst() returns (s: State)
    ensures TidyReachable(s) && s.halt.Live? && s.users == 2 && |s.objects| == 3 && |s.threads| == 1
    ensures s.threads[0] == Thread(Satisfied, Probing, [0, 1], Forever, false, [Active], -1, false, 0, 0, 1, false, 0, true)
    ensures s.objects[0].kind.Semaphore? && s.objects[0].lock == Mark(Block(0, 0), false) && s.objects[0].queue == []
    ensures s.objects[1] == Fresh(Semaphore, 0)
  {
    s := PoppedFirst();
    s := TakeTidyStep(s, FirstStep(0));
  }

  lemma StoredFirst() returns (s: State)
    ensures TidyReachable(s) && s.halt.Live? && s.users == 2 && |s.objects| == 3 && |s.threads| == 1
    ensures s.threads[0] == Thread(Satisfied, Probing, [0, 1], Forever, false, [Signaled], -1, false, 0, 0, 1, false, 0, false)
    ensures s.objects[0].kind.Semaphore? && s.objects[0].lock.Exit? && s.objects[0].queue == []
    ensures s.objects[1] == Fresh(Semaphore, 0)
  {
    s := MarkedFirst();
    s := TakeTidyStep(s, StoreStep(0));
    assert s.threads[0].blocks == [Signaled];
  }

  /** Semaphore 0 satisfies the wait. */
  lemma ReleasedFirst() returns (s: State)
    ensures TidyReachable(s) && s.halt.Live? && s.users == 2 && |s.objects| == 3 && |s.threads| == 1
    ensures s.threads[0] == Thread(Satisfied, Probing, [0, 1], Forever, false, [Signaled], -1, false, 0, 0, 1, false, 0, false)
    ensures s.objects[0].lock.Free? && s.objects[0].queue == []
    ensures s.objects[1] == Fresh(Semaphore, 0)
  {
    s := StoredFirst();
    s := TakeTidyStep(s, FinishStep(0));
  }

  /** Semaphore 1 is released as well and keeps its signal. */
  lemma ReleasedBoth() returns (s: State)
    ensures TidyReachable(s) && s.halt.Live? && s.users == 2 && |s.objects| == 3 && |s.threads| == 1
    ensures s.threads[0] == Thread(Satisfied, Probing, [0, 1], Forever, false, [Signaled], -1, false, 0, 0, 1, false, 0, false)
    ensures s.objects[0].lock.Free? && s.objects[0].queue == []
    ensures s.objects[1].lock.Free? && s.objects[1].count == 1
  {
    s := ReleasedFirst();
    s := TakeTidyStep(s, ReleaseStep(1));
    s := TakeTidyStep(s, DrainStep(1));
    s := TakeTidyStep(s, FinishStep(1));
  }

  /** The wait then finds semaphore 1 signaled, fails its swap and backs out from a waitblock that is
      already gone. */
  lemma WaitAnyCanCorrupt() returns (s: State)
    ensures TidyReachable(s) && s.halt.Corrupt?
    ensures forall t :: 0 <= t < |s.threads| ==> !s.threads[t].timeout.Poll?
  {
    s := ReleasedBoth();
    s := TakeTidyStep(s, ProbeStep(0));
    s := TakeTidyStep(s, CheckStep(0));
    s := TakeTidyStep(s, BackOutStep(0));
  }
}
