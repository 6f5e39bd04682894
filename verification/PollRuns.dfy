/** Runs of `wait_any` with timeout 0 that do not keep what `kernel/core/wait.h` promises. */
module PollRuns {
  import opened Common
  import opened WaitProtocol
  import opened WaitInvariant
  import opened WaitTheorems
  import opened WaitOne

  predicate Is(ob: Object, kind: Kind, count: int, queue: seq<Block>, lock: Lock) {
    ob.kind == kind && ob.count == count && ob.queue == queue && ob.lock == lock
  }

  /** One thread, `TwoSemaphores`, nothing halted. */
  predicate Small(s: State) {
    s.halt.Live? && s.now == 0 && s.users == 2 && |s.objects| == 3 && |s.threads| == 1
  }

  function Poller(status: WaitStatus, pc: Pc, blocks: seq<BlockStatus>, winner: int, pending: bool): Thread {
    Thread(status, pc, [0], Poll, false, blocks, -1, false, 0, winner, if winner < 0 then 0 else 1, false, 0, pending)
  }

  /** A poll of the empty semaphore 0 has published its waitblock. */
  lemma Published() returns (s: State)
    ensures TidyReachable(s) && Small(s)
    ensures s.threads[0] == Poller(InProgress, Checking, [Active], -1, false)
    ensures Is(s.objects[0], Semaphore, 0, [Block(0, 0)], Free) && s.objects[1] == Fresh(Semaphore, 0)
    ensures s.objects[2] == Fresh(Timer, 0)
  {
    s := Started([0], Poll);
    s := TakeTidyStep(s, ProbeStep(0));
    assert s.objects[0].queue == [Block(0, 0)] && s.threads[0].blocks == [Active];
    s := TakeTidyStep(s, ProbeStep(0));
  }

  /** A poll that finds nothing panics. */
  lemma PollPanics() returns (s: State)
    ensures TidyReachable(s) && s.halt.Panicked?
  {
    s := Published();
    s := TakeTidyStep(s, CheckStep(0));
  }

  lemma Popped() returns (s: State)
    ensures TidyReachable(s) && Small(s)
    ensures s.threads[0] == Poller(InProgress, Checking, [Active], -1, false)
    ensures Is(s.objects[0], Semaphore, 1, [], Try1(Block(0, 0))) && s.objects[1] == Fresh(Semaphore, 0)
    ensures s.objects[2] == Fresh(Timer, 0)
  {
    s := Published();
    s := TakeTidyStep(s, ReleaseStep(0));
    s := TakeTidyStep(s, DrainStep(0));
    assert s.objects[0].queue == [];
  }

  /** The semaphore is released and satisfies the poll before it looks at its status. */
  lemma Swapped() returns (s: State)
    ensures TidyReachable(s) && Small(s)
    ensures s.threads[0] == Poller(Satisfied, Checking, [Active], 0, true)
    ensures Is(s.objects[0], Semaphore, 0, [], Mark(Block(0, 0), false)) && s.objects[1] == Fresh(Semaphore, 0)
    ensures s.objects[2] == Fresh(Timer, 0)
  {
    s := Popped();
    s := TakeTidyStep(s, FirstStep(0));
  }

  /** The poll consumed the signal and yet returns -1, even if the signaller was done in time. */
  lemma LatePollReturns() returns (s: State)
    ensures TidyReachable(s) && Small(s)
    ensures s.threads[0].pc.Idle? && s.threads[0].result == -1 && s.threads[0].winner == 0
    ensures Is(s.objects[0], Semaphore, 0, [], Exit(Some(0)))
  {
    s := Swapped();
    s := TakeTidyStep(s, StoreStep(0));
    assert s.threads[0].blocks == [Signaled];
    s := TakeTidyStep(s, CheckStep(0));
    UntidyReturnsAt(s);
    s := TakeTidyStep(s, BackOutStep(0));
  }

  lemma UntidyReturnsAt(s: State)
    requires TidyReachable(s) && CanBackOut(s, 0) && s.threads[0].pc.next >= s.threads[0].satisfier
    requires forall i :: 0 <= i < |s.threads[0].blocks| ==> !s.threads[0].blocks[i].Active?
    ensures Tidy(s, BackOutStep(0))
  {
    ReachableInv(s);
    UntidyReturns(s, 0);
  }

  // ---------------------------------------------------------------------------
  // A poll that returns before the signaller has stored into its waitblock
  // ---------------------------------------------------------------------------

  function Waiter(status: WaitStatus, pc: Pc, blocks: seq<BlockStatus>): Thread {
    Thread(status, pc, [1, 2], After(1), false, blocks, -1, false, -1, -1, 0, status.Committed?, 0, false)
  }

  /** The poll returns while its signaller stands between lines 203 and 205. */
  lemma ReturnedEarly() returns (s: State)
    ensures Reachable(s) && Small(s) && s.threads[0].pc.Idle? && s.threads[0].result == -1
    ensures Is(s.objects[0], Semaphore, 0, [], Mark(Block(0, 0), false)) && s.objects[1] == Fresh(Semaphore, 0)
    ensures s.objects[2] == Fresh(Timer, 0)
  {
    s := Swapped();
    TidyIsReachable(s);
    s := TakeStep(s, CheckStep(0));
    s := TakeStep(s, BackOutStep(0));
  }

  /** The thread waits for semaphore 1 with a timeout and publishes the same waitblock. */
  lemma Republished() returns (s: State)
    ensures Reachable(s) && Small(s)
    ensures s.threads[0] == Waiter(InProgress, Probing, [Active])
    ensures Is(s.objects[0], Semaphore, 0, [], Mark(Block(0, 0), false))
    ensures Is(s.objects[1], Semaphore, 0, [Block(0, 0)], Free) && s.objects[2] == InitTimer()
  {
    s := ReturnedEarly();
    s := TakeStep(s, BeginStep(0, [1], After(1), false));
    assert s.threads[0].targets == [1, 2];
    s := TakeStep(s, ProbeStep(0));
    assert s.threads[0].blocks == [Active] && s.objects[1].queue == [Block(0, 0)];
  }

  /** It publishes the waitblock of the timer, arms it and sleeps; only then does the first signaller
      store into the waitblock that now belongs to this wait. */
  lemma StoredLate() returns (s: State)
    ensures Reachable(s) && Small(s)
    ensures s.threads[0] == Waiter(Committed, Sleeping, [Signaled, Active])
    ensures Is(s.objects[1], Semaphore, 0, [Block(0, 0)], Free) && Is(s.objects[2], Timer, 0, [Block(0, 1)], Free)
    ensures s.objects[2].timer.Pending? && s.objects[2].inHeap && s.objects[2].deadline == 1
  {
    s := Armed();
    s := TakeStep(s, CommitStep(0));
    s := TakeStep(s, StoreStep(0));
    assert s.threads[0].blocks == [Signaled, Active];
  }

  lemma Armed() returns (s: State)
    ensures Reachable(s) && Small(s)
    ensures s.threads[0] == Waiter(InProgress, Committing, [Active, Active])
    ensures Is(s.objects[0], Semaphore, 0, [], Mark(Block(0, 0), false))
    ensures Is(s.objects[1], Semaphore, 0, [Block(0, 0)], Free) && Is(s.objects[2], Timer, 0, [Block(0, 1)], Free)
    ensures s.objects[2].timer.Pending? && s.objects[2].inHeap && s.objects[2].deadline == 1
  {
    s := Republished();
    s := TakeStep(s, ProbeStep(0));
    assert s.threads[0].blocks == [Active, Active] && s.objects[2].queue == [Block(0, 1)];
    s := TakeStep(s, ProbeStep(0));
    s := TakeStep(s, ArmStep(0));
  }

  /** The timer expires and satisfies the wait. */
  lemma Expired() returns (s: State)
    ensures Reachable(s) && s.halt.Live? && s.users == 2 && |s.objects| == 3 && |s.threads| == 1
    ensures s.threads[0] == Waiter(Committed, Sleeping, [Signaled, Active])
    ensures Is(s.objects[1], Semaphore, 0, [Block(0, 0)], Free) && Is(s.objects[2], Timer, 1, [], Try2(Block(0, 1)))
  {
    s := StoredLate();
    s := TakeStep(s, TickStep);
    s := TakeStep(s, ExpireStep(2));
    s := TakeStep(s, DrainStep(2));
    assert s.objects[2].queue == [];
    s := TakeStep(s, FirstStep(2));
  }

  lemma TimedOut() returns (s: State)
    ensures Reachable(s) && s.halt.Live? && s.users == 2 && |s.objects| == 3 && |s.threads| == 1
    ensures var th := s.threads[0];
            && th.pc.Sleeping? && th.token && th.targets == [1, 2] && th.timeout == After(1)
            && th.blocks == [Signaled, Signaled] && th.satisfier == -1
    ensures Is(s.objects[1], Semaphore, 0, [Block(0, 0)], Free) && Is(s.objects[2], Timer, 1, [], Loop)
  {
    s := Expired();
    s := TakeStep(s, SecondStep(2));
    s := TakeStep(s, StoreStep(2));
    assert s.threads[0].blocks == [Signaled, Signaled];
  }

  /** The thread is awake and has found the first of its waitblocks SIGNALED. */
  lemma SweptOne() returns (s: State)
    ensures Reachable(s) && s.halt.Live? && s.users == 2 && |s.objects| == 3 && |s.threads| == 1
    ensures s.threads[0].pc == Sweeping(1) && s.threads[0].satisfier == 0
    ensures s.threads[0].targets == [1, 2] && s.threads[0].blocks == [Signaled, Signaled]
    ensures Is(s.objects[1], Semaphore, 0, [Block(0, 0)], Free) && s.objects[2].lock.Free?
  {
    s := Disarmed();
    s := TakeStep(s, SweepStep(0));
  }

  lemma Disarmed() returns (s: State)
    ensures Reachable(s) && s.halt.Live? && s.users == 2 && |s.objects| == 3 && |s.threads| == 1
    ensures s.threads[0].pc == Sweeping(0) && s.threads[0].satisfier == -1
    ensures s.threads[0].targets == [1, 2] && s.threads[0].blocks == [Signaled, Signaled]
    ensures Is(s.objects[1], Semaphore, 0, [Block(0, 0)], Free) && s.objects[2].lock.Free?
  {
    s := Woken();
    s := TakeStep(s, WakeStep(0));
    s := TakeStep(s, DisarmStep(0));
  }

  /** The final loop finds both waitblocks SIGNALED: "multiple satisfiers found". The waitblock is still
      on the queue of semaphore 1, which was never signaled. */
  lemma LatePollPanics() returns (s: State)
    ensures Reachable(s) && s.halt.Live? && CanSweep(s, 0) && Sweep(s, 0).halt.Panicked?
    ensures |s.objects| == 3 && Is(s.objects[1], Semaphore, 0, [Block(0, 0)], Free)
  {
    s := SweptOne();
  }

  lemma Woken() returns (s: State)
    ensures Reachable(s) && s.halt.Live? && s.users == 2 && |s.objects| == 3 && |s.threads| == 1
    ensures var th := s.threads[0];
            && th.pc.Sleeping? && th.token && th.targets == [1, 2] && th.timeout == After(1)
            && th.blocks == [Signaled, Signaled] && th.satisfier == -1
    ensures Is(s.objects[1], Semaphore, 0, [Block(0, 0)], Free) && Is(s.objects[2], Timer, 1, [], Free)
  {
    s := TimedOut();
    s := TakeStep(s, DrainStep(2));
    s := TakeStep(s, FinishStep(2));
  }

  // ---------------------------------------------------------------------------
  // A poll of two objects
  // ---------------------------------------------------------------------------

  function Poller2(status: WaitStatus, pc: Pc, blocks: seq<BlockStatus>, winner: int): Thread {
    Thread(status, pc, [0, 1], Poll, false, blocks, -1, false, 0, winner, if winner < 0 then 0 else 1, false, 0, false)
  }

  lemma PublishedOne() returns (s: State)
    ensures TidyReachable(s) && Small(s)
    ensures s.threads[0] == Poller2(InProgress, Probing, [Active], -1)
    ensures Is(s.objects[0], Semaphore, 0, [Block(0, 0)], Free) && Is(s.objects[1], Semaphore, 0, [], Free)
  {
    s := Started([0, 1], Poll);
    s := TakeTidyStep(s, ProbeStep(0));
    assert s.objects[0].queue == [Block(0, 0)] && s.threads[0].blocks == [Active];
  }

  lemma PublishedBoth() returns (s: State)
    ensures TidyReachable(s) && Small(s)
    ensures s.threads[0] == Poller2(InProgress, Checking, [Active, Active], -1)
    ensures Is(s.objects[0], Semaphore, 0, [Block(0, 0)], Free) && Is(s.objects[1], Semaphore, 0, [Block(0, 1)], Free)
  {
    s := PublishedOne();
    s := TakeTidyStep(s, ProbeStep(0));
    assert s.objects[1].queue == [Block(0, 1)] && s.threads[0].blocks == [Active, Active];
    s := TakeTidyStep(s, ProbeStep(0));
  }

  lemma PoppedOne() returns (s: State)
    ensures TidyReachable(s) && Small(s)
    ensures s.threads[0] == Poller2(InProgress, Checking, [Active, Active], -1)
    ensures Is(s.objects[0], Semaphore, 1, [], Try1(Block(0, 0))) && Is(s.objects[1], Semaphore, 0, [Block(0, 1)], Free)
  {
    s := PublishedBoth();
    s := TakeTidyStep(s, ReleaseStep(0));
    s := TakeTidyStep(s, DrainStep(0));
    assert s.objects[0].queue == [];
  }

  lemma SwappedOne() returns (s: State)
    ensures TidyReachable(s) && Small(s)
    ensures s.threads[0] == Poller2(Satisfied, Checking, [Active, Active], 0).(pending := true)
    ensures Is(s.objects[0], Semaphore, 0, [], Mark(Block(0, 0), false))
    ensures Is(s.objects[1], Semaphore, 0, [Block(0, 1)], Free)
  {
    s := PoppedOne();
    s := TakeTidyStep(s, FirstStep(0));
  }

  /** A two-object poll returns with its second waitblock still queued, although its signaller was
      done before it looked at its status. */
  lemma PollLeavesBlock() returns (s: State)
    ensures Reachable(s) && Small(s) && s.threads[0].pc.Idle? && s.threads[0].result == -1
    ensures Is(s.objects[1], Semaphore, 0, [Block(0, 1)], Free)
  {
    s := SwappedOne();
    TidyIsReachable(s);
    s := TakeStep(s, StoreStep(0));
    assert s.threads[0].blocks == [Signaled, Active];
    s := TakeStep(s, CheckStep(0));
    s := TakeStep(s, BackOutStep(0));
  }
}
