/** The invariant of the wait protocol and its preservation by every step. */
module WaitInvariant {
  import opened Common
  import opened WaitProtocol

  // ---------------------------------------------------------------------------
  // Waitblocks: what a thread believes is linked is what the objects have linked
  // ---------------------------------------------------------------------------

  predicate Waiting(pc: Pc) {
    !pc.Idle? && !pc.Owning?
  }

  /** How many waitblocks the thread has already taken back. */
  function Passed(pc: Pc): nat {
    match pc
    case BackingOut(next) => next
    case Sweeping(next) => next
    case _ => 0
  }

  predicate Attaches(th: Thread, i: nat) {
    && Waiting(th.pc) && Passed(th.pc) <= i < |th.blocks| && th.blocks[i].Active?
    && !(th.pending && th.winner == i)
  }

  predicate Attached(threads: seq<Thread>, o: nat, b: Block) {
    && b.thread < |threads|
    && Attaches(threads[b.thread], b.index)
    && b.index < |threads[b.thread].targets| && threads[b.thread].targets[b.index] == o
  }

  /** The queue of an object with the waitblock its signaller is working on put back in front. */
  function Waiters(ob: Object): seq<Block> {
    (if Trying(ob.lock) then [ob.lock.block] else []) + ob.queue
  }

  ghost predicate Linked(s: State) {
    forall o: nat, b: Block :: o < |s.objects| ==> (b in Waiters(s.objects[o]) <==> Attached(s.threads, o, b))
  }

  ghost predicate NoDuplicates(s: State) {
    forall o :: 0 <= o < |s.objects| ==> Distinct(Waiters(s.objects[o]))
  }

  // ---------------------------------------------------------------------------
  // Threads
  // ---------------------------------------------------------------------------

  /** The program counter decides how far the wait has come. */
  predicate PcOk(th: Thread) {
    match th.pc
    case Idle => true
    case Owning => th.locking && th.status.Satisfied?
    case Probing => th.satisfier == -1 && th.winner < |th.blocks| && !th.committed
    case Checking => EarlyOk(th)
    case BackingOut(next) => EarlyOk(th) && th.status.Satisfied? && next <= th.winner &&
                             (th.satisfier == -1 ==> next == 0)
    case Arming => PublishedOk(th) && th.satisfier == -1 && !th.committed && th.timeout.After?
    case Committing => PublishedOk(th) && th.satisfier == -1 && !th.committed
    case Sleeping => PublishedOk(th) && th.satisfier == -1 && th.committed && !th.status.InProgress? &&
                     (th.token <==> th.status.Satisfied? && !th.pending)
    case Disarming => PublishedOk(th) && th.satisfier == -1 && th.status.Satisfied? && th.timeout.After?
    case Sweeping(next) => PublishedOk(th) && th.status.Satisfied? && next <= |th.targets| &&
                           th.satisfier == if th.winner < next then th.winner else -1
  }

  /** The probe loop was left at `satisfier`, or a poll ran it to its end. */
  predicate EarlyOk(th: Thread) {
    && !th.committed
    && if th.satisfier == -1 then th.timeout.Poll? && |th.blocks| == |th.targets| && th.winner < |th.blocks|
       else
         && 0 <= th.satisfier == |th.blocks| < |th.targets| && th.satisfier != TimerIndex(th)
         && th.status.Satisfied? && th.winner <= th.satisfier
  }

  predicate PublishedOk(th: Thread) {
    |th.blocks| == |th.targets| && th.winner < |th.blocks| && !th.timeout.Poll?
  }

  /** The status word, the SIGNALED waitblock and the wake token tell the same story. */
  predicate StatusOk(th: Thread) {
    && -1 <= th.winner && (th.winner >= 0 <==> th.status.Satisfied?)
    && th.moves == (if th.status.Satisfied? then 1 else 0)
    && (th.status.Committed? ==> th.pc.Sleeping?)
    && (th.token ==> th.pc.Sleeping?)
    && th.wakes == (if th.committed && th.status.Satisfied? && !th.pending then 1 else 0)
    && (th.pending ==> Waiting(th.pc) && th.status.Satisfied? && Passed(th.pc) <= th.winner < |th.blocks|)
    && (th.pending && th.committed ==> th.pc.Sleeping?)
  }

  predicate BlocksOk(th: Thread) {
    && (Waiting(th.pc) ==> |th.blocks| <= |th.targets|)
    && (forall i :: Waiting(th.pc) && 0 <= i < |th.blocks| ==>
          (th.blocks[i].Signaled? <==> th.winner == i && !th.pending))
    && (th.pending && 0 <= th.winner < |th.blocks| ==> th.blocks[th.winner].Active?)
    && (forall i :: Waiting(th.pc) && !th.status.Satisfied? && 0 <= i < |th.blocks| ==> th.blocks[i].Active?)
  }

  predicate ThreadOk(th: Thread) {
    PcOk(th) && StatusOk(th) && BlocksOk(th)
  }

  predicate TargetsOk(s: State, t: nat)
    requires t < |s.threads|
  {
    var th := s.threads[t];
    !th.pc.Idle? ==>
      && (th.timeout.After? ==> |th.targets| > 0 && th.targets[|th.targets| - 1] == StackTimer(s, t))
      && (forall i :: 0 <= i < |th.targets| && i != TimerIndex(th) ==> th.targets[i] < s.users)
      && (th.locking ==> |th.targets| > 0 && (|th.targets| == 1 || th.timeout.After?))
  }

  // ---------------------------------------------------------------------------
  // Objects
  // ---------------------------------------------------------------------------

  /** No signal is left unused while a waitblock is queued and nobody is handing signals out. */
  predicate CountOk(ob: Object) {
    match ob.lock
    case Free => ob.count > 0 ==> ob.queue == []
    case Exit(_) => ob.count > 0 ==> ob.queue == []
    case Loop => ob.kind.Timer? || (ob.queue != [] ==> ob.count <= 1)
    case Mark(_, _) => if ob.kind.Timer? then ob.count > 0 else ob.count > 0 ==> ob.queue == []
    case _ => ob.count > 0 && (ob.kind.Timer? || (ob.queue != [] ==> ob.count <= 1))
  }

  predicate TimerOk(ob: Object) {
    && (ob.inHeap <==> ob.timer.Pending?)
    && (ob.kind.Timer? ==>
          && 0 <= ob.count <= 1
          && (ob.timer.Running? <==> !ob.lock.Free?)
          && (!ob.lock.Free? ==> ob.count == 1))
    && (!ob.kind.Timer? ==> ob.timer.Stopped?)
  }

  /** Every signal a semaphore was given is still there or satisfied one wait. */
  predicate Conserved(ob: Object) {
    ob.kind.Semaphore? ==>
      && ob.initial + ob.released == ob.count + ob.delivered
      && (ob.count >= 0 || ob.count >= ob.initial)
  }

  predicate ObjectOk(ob: Object) {
    CountOk(ob) && TimerOk(ob) && Conserved(ob)
  }

  /** What the signaller learned from a failed swap is still true. */
  predicate LearnedOk(s: State, o: nat)
    requires o < |s.objects|
  {
    match s.objects[o].lock
    case Try2(b) => b.thread < |s.threads| && !s.threads[b.thread].status.InProgress?
    case Try3(b) => b.thread < |s.threads| && s.threads[b.thread].status.Satisfied?
    case Skip(b) => b.thread < |s.threads| && s.threads[b.thread].status.Satisfied?
    case Mark(b, wake) =>
      && b.thread < |s.threads|
      && var th := s.threads[b.thread];
      && th.pending && th.winner == b.index && (wake <==> th.committed)
      && b.index < |th.targets| && th.targets[b.index] == o
    case _ => true
  }

  /** A signaller holds the lock of the object that satisfied a wait until it has stored into the
      waitblock. */
  predicate PendingOk(s: State, t: nat)
    requires t < |s.threads|
  {
    var th := s.threads[t];
    th.pending ==>
      && 0 <= th.winner < |th.targets| && th.targets[th.winner] < |s.objects|
      && var lock := s.objects[th.targets[th.winner]].lock;
      && lock.Mark? && lock.block == Block(t, th.winner)
  }

  /** Whether the stack timer of the thread may be armed. */
  predicate TimerInUse(th: Thread) {
    th.timeout.After? && (th.pc.Committing? || th.pc.Sleeping? || th.pc.Disarming?)
  }

  predicate StackTimerOk(s: State, t: nat)
    requires WellFormed(s) && t < |s.threads|
  {
    var th := s.threads[t];
    var ob := s.objects[StackTimer(s, t)];
    && ob.kind.Timer?
    && (!TimerInUse(th) ==> ob.timer.Stopped? && ob.lock.Free?)
    && (th.timeout.After? && (th.pc.Probing? || th.pc.Arming?) ==> ob.count == 0)
    && (ob.count > 0 ==> ob.deadline <= s.now)
    && (Waiting(th.pc) && th.timeout.After? && th.winner == TimerIndex(th) ==> ob.count > 0)
  }

  ghost predicate ThreadsOk(s: State) {
    forall t :: 0 <= t < |s.threads| ==> ThreadOk(s.threads[t])
  }

  ghost predicate AllTargetsOk(s: State) {
    forall t :: 0 <= t < |s.threads| ==> TargetsOk(s, t)
  }

  ghost predicate ObjectsOk(s: State) {
    forall o :: 0 <= o < |s.objects| ==> ObjectOk(s.objects[o])
  }

  ghost predicate AllLearnedOk(s: State) {
    forall o :: 0 <= o < |s.objects| ==> LearnedOk(s, o)
  }

  ghost predicate AllPendingOk(s: State) {
    forall t :: 0 <= t < |s.threads| ==> PendingOk(s, t)
  }

  ghost predicate StackTimersOk(s: State)
    requires WellFormed(s)
  {
    forall t :: 0 <= t < |s.threads| ==> StackTimerOk(s, t)
  }

  ghost predicate Inv(s: State) {
    && WellFormed(s)
    && ThreadsOk(s) && AllTargetsOk(s)
    && ObjectsOk(s) && AllLearnedOk(s) && AllPendingOk(s) && StackTimersOk(s)
    && Linked(s) && NoDuplicates(s)
  }

  // ---------------------------------------------------------------------------
  // Updates of the link structure
  // ---------------------------------------------------------------------------

  /** A thread moves on without touching what it has linked. */
  lemma KeepsLinksThread(s: State, t: nat, th: Thread)
    requires t < |s.threads| && Linked(s)
    requires th.targets == s.threads[t].targets
    requires forall i :: 0 <= i ==> Attaches(th, i) == Attaches(s.threads[t], i)
    ensures Linked(WithThread(s, t, th))
  {
    var s' := WithThread(s, t, th);
    forall o: nat, b: Block | o < |s.objects|
      ensures b in Waiters(s'.objects[o]) <==> Attached(s'.threads, o, b)
    {
      assert Attached(s'.threads, o, b) == Attached(s.threads, o, b);
    }
  }

  lemma KeepsLinksObject(s: State, o: nat, ob: Object)
    requires o < |s.objects| && Linked(s) && NoDuplicates(s)
    requires Waiters(ob) == Waiters(s.objects[o])
    ensures Linked(WithObject(s, o, ob)) && NoDuplicates(WithObject(s, o, ob))
  {
    var s' := WithObject(s, o, ob);
    forall p: nat, b: Block | p < |s.objects|
      ensures b in Waiters(s'.objects[p]) <==> Attached(s'.threads, p, b)
    {
      assert Waiters(s'.objects[p]) == Waiters(s.objects[p]);
    }
  }

  lemma KeepsLinksBoth(s: State, t: nat, th: Thread, o: nat, ob: Object)
    requires t < |s.threads| && o < |s.objects| && Linked(s) && NoDuplicates(s)
    requires th.targets == s.threads[t].targets && Waiters(ob) == Waiters(s.objects[o])
    requires forall i :: 0 <= i ==> Attaches(th, i) == Attaches(s.threads[t], i)
    ensures Linked(With(s, t, th, o, ob)) && NoDuplicates(With(s, t, th, o, ob))
  {
    KeepsLinksThread(s, t, th);
    KeepsLinksObject(WithThread(s, t, th), o, ob);
    assert WithObject(WithThread(s, t, th), o, ob) == With(s, t, th, o, ob);
  }

  /** Thread and object agree that one waitblock is no longer linked. */
  lemma Unlinks(s: State, t: nat, th: Thread, o: nat, ob: Object, i: nat)
    requires t < |s.threads| && o < |s.objects| && Linked(s) && NoDuplicates(s)
    requires th.targets == s.threads[t].targets
    requires i < |th.targets| && th.targets[i] == o
    requires forall j :: 0 <= j ==> Attaches(th, j) == (Attaches(s.threads[t], j) && j != i)
    requires Waiters(ob) == Remove(Waiters(s.objects[o]), Block(t, i))
    ensures Linked(With(s, t, th, o, ob)) && NoDuplicates(With(s, t, th, o, ob))
  {
    var s' := With(s, t, th, o, ob);
    RemoveDistinct(Waiters(s.objects[o]), Block(t, i));
    forall p: nat, b: Block | p < |s.objects|
      ensures b in Waiters(s'.objects[p]) <==> Attached(s'.threads, p, b)
    {
      assert Attached(s'.threads, p, b) == (Attached(s.threads, p, b) && b != Block(t, i));
    }
  }

  /** Thread and object agree on one more linked waitblock. */
  lemma Links(s: State, t: nat, th: Thread, o: nat, ob: Object, i: nat)
    requires t < |s.threads| && o < |s.objects| && Linked(s) && NoDuplicates(s)
    requires th.targets == s.threads[t].targets
    requires i < |th.targets| && th.targets[i] == o
    requires !Attaches(s.threads[t], i)
    requires forall j :: 0 <= j ==> Attaches(th, j) == (Attaches(s.threads[t], j) || j == i)
    requires Waiters(ob) == Waiters(s.objects[o]) + [Block(t, i)]
    ensures Linked(With(s, t, th, o, ob)) && NoDuplicates(With(s, t, th, o, ob))
  {
    var s' := With(s, t, th, o, ob);
    assert Block(t, i) !in Waiters(s.objects[o]) by { assert !Attached(s.threads, o, Block(t, i)); }
    forall p: nat, b: Block | p < |s.objects|
      ensures b in Waiters(s'.objects[p]) <==> Attached(s'.threads, p, b)
    {
      assert Attached(s'.threads, p, b) == (Attached(s.threads, p, b) || (b == Block(t, i) && p == o));
    }
  }

  // ---------------------------------------------------------------------------
  // Updates of the whole state
  // ---------------------------------------------------------------------------

  /** The status word only moves forward while the wait lasts. */
  predicate Forward(a: WaitStatus, b: WaitStatus) {
    (!a.InProgress? ==> !b.InProgress?) && (a.Satisfied? ==> b.Satisfied?)
  }

  /** `th'` is a later state of the same wait. */
  predicate SameWait(th: Thread, th': Thread) {
    && th'.targets == th.targets && th'.timeout == th.timeout && th'.locking == th.locking
    && !th.pc.Idle? && Forward(th.status, th'.status)
  }

  predicate KeepsPending(th: Thread, th': Thread) {
    th'.pending == th.pending && (th.pending ==> th'.winner == th.winner && th'.committed == th.committed)
  }

  /** The signaller of the object is about to store into a waitblock of `t`. */
  predicate Marks(ob: Object, t: nat) {
    ob.lock.Mark? && ob.lock.block.thread == t
  }

  lemma UpdateBoth(s: State, t: nat, th: Thread, o: nat, ob: Object)
    requires Inv(s) && t < |s.threads| && o < |s.objects|
    requires SameWait(s.threads[t], th) && ThreadOk(th) && ObjectOk(ob)
    requires ob.kind == s.objects[o].kind
    requires Linked(With(s, t, th, o, ob)) && NoDuplicates(With(s, t, th, o, ob))
    requires LearnedOk(With(s, t, th, o, ob), o) && PendingOk(With(s, t, th, o, ob), t)
    requires s.threads[t].pending && !Marks(s.objects[o], t) ==> KeepsPending(s.threads[t], th)
    requires s.objects[o].lock.Mark? && !Marks(s.objects[o], t) ==> ob.lock == s.objects[o].lock
    requires StackTimerOk(With(s, t, th, o, ob), t)
    requires o >= s.users ==> StackTimerOk(With(s, t, th, o, ob), o - s.users)
    ensures Inv(With(s, t, th, o, ob))
  {
    var s' := With(s, t, th, o, ob);
    forall u | 0 <= u < |s'.threads| ensures TargetsOk(s', u) {
      assert TargetsOk(s, u);
    }
    UpdateLearned(s, t, th, o, ob);
    forall u | 0 <= u < |s'.threads| ensures StackTimerOk(s', u) {
      assert StackTimerOk(s, u);
    }
  }

  lemma UpdateLearned(s: State, t: nat, th: Thread, o: nat, ob: Object)
    requires AllLearnedOk(s) && AllPendingOk(s) && t < |s.threads| && o < |s.objects|
    requires SameWait(s.threads[t], th)
    requires LearnedOk(With(s, t, th, o, ob), o) && PendingOk(With(s, t, th, o, ob), t)
    requires s.threads[t].pending && !Marks(s.objects[o], t) ==> KeepsPending(s.threads[t], th)
    requires s.objects[o].lock.Mark? && !Marks(s.objects[o], t) ==> ob.lock == s.objects[o].lock
    ensures AllLearnedOk(With(s, t, th, o, ob)) && AllPendingOk(With(s, t, th, o, ob))
  {
    var s' := With(s, t, th, o, ob);
    forall p | 0 <= p < |s'.objects| ensures LearnedOk(s', p) {
      assert LearnedOk(s, p) && LearnedOk(s, o);
    }
    forall u | 0 <= u < |s'.threads| ensures PendingOk(s', u) {
      assert PendingOk(s, u);
    }
  }

  lemma UpdateThread(s: State, t: nat, th: Thread)
    requires Inv(s) && t < |s.threads|
    requires SameWait(s.threads[t], th) && ThreadOk(th) && KeepsPending(s.threads[t], th)
    requires forall i :: 0 <= i ==> Attaches(th, i) == Attaches(s.threads[t], i)
    requires StackTimerOk(WithThread(s, t, th), t)
    ensures Inv(WithThread(s, t, th))
  {
    KeepsLinksThread(s, t, th);
    var o := StackTimer(s, t);
    assert With(s, t, th, o, s.objects[o]) == WithThread(s, t, th);
    assert LearnedOk(s, o) && PendingOk(s, t);
    UpdateBoth(s, t, th, o, s.objects[o]);
  }

  lemma UpdateObject(s: State, o: nat, ob: Object)
    requires Inv(s) && o < |s.objects|
    requires ObjectOk(ob) && ob.kind == s.objects[o].kind
    requires Waiters(ob) == Waiters(s.objects[o]) && !s.objects[o].lock.Mark?
    requires LearnedOk(WithObject(s, o, ob), o)
    requires o >= s.users ==> StackTimerOk(WithObject(s, o, ob), o - s.users)
    ensures Inv(WithObject(s, o, ob))
  {
    var s' := WithObject(s, o, ob);
    KeepsLinksObject(s, o, ob);
    forall u | 0 <= u < |s'.threads| ensures TargetsOk(s', u) && PendingOk(s', u) {
      assert TargetsOk(s, u) && PendingOk(s, u);
    }
    forall p | 0 <= p < |s'.objects| ensures LearnedOk(s', p) {
      assert LearnedOk(s, p);
    }
    forall u | 0 <= u < |s'.threads| ensures StackTimerOk(s', u) {
      assert StackTimerOk(s, u);
    }
  }

  // ---------------------------------------------------------------------------
  // Steps of a waiter
  // ---------------------------------------------------------------------------

  lemma BeginKeeps(s: State, t: nat, os: seq<nat>, timeout: Timeout, locking: bool)
    requires Inv(s) && CanBegin(s, t, os, timeout, locking)
    ensures Inv(Begin(s, t, os, timeout, locking))
  {
    assert ThreadOk(Begin(s, t, os, timeout, locking).threads[t]);
    BeginLinks(s, t, os, timeout, locking);
    BeginLearned(s, t, os, timeout, locking);
    BeginTargets(s, t, os, timeout, locking);
    BeginTimers(s, t, os, timeout, locking);
  }

  lemma BeginTargets(s: State, t: nat, os: seq<nat>, timeout: Timeout, locking: bool)
    requires Inv(s) && CanBegin(s, t, os, timeout, locking)
    ensures AllTargetsOk(Begin(s, t, os, timeout, locking))
  {
    var s' := Begin(s, t, os, timeout, locking);
    forall u | 0 <= u < |s'.threads| ensures TargetsOk(s', u) {
      assert TargetsOk(s, u);
    }
  }

  lemma BeginTimers(s: State, t: nat, os: seq<nat>, timeout: Timeout, locking: bool)
    requires Inv(s) && CanBegin(s, t, os, timeout, locking)
    ensures StackTimersOk(Begin(s, t, os, timeout, locking))
  {
    var s' := Begin(s, t, os, timeout, locking);
    forall u | 0 <= u < |s'.threads| ensures StackTimerOk(s', u) {
      assert StackTimerOk(s, u);
    }
  }

  lemma BeginLearned(s: State, t: nat, os: seq<nat>, timeout: Timeout, locking: bool)
    requires Inv(s) && CanBegin(s, t, os, timeout, locking)
    ensures AllLearnedOk(Begin(s, t, os, timeout, locking)) && AllPendingOk(Begin(s, t, os, timeout, locking))
  {
    var s' := Begin(s, t, os, timeout, locking);
    assert ThreadOk(s.threads[t]) && StackTimerOk(s, t);
    forall p | 0 <= p < |s'.objects| ensures LearnedOk(s', p) {
      assert LearnedOk(s, p);
      if Trying(s.objects[p].lock) {
        assert s.objects[p].lock.block in Waiters(s.objects[p]);
      }
    }
    forall u | 0 <= u < |s'.threads| ensures PendingOk(s', u) {
      assert PendingOk(s, u);
    }
  }

  /** Nobody but its own thread ever waits on a stack timer. */
  lemma StackTimerPrivate(s: State, t: nat)
    requires Inv(s) && t < |s.threads|
    ensures forall b :: b in Waiters(s.objects[StackTimer(s, t)]) ==> b.thread == t && Waiting(s.threads[t].pc)
  {
    forall b | b in Waiters(s.objects[StackTimer(s, t)]) ensures b.thread == t && Waiting(s.threads[t].pc) {
      assert Attached(s.threads, StackTimer(s, t), b) && TargetsOk(s, b.thread);
    }
  }

  lemma BeginLinks(s: State, t: nat, os: seq<nat>, timeout: Timeout, locking: bool)
    requires Inv(s) && CanBegin(s, t, os, timeout, locking)
    ensures Linked(Begin(s, t, os, timeout, locking)) && NoDuplicates(Begin(s, t, os, timeout, locking))
  {
    var s' := Begin(s, t, os, timeout, locking);
    var tm := StackTimer(s, t);
    assert StackTimerOk(s, t);
    assert s.objects[tm].queue == [] by {
      assert s.objects[tm].queue == [] || s.objects[tm].queue[0] in Waiters(s.objects[tm]);
      StackTimerPrivate(s, t);
    }
    forall p: nat, b: Block | p < |s'.objects|
      ensures b in Waiters(s'.objects[p]) <==> Attached(s'.threads, p, b)
    {
      assert Waiters(s'.objects[p]) == Waiters(s.objects[p]);
      assert Attached(s'.threads, p, b) == Attached(s.threads, p, b);
    }
    forall p | 0 <= p < |s'.objects| ensures Distinct(Waiters(s'.objects[p])) {
      assert Waiters(s'.objects[p]) == Waiters(s.objects[p]);
    }
  }

  lemma ProbeKeeps(s: State, t: nat)
    requires Inv(s) && CanProbe(s, t)
    ensures Inv(Probe(s, t))
  {
    var th := s.threads[t];
    var i := |th.blocks|;
    assert ThreadOk(th) && TargetsOk(s, t) && StackTimerOk(s, t);
    if i == |th.targets| {
      UpdateThread(s, t, Probe(s, t).threads[t]);
    } else {
      var o := th.targets[i];
      var ob := s.objects[o];
      assert ObjectOk(ob);
      if ob.count > 0 && th.status.InProgress? {
        ProbeTakes(s, t);
      } else if ob.count > 0 {
        UpdateThread(s, t, Probe(s, t).threads[t]);
      } else {
        NotDangling(s, t);
        ProbePublishes(s, t);
      }
    }
  }

  /** A waitblock about to be published is on no queue. */
  lemma NotDangling(s: State, t: nat)
    requires Inv(s) && t < |s.threads|
    ensures !Dangling(s, t, |s.threads[t].blocks|)
  {
    var i := |s.threads[t].blocks|;
    forall o | 0 <= o < |s.objects| && o < s.users ensures Block(t, i) !in s.objects[o].queue {
      assert !Attached(s.threads, o, Block(t, i));
      assert Block(t, i) !in Waiters(s.objects[o]);
    }
  }

  lemma ProbeTakes(s: State, t: nat)
    requires Inv(s) && CanProbe(s, t) && |s.threads[t].blocks| < |s.threads[t].targets|
    requires s.objects[s.threads[t].targets[|s.threads[t].blocks|]].count > 0
    requires s.threads[t].status.InProgress?
    ensures Inv(Probe(s, t))
  {
    var th := s.threads[t];
    var o := th.targets[|th.blocks|];
    var th' := Probe(s, t).threads[t];
    var ob' := Deliver(Consume(s.objects[o]), t);
    assert ThreadOk(th) && TargetsOk(s, t) && StackTimerOk(s, t) && ObjectOk(s.objects[o]);
    KeepsLinksBoth(s, t, th', o, ob');
    assert o < s.users;
    UpdateBoth(s, t, th', o, ob');
  }

  lemma ProbePublishes(s: State, t: nat)
    requires Inv(s) && CanProbe(s, t) && |s.threads[t].blocks| < |s.threads[t].targets|
    requires s.objects[s.threads[t].targets[|s.threads[t].blocks|]].count <= 0
    requires !Dangling(s, t, |s.threads[t].blocks|)
    ensures Inv(Probe(s, t))
  {
    var th := s.threads[t];
    var i := |th.blocks|;
    var o := th.targets[i];
    var th' := th.(blocks := th.blocks + [Active]);
    var ob := s.objects[o];
    var ob' := ob.(queue := ob.queue + [Block(t, i)], arrivals := ob.arrivals + [t]);
    assert ThreadOk(th) && TargetsOk(s, t) && StackTimerOk(s, t) && ObjectOk(ob);
    assert PendingOk(s, t);
    Links(s, t, th', o, ob', i);
    assert o >= s.users ==> o == StackTimer(s, t);
    UpdateBoth(s, t, th', o, ob');
  }

  lemma CheckKeeps(s: State, t: nat)
    requires Inv(s) && CanCheck(s, t)
    ensures Inv(Check(s, t))
  {
    assert ThreadOk(s.threads[t]) && StackTimerOk(s, t);
    if s.threads[t].status.Satisfied? {
      UpdateThread(s, t, s.threads[t].(pc := BackingOut(0)));
    } else {
      HaltKeeps(s, Panicked);
    }
  }

  lemma HaltKeeps(s: State, h: Halt)
    requires Inv(s)
    ensures Inv(s.(halt := h))
  {
    var s' := s.(halt := h);
    forall u | 0 <= u < |s'.threads| ensures TargetsOk(s', u) && PendingOk(s', u) {
      assert TargetsOk(s, u) && PendingOk(s, u);
    }
    forall p | 0 <= p < |s'.objects| ensures LearnedOk(s', p) {
      assert LearnedOk(s, p);
    }
    forall u | 0 <= u < |s'.threads| ensures StackTimerOk(s', u) {
      assert StackTimerOk(s, u);
    }
  }

  /** The object has a waitblock of `t` on its queue or in its signaller's hands. */
  predicate Holds(ob: Object, t: nat) {
    (exists b :: b in Waiters(ob) && b.thread == t) || Marks(ob, t)
  }

  /** The step is not the return of a wait that leaves a waitblock behind. Only a poll can do that:
      it does not take its waitblocks back. */
  ghost predicate Tidy(s: State, e: Step) {
    e.BackOutStep? && e.t < |s.threads| && s.threads[e.t].pc.BackingOut? &&
    s.threads[e.t].pc.next >= s.threads[e.t].satisfier ==>
      forall o :: 0 <= o < |s.objects| ==> !Holds(s.objects[o], e.t)
  }

  lemma AttachedHolds(s: State, t: nat, i: nat)
    requires Inv(s) && t < |s.threads| && Attaches(s.threads[t], i)
    ensures i < |s.threads[t].targets| && s.threads[t].targets[i] < |s.objects|
    ensures Holds(s.objects[s.threads[t].targets[i]], t)
  {
    var th := s.threads[t];
    assert ThreadOk(th) && TargetsOk(s, t);
    assert Attached(s.threads, th.targets[i], Block(t, i));
    assert Block(t, i) in Waiters(s.objects[th.targets[i]]);
  }

  lemma TidyThread(s: State, t: nat)
    requires Inv(s) && t < |s.threads| && forall o :: 0 <= o < |s.objects| ==> !Holds(s.objects[o], t)
    ensures !s.threads[t].pending && forall i: nat :: !Attaches(s.threads[t], i)
  {
    assert PendingOk(s, t);
    forall i: nat ensures !Attaches(s.threads[t], i) {
      if Attaches(s.threads[t], i) {
        AttachedHolds(s, t, i);
      }
    }
  }

  lemma BackOutKeeps(s: State, t: nat)
    requires Inv(s) && CanBackOut(s, t) && Tidy(s, BackOutStep(t))
    ensures Inv(BackOut(s, t))
  {
    var th := s.threads[t];
    if th.pc.next >= th.satisfier {
      BackOutReturnKeeps(s, t);
    } else if Block(t, th.pc.next) in s.objects[th.targets[th.pc.next]].queue {
      BackOutUnlinkKeeps(s, t);
    } else {
      HaltKeeps(s, Corrupt);
    }
  }

  lemma BackOutReturnKeeps(s: State, t: nat)
    requires Inv(s) && CanBackOut(s, t) && Tidy(s, BackOutStep(t)) && s.threads[t].pc.next >= s.threads[t].satisfier
    ensures Inv(BackOut(s, t))
  {
    var th := s.threads[t];
    assert ThreadOk(th) && TargetsOk(s, t) && StackTimerOk(s, t);
    TidyThread(s, t);
    UpdateThread(s, t, Return(th, th.satisfier));
  }

  lemma BackOutUnlinkKeeps(s: State, t: nat)
    requires Inv(s) && CanBackOut(s, t) && s.threads[t].pc.next < s.threads[t].satisfier
    requires Block(t, s.threads[t].pc.next) in s.objects[s.threads[t].targets[s.threads[t].pc.next]].queue
    ensures Inv(BackOut(s, t))
  {
    var th := s.threads[t];
    var i := th.pc.next;
    var ob := s.objects[th.targets[i]];
    assert ThreadOk(th) && PendingOk(s, t) && ObjectOk(ob);
    assert Block(t, i) in Waiters(ob);
    assert Attached(s.threads, th.targets[i], Block(t, i));
    UnlinkKeeps(s, t, th.(blocks := th.blocks[i := Inactive], pc := BackingOut(i + 1)), i);
  }

  /** A thread takes one waitblock back from a queue whose lock it holds. */
  lemma UnlinkKeeps(s: State, t: nat, th: Thread, i: nat)
    requires Inv(s) && t < |s.threads| && i < |s.threads[t].targets| && s.threads[t].targets[i] < |s.objects|
    requires var ob := s.objects[s.threads[t].targets[i]]; ob.lock.Free? && Block(t, i) in ob.queue
    requires SameWait(s.threads[t], th) && ThreadOk(th) && KeepsPending(s.threads[t], th)
    requires !TimerInUse(s.threads[t]) && !th.pc.Probing? && !th.pc.Arming? && th.winner == s.threads[t].winner
    requires Waiting(s.threads[t].pc)
    requires forall j :: 0 <= j ==> Attaches(th, j) == (Attaches(s.threads[t], j) && j != i)
    ensures var o := s.threads[t].targets[i];
            Inv(With(s, t, th, o, s.objects[o].(queue := Remove(s.objects[o].queue, Block(t, i)))))
  {
    var o := th.targets[i];
    var ob := s.objects[o];
    var ob' := ob.(queue := Remove(ob.queue, Block(t, i)));
    UnlinkedQueue(s, t, th, i);
    assert StackTimerOk(s, t) && PendingOk(s, t);
    if o >= s.users {
      assert StackTimerOk(s, o - s.users);
    }
    UpdateBoth(s, t, th, o, ob');
  }

  lemma UnlinkedQueue(s: State, t: nat, th: Thread, i: nat)
    requires Inv(s) && t < |s.threads| && i < |s.threads[t].targets| && s.threads[t].targets[i] < |s.objects|
    requires s.objects[s.threads[t].targets[i]].lock.Free?
    requires th.targets == s.threads[t].targets
    requires forall j :: 0 <= j ==> Attaches(th, j) == (Attaches(s.threads[t], j) && j != i)
    ensures var o := s.threads[t].targets[i];
            var ob := s.objects[o].(queue := Remove(s.objects[o].queue, Block(t, i)));
            ObjectOk(ob) && Linked(With(s, t, th, o, ob)) && NoDuplicates(With(s, t, th, o, ob))
  {
    var o := th.targets[i];
    var ob := s.objects[o];
    var ob' := ob.(queue := Remove(ob.queue, Block(t, i)));
    assert ObjectOk(ob);
    assert Waiters(ob) == ob.queue && Waiters(ob') == ob'.queue;
    Unlinks(s, t, th, o, ob', i);
  }

  lemma ArmKeeps(s: State, t: nat)
    requires Inv(s) && CanArm(s, t)
    ensures Inv(Arm(s, t))
  {
    var th := s.threads[t];
    var o := StackTimer(s, t);
    var ob := s.objects[o];
    assert ThreadOk(th) && TargetsOk(s, t) && StackTimerOk(s, t) && ObjectOk(ob);
    var th' := th.(pc := Committing);
    var ob' := StartTimer(ob, s.now + th.timeout.ns);
    assert PendingOk(s, t);
    KeepsLinksBoth(s, t, th', o, ob');
    UpdateBoth(s, t, th', o, ob');
  }

  lemma CommitKeeps(s: State, t: nat)
    requires Inv(s) && CanCommit(s, t)
    ensures Inv(Commit(s, t))
  {
    assert ThreadOk(s.threads[t]) && StackTimerOk(s, t) && TargetsOk(s, t);
    UpdateThread(s, t, Commit(s, t).threads[t]);
  }

  lemma WakeKeeps(s: State, t: nat)
    requires Inv(s) && CanWake(s, t)
    ensures Inv(Wake(s, t))
  {
    assert ThreadOk(s.threads[t]) && StackTimerOk(s, t) && TargetsOk(s, t);
    UpdateThread(s, t, Wake(s, t).threads[t]);
  }

  lemma DisarmKeeps(s: State, t: nat)
    requires Inv(s) && CanDisarm(s, t)
    ensures Inv(Disarm(s, t))
  {
    var th := s.threads[t];
    var o := StackTimer(s, t);
    var ob := s.objects[o];
    assert ThreadOk(th) && TargetsOk(s, t) && StackTimerOk(s, t) && ObjectOk(ob);
    var th' := th.(pc := Sweeping(0));
    var ob' := StopTimer(ob);
    assert PendingOk(s, t);
    KeepsLinksBoth(s, t, th', o, ob');
    UpdateBoth(s, t, th', o, ob');
  }

  lemma SweepKeeps(s: State, t: nat)
    requires Inv(s) && CanSweep(s, t)
    ensures Inv(Sweep(s, t))
  {
    var th := s.threads[t];
    if th.pc.next < |th.targets| && th.blocks[th.pc.next].Active? {
      SweepUnlinks(s, t);
    } else {
      SweepPasses(s, t);
    }
  }

  /** The thread after an iteration that has nothing to unlink. */
  function Swept(th: Thread): Thread
    requires th.pc.Sweeping? && (th.pc.next < |th.targets| ==> th.pc.next < |th.blocks|)
  {
    var i := th.pc.next;
    if i >= |th.targets| then Return(th, if th.satisfier == TimerIndex(th) then -1 else th.satisfier)
    else if th.blocks[i].Signaled? then th.(pc := Sweeping(i + 1), satisfier := i)
    else th.(pc := Sweeping(i + 1))
  }

  predicate Passes(th: Thread) {
    && ThreadOk(th) && th.pc.Sweeping?
    && (th.pc.next < |th.targets| ==> !th.blocks[th.pc.next].Active? && !(th.pending && th.winner == th.pc.next))
    && (th.locking ==> |th.targets| > 0)
  }

  lemma SweptOk(th: Thread)
    requires Passes(th)
    ensures ThreadOk(Swept(th)) && SameWait(th, Swept(th)) && KeepsPending(th, Swept(th))
    ensures Swept(th).winner == th.winner
  {
  }

  lemma SweptLinks(th: Thread)
    requires Passes(th)
    ensures forall i :: 0 <= i ==> Attaches(Swept(th), i) == Attaches(th, i)
  {
  }

  lemma SweepPasses(s: State, t: nat)
    requires Inv(s) && CanSweep(s, t)
    requires var th := s.threads[t]; th.pc.next < |th.targets| ==> !th.blocks[th.pc.next].Active?
    ensures Sweep(s, t) == WithThread(s, t, Swept(s.threads[t])) && Inv(Sweep(s, t))
  {
    var th := s.threads[t];
    assert ThreadOk(th) && PendingOk(s, t) && TargetsOk(s, t) && StackTimerOk(s, t);
    SweptOk(th);
    SweptLinks(th);
    UpdateThread(s, t, Swept(th));
  }

  /** A waitblock that is still active is on its queue once the lock is held. */
  lemma SweepUnlinks(s: State, t: nat)
    requires Inv(s) && CanSweep(s, t) && s.threads[t].pc.next < |s.threads[t].targets|
    requires s.threads[t].blocks[s.threads[t].pc.next].Active?
    ensures Block(t, s.threads[t].pc.next) in s.objects[s.threads[t].targets[s.threads[t].pc.next]].queue
    ensures Inv(Sweep(s, t))
  {
    var th := s.threads[t];
    var i := th.pc.next;
    var o := th.targets[i];
    var ob := s.objects[o];
    assert ThreadOk(th) && TargetsOk(s, t) && StackTimerOk(s, t) && ObjectOk(ob) && PendingOk(s, t);
    assert Attached(s.threads, o, Block(t, i));
    assert Block(t, i) in Waiters(ob);
    UnlinkedOk(th);
    UnlinkKeeps(s, t, th.(pc := Sweeping(i + 1)), i);
  }

  lemma UnlinkedOk(th: Thread)
    requires ThreadOk(th) && th.pc.Sweeping? && th.pc.next < |th.targets| && th.blocks[th.pc.next].Active?
    requires !(th.pending && th.winner == th.pc.next)
    ensures var i, th' := th.pc.next, th.(pc := Sweeping(th.pc.next + 1));
            && ThreadOk(th') && SameWait(th, th') && KeepsPending(th, th')
            && forall j :: 0 <= j ==> Attaches(th', j) == (Attaches(th, j) && j != i)
  {
  }

  lemma OwnKeeps(s: State, t: nat)
    requires Inv(s) && CanOwn(s, t)
    ensures Inv(Own(s, t))
  {
    var th := s.threads[t];
    var o := th.targets[0];
    assert ThreadOk(th) && TargetsOk(s, t) && StackTimerOk(s, t) && ObjectOk(s.objects[o]) && LearnedOk(s, o);
    var th' := th.(pc := Idle);
    var ob' := s.objects[o].(owner := Some(t));
    KeepsLinksBoth(s, t, th', o, ob');
    if o >= s.users {
      assert StackTimerOk(s, o - s.users);
    }
    UpdateBoth(s, t, th', o, ob');
  }

  // ---------------------------------------------------------------------------
  // Steps of a signaller
  // ---------------------------------------------------------------------------

  lemma UnlockKeeps(s: State, t: nat, o: nat)
    requires Inv(s) && CanUnlock(s, t, o)
    ensures Inv(Unlock(s, t, o))
  {
    assert ObjectOk(s.objects[o]);
    UpdateObject(s, o, Unlock(s, t, o).objects[o]);
  }

  lemma ReleaseKeeps(s: State, o: nat)
    requires Inv(s) && CanRelease(s, o)
    ensures Inv(Release(s, o))
  {
    assert ObjectOk(s.objects[o]);
    UpdateObject(s, o, Release(s, o).objects[o]);
  }

  lemma ExpireKeeps(s: State, o: nat)
    requires Inv(s) && CanExpire(s, o)
    ensures Inv(Expire(s, o))
  {
    assert ObjectOk(s.objects[o]);
    if o >= s.users {
      assert StackTimerOk(s, o - s.users);
    }
    UpdateObject(s, o, Expire(s, o).objects[o]);
  }

  lemma DrainKeeps(s: State, o: nat)
    requires Inv(s) && CanDrain(s, o)
    ensures Inv(Drain(s, o))
  {
    var ob := s.objects[o];
    assert ObjectOk(ob);
    if o >= s.users {
      assert StackTimerOk(s, o - s.users);
    }
    if ob.queue != [] && ob.count > 0 {
      assert ob.queue == [ob.queue[0]] + ob.queue[1..];
    }
    UpdateObject(s, o, Drain(s, o).objects[o]);
  }

  lemma SwapKeeps(s: State, o: nat, wake: bool)
    requires Inv(s) && InFlight(s, o)
    requires var st := s.threads[s.objects[o].lock.block.thread].status;
             if wake then st.Committed? else st.InProgress?
    ensures Inv(Swap(s, o, wake))
  {
    var ob := s.objects[o];
    var b := ob.lock.block;
    InFlightAttached(s, o);
    SwappedThreadOk(s.threads[b.thread], b.index, wake);
    SwappedObjectOk(ob, wake);
    ResolveKeeps(s, o, Swap(s, o, wake).threads[b.thread], Swap(s, o, wake).objects[o]);
  }

  /** The waitblock in flight leaves the object for good. */
  lemma ResolveKeeps(s: State, o: nat, th: Thread, ob: Object)
    requires Inv(s) && InFlight(s, o)
    requires var old_ := s.threads[s.objects[o].lock.block.thread];
             && SameWait(old_, th) && ThreadOk(th) && th.pc == old_.pc
             && (th.winner == old_.winner || th.winner == s.objects[o].lock.block.index)
             && (forall j :: 0 <= j ==> Attaches(th, j) == (Attaches(old_, j) && j != s.objects[o].lock.block.index))
             && if ob.lock.Mark? then
                  && !old_.pending && th.pending && th.winner == s.objects[o].lock.block.index
                  && ob.lock == Mark(s.objects[o].lock.block, th.committed)
                else (ob.lock.Loop? || ob.lock.Exit?) && KeepsPending(old_, th)
    requires var old_ := s.objects[o];
             && ob.kind == old_.kind && ob.queue == old_.queue && ob.timer == old_.timer
             && ob.deadline == old_.deadline && (ob.kind.Timer? ==> ob.count == old_.count)
             && ObjectOk(ob)
    ensures Inv(With(s, s.objects[o].lock.block.thread, th, o, ob))
  {
    var b := s.objects[o].lock.block;
    var s' := With(s, b.thread, th, o, ob);
    InFlightAttached(s, o);
    assert Linked(s') && NoDuplicates(s') by {
      assert Waiters(ob) == ob.queue;
      Unlinks(s, b.thread, th, o, ob, b.index);
    }
    assert LearnedOk(s', o) && PendingOk(s', b.thread) by {
      assert PendingOk(s, b.thread);
    }
    ResolvedTimers(s, o, th, ob);
    UpdateBoth(s, b.thread, th, o, ob);
  }

  lemma ResolvedTimers(s: State, o: nat, th: Thread, ob: Object)
    requires Inv(s) && InFlight(s, o)
    requires var b, old_ := s.objects[o].lock.block, s.threads[s.objects[o].lock.block.thread];
             && SameWait(old_, th) && th.pc == old_.pc && b.index < |old_.targets| && old_.targets[b.index] == o
             && (th.winner == old_.winner || th.winner == b.index)
    requires var old_ := s.objects[o];
             && ob.kind == old_.kind && ob.timer == old_.timer
             && ob.deadline == old_.deadline && (ob.kind.Timer? ==> ob.count == old_.count)
             && !ob.lock.Free? && ObjectOk(old_)
    ensures var t := s.objects[o].lock.block.thread;
            var s' := With(s, t, th, o, ob);
            StackTimerOk(s', t) && (o >= s.users ==> StackTimerOk(s', o - s.users))
  {
    var t := s.objects[o].lock.block.thread;
    assert StackTimerOk(s, t) && TargetsOk(s, t);
    if o >= s.users {
      assert StackTimerOk(s, o - s.users);
    }
  }

  /** The store a signaller still owes hits the waitblock of the wait it satisfied. */
  lemma MarkedThread(s: State, o: nat)
    requires Inv(s) && CanStore(s, o)
    ensures var b := s.objects[o].lock.block;
            var th := s.threads[b.thread];
            && ThreadOk(th) && th.pending && th.winner == b.index && (s.objects[o].lock.wake <==> th.committed)
            && b.index < |th.blocks| <= |th.targets| && th.targets[b.index] == o
            && Stored(s, o, b, Signaled) == th.blocks[b.index := Signaled]
  {
    var b := s.objects[o].lock.block;
    assert LearnedOk(s, o) && ThreadOk(s.threads[b.thread]) && TargetsOk(s, b.thread);
  }

  lemma StoredThreadOk(th: Thread, wake: bool)
    requires ThreadOk(th) && th.pending && 0 <= th.winner < |th.blocks| && (wake <==> th.committed)
    ensures ThreadOk(th.(blocks := th.blocks[th.winner := Signaled], pending := false, token := th.token || wake,
                         wakes := if wake then th.wakes + 1 else th.wakes))
  {
  }

  lemma StoreKeeps(s: State, o: nat)
    requires Inv(s) && CanStore(s, o)
    ensures Inv(Store(s, o))
  {
    var ob := s.objects[o];
    var b := ob.lock.block;
    var th', ob' := Store(s, o).threads[b.thread], Store(s, o).objects[o];
    MarkedThread(s, o);
    StoredThreadOk(s.threads[b.thread], ob.lock.wake);
    assert ObjectOk(ob) && Waiters(ob') == Waiters(ob);
    KeepsLinksBoth(s, b.thread, th', o, ob');
    StoredTimers(s, o);
    UpdateBoth(s, b.thread, th', o, ob');
  }

  lemma StoredTimers(s: State, o: nat)
    requires Inv(s) && CanStore(s, o)
    ensures StackTimerOk(Store(s, o), s.objects[o].lock.block.thread)
    ensures o >= s.users ==> StackTimerOk(Store(s, o), o - s.users)
  {
    assert StackTimerOk(s, s.objects[o].lock.block.thread);
    if o >= s.users {
      assert StackTimerOk(s, o - s.users);
    }
  }

  lemma SkipKeeps(s: State, o: nat)
    requires Inv(s) && CanSkip(s, o)
    ensures Inv(SkipOver(s, o))
  {
    var ob := s.objects[o];
    var b := ob.lock.block;
    var th := s.threads[b.thread];
    assert LearnedOk(s, o) && TargetsOk(s, b.thread);
    InFlightAttached(s, o);
    assert Stored(s, o, b, Inactive) == th.blocks[b.index := Inactive];
    ResolveKeeps(s, o, th.(blocks := th.blocks[b.index := Inactive]), ob.(lock := Loop));
  }

  lemma InFlightAttached(s: State, o: nat)
    requires Inv(s) && InFlight(s, o)
    ensures var b := s.objects[o].lock.block;
            && Attached(s.threads, o, b) && ThreadOk(s.threads[b.thread]) && ObjectOk(s.objects[o])
            && Waiters(s.objects[o]) == [b] + s.objects[o].queue
            && Remove(Waiters(s.objects[o]), b) == s.objects[o].queue
  {
    var b := s.objects[o].lock.block;
    assert Waiters(s.objects[o])[0] == b;
    assert Attached(s.threads, o, b);
  }

  lemma SwappedObjectOk(ob: Object, wake: bool)
    requires ObjectOk(ob) && Trying(ob.lock)
    ensures var t := ob.lock.block.thread;
            ObjectOk(Deliver(Consume(ob), t).(lock := Mark(ob.lock.block, wake), grants := ob.grants + [t]))
  {
  }

  lemma SwappedThreadOk(th: Thread, i: nat, wake: bool)
    requires ThreadOk(th) && Attaches(th, i) && i < |th.targets|
    requires if wake then th.status.Committed? else th.status.InProgress?
    ensures ThreadOk(Satisfy(th, i).(pending := true)) && (wake <==> th.committed)
  {
  }

  lemma FirstKeeps(s: State, o: nat)
    requires Inv(s) && CanTry1(s, o)
    ensures Inv(First(s, o))
  {
    var ob := s.objects[o];
    if s.threads[ob.lock.block.thread].status.InProgress? {
      SwapKeeps(s, o, false);
    } else {
      RelockKeeps(s, o, Try2(ob.lock.block));
    }
  }

  lemma RelockKeeps(s: State, o: nat, lock: Lock)
    requires Inv(s) && InFlight(s, o) && Trying(lock) && lock.block == s.objects[o].lock.block
    requires LearnedOk(WithObject(s, o, s.objects[o].(lock := lock)), o)
    ensures Inv(WithObject(s, o, s.objects[o].(lock := lock)))
  {
    assert ObjectOk(s.objects[o]);
    if o >= s.users {
      assert StackTimerOk(s, o - s.users);
    }
    UpdateObject(s, o, s.objects[o].(lock := lock));
  }

  lemma SecondKeeps(s: State, o: nat)
    requires Inv(s) && CanTry2(s, o)
    ensures Inv(Second(s, o))
  {
    var ob := s.objects[o];
    assert LearnedOk(s, o);
    if s.threads[ob.lock.block.thread].status.Committed? {
      SwapKeeps(s, o, true);
    } else {
      RelockKeeps(s, o, Try3(ob.lock.block));
    }
  }

  lemma ThirdKeeps(s: State, o: nat)
    requires Inv(s) && CanTry3(s, o)
    ensures Inv(Third(s, o))
  {
    assert LearnedOk(s, o);
    RelockKeeps(s, o, Skip(s.objects[o].lock.block));
  }

  lemma FinishObject(s: State, o: nat)
    requires Inv(s) && CanFinish(s, o)
    ensures var ob := Finish(s, o).objects[o];
            && ObjectOk(ob) && ob.kind == s.objects[o].kind && ob.lock.Free?
            && Waiters(ob) == Waiters(s.objects[o])
            && (ob.kind.Timer? ==> ob.timer.Stopped?) && ob.count == s.objects[o].count && ob.deadline == s.objects[o].deadline
  {
    assert ObjectOk(s.objects[o]);
  }

  lemma FinishTimer(s: State, o: nat)
    requires Inv(s) && CanFinish(s, o) && s.users <= o
    ensures StackTimerOk(Finish(s, o), o - s.users)
  {
    assert StackTimerOk(s, o - s.users);
    FinishObject(s, o);
  }

  lemma FinishKeeps(s: State, o: nat)
    requires Inv(s) && CanFinish(s, o)
    ensures Inv(Finish(s, o))
  {
    FinishObject(s, o);
    if o >= s.users {
      FinishTimer(s, o);
    }
    UpdateObject(s, o, Finish(s, o).objects[o]);
  }

  lemma UseTimerKeeps(s: State, o: nat, deadline: nat)
    requires Inv(s) && CanUseTimer(s, o)
    ensures Inv(WithObject(s, o, StartTimer(s.objects[o], deadline)))
    ensures Inv(WithObject(s, o, StopTimer(s.objects[o])))
  {
    assert ObjectOk(s.objects[o]);
    UpdateObject(s, o, StartTimer(s.objects[o], deadline));
    UpdateObject(s, o, StopTimer(s.objects[o]));
  }

  lemma TickKeeps(s: State)
    requires Inv(s)
    ensures Inv(s.(now := s.now + 1))
  {
    var s' := s.(now := s.now + 1);
    forall u | 0 <= u < |s'.threads| ensures TargetsOk(s', u) && PendingOk(s', u) {
      assert TargetsOk(s, u) && PendingOk(s, u);
    }
    forall p | 0 <= p < |s'.objects| ensures LearnedOk(s', p) {
      assert LearnedOk(s, p);
    }
    forall u | 0 <= u < |s'.threads| ensures StackTimerOk(s', u) {
      assert StackTimerOk(s, u);
    }
  }

  /** Only the start of a wait sets what the thread waits for, and only it leaves the idle state. */
  predicate SameTargets(a: Thread, b: Thread) {
    b.targets == a.targets && b.timeout == a.timeout && b.locking == a.locking && (a.pc.Idle? ==> b.pc.Idle?)
  }

  lemma StepTargets(s: State, e: Step, t: nat)
    requires Enabled(s, e) && t < |s.threads| && !(e.BeginStep? && e.t == t)
    ensures |Apply(s, e).threads| == |s.threads| && SameTargets(s.threads[t], Apply(s, e).threads[t])
  {
    if WaiterStep(e) {
      WaiterTargets(s, e, t);
    }
  }

  predicate WaiterStep(e: Step) {
    || e.BeginStep? || e.ProbeStep? || e.CheckStep? || e.BackOutStep? || e.ArmStep? || e.CommitStep?
    || e.WakeStep? || e.DisarmStep? || e.SweepStep? || e.OwnStep?
  }

  lemma WaiterTargets(s: State, e: Step, t: nat)
    requires Enabled(s, e) && t < |s.threads| && !(e.BeginStep? && e.t == t) && WaiterStep(e)
    ensures |Apply(s, e).threads| == |s.threads| && SameTargets(s.threads[t], Apply(s, e).threads[t])
  {
    if e.BeginStep? || e.ProbeStep? || e.CheckStep? || e.BackOutStep? {
      EarlyTargets(s, e, t);
    } else {
      LateTargets(s, e, t);
    }
  }

  lemma EarlyTargets(s: State, e: Step, t: nat)
    requires Enabled(s, e) && t < |s.threads| && !(e.BeginStep? && e.t == t)
    requires e.BeginStep? || e.ProbeStep? || e.CheckStep? || e.BackOutStep?
    ensures |Apply(s, e).threads| == |s.threads| && SameTargets(s.threads[t], Apply(s, e).threads[t])
  {
  }

  lemma LateTargets(s: State, e: Step, t: nat)
    requires Enabled(s, e) && t < |s.threads|
    requires e.ArmStep? || e.CommitStep? || e.WakeStep? || e.DisarmStep? || e.SweepStep? || e.OwnStep?
    ensures |Apply(s, e).threads| == |s.threads| && SameTargets(s.threads[t], Apply(s, e).threads[t])
  {
  }

  lemma WaiterKeeps(s: State, e: Step)
    requires Inv(s) && Enabled(s, e) && Tidy(s, e) && WaiterStep(e)
    ensures Inv(Apply(s, e))
  {
    match e
    case BeginStep(t, os, timeout, locking) => BeginKeeps(s, t, os, timeout, locking);
    case ProbeStep(t) => ProbeKeeps(s, t);
    case CheckStep(t) => CheckKeeps(s, t);
    case BackOutStep(t) => BackOutKeeps(s, t);
    case ArmStep(t) => ArmKeeps(s, t);
    case CommitStep(t) => CommitKeeps(s, t);
    case WakeStep(t) => WakeKeeps(s, t);
    case DisarmStep(t) => DisarmKeeps(s, t);
    case SweepStep(t) => SweepKeeps(s, t);
    case OwnStep(t) => OwnKeeps(s, t);
  }

  lemma SignallerKeeps(s: State, e: Step)
    requires Inv(s) && Enabled(s, e) && !WaiterStep(e)
    ensures Inv(Apply(s, e))
  {
    match e
    case UnlockStep(t, o) => UnlockKeeps(s, t, o);
    case ReleaseStep(o) => ReleaseKeeps(s, o);
    case ExpireStep(o) => ExpireKeeps(s, o);
    case DrainStep(o) => DrainKeeps(s, o);
    case FirstStep(o) => FirstKeeps(s, o);
    case SecondStep(o) => SecondKeeps(s, o);
    case ThirdStep(o) => ThirdKeeps(s, o);
    case StoreStep(o) => StoreKeeps(s, o);
    case SkipStep(o) => SkipKeeps(s, o);
    case FinishStep(o) => FinishKeeps(s, o);
    case StartStep(o, ns) => UseTimerKeeps(s, o, s.now + ns);
    case StopStep(o) => UseTimerKeeps(s, o, 0);
    case TickStep => TickKeeps(s);
  }

  /** Every step keeps the invariant. */
  lemma StepKeeps(s: State, e: Step)
    requires Inv(s) && Enabled(s, e) && Tidy(s, e)
    ensures Inv(Apply(s, e))
  {
    if WaiterStep(e) {
      WaiterKeeps(s, e);
    } else {
      SignallerKeeps(s, e);
    }
  }

  lemma InitialOk(s: State)
    requires Initial(s)
    ensures Inv(s)
  {
    forall o: nat, b: Block | o < |s.objects|
      ensures b in Waiters(s.objects[o]) <==> Attached(s.threads, o, b)
    {
      assert InitialObject(s.objects[o]);
      if b.thread < |s.threads| {
        assert InitialThread(s.threads[b.thread]);
      }
    }
  }

  /** No wait of the run returns with a waitblock left behind. */
  ghost predicate TidyRun(s: State, es: seq<Step>)
    requires IsRun(s, es)
    decreases |es|
  {
    es == [] || (Tidy(s, es[0]) && TidyRun(Apply(s, es[0]), es[1..]))
  }

  /** The invariant holds at the end of every tidy run from an initial state. */
  lemma {:induction false} RunKeeps(s: State, es: seq<Step>)
    requires Inv(s) && IsRun(s, es) && TidyRun(s, es)
    ensures Inv(Final(s, es))
    decreases |es|
  {
    if es != [] {
      StepKeeps(s, es[0]);
      RunKeeps(Apply(s, es[0]), es[1..]);
    }
  }
}
