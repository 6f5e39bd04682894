/** `try_satisfy_dispatch_object` run by one CPU without interference: the loop of the source, proved
    to be a run of the protocol and to hand the signal to the right waiter. */
module Dispatcher {
  import opened Common
  import opened WaitProtocol
  import opened WaitInvariant
  import opened WaitTheorems

  /** `s'` can be reached from `s`. */
  ghost predicate Leads(s: State, s': State) {
    exists es: seq<Step> :: IsRun(s, es) && Final(s, es) == s'
  }

  lemma LeadsStep(s: State, s': State, e: Step)
    requires Leads(s, s') && Enabled(s', e)
    ensures Leads(s, Apply(s', e))
  {
    var es: seq<Step> :| IsRun(s, es) && Final(s, es) == s';
    RunExtends(s, es, e);
  }

  predicate Open(threads: seq<Thread>, b: Block) {
    b.thread < |threads| && !threads[b.thread].status.Satisfied?
  }

  /** `k` is the position of the first waitblock whose wait is still open, or the end of the queue. */
  predicate FirstOpen(threads: seq<Thread>, q: seq<Block>, k: nat) {
    && k <= |q|
    && (forall i :: 0 <= i < k ==> !Open(threads, q[i]))
    && (k < |q| ==> Open(threads, q[k]))
  }

  predicate SameStatus(a: seq<Thread>, b: seq<Thread>) {
    |a| == |b| && forall t :: 0 <= t < |a| ==> a[t].status == b[t].status
  }

  /** Satisfied waits stay satisfied. */
  predicate Monotone(a: seq<Thread>, b: seq<Thread>) {
    |a| == |b| && forall t :: 0 <= t < |a| && a[t].status.Satisfied? ==> b[t].status.Satisfied?
  }

  /** The wait of `b` was satisfied through `b`. */
  predicate SatisfiedBy(s: State, b: Block) {
    b.thread < |s.threads| && s.threads[b.thread].status.Satisfied? && s.threads[b.thread].winner == b.index
  }

  /** One iteration of the loop took the first waitblock off the queue. */
  predicate FirstDone(s: State, s': State, o: nat) {
    && o < |s.objects| == |s'.objects| && s.objects[o].queue != []
    && var a, a' := s.objects[o], s'.objects[o];
       var b := a.queue[0];
    && a'.kind == a.kind && a'.queue == a.queue[1..]
    && b.thread < |s'.threads| && Monotone(s.threads, s'.threads)
    && if Open(s.threads, b) then
         a'.lock == AfterOne(a, b.thread) && a'.count == Consume(a).count && SatisfiedBy(s', b)
       else
         a'.lock.Loop? && a'.count == a.count && SameStatus(s.threads, s'.threads)
  }

  /** The loop has taken `n` waitblocks off the queue. */
  predicate Passing(s0: State, s: State, o: nat, n: nat) {
    && o < |s0.objects| == |s.objects|
    && var a, b := s0.objects[o], s.objects[o];
    && n <= |a.queue| && b.queue == a.queue[n..] && b.kind == a.kind
    && (n == 0 ==> s == s0) && (n > 0 ==> a.count > 0)
    && (forall i :: 0 <= i < n ==> a.queue[i].thread < |s.threads| && !Open(s.threads, a.queue[i]))
    && if b.lock.Loop? then
         && b.count == a.count
         && (!a.kind.Timer? ==> SameStatus(s0.threads, s.threads) &&
                                forall i :: 0 <= i < n ==> !Open(s0.threads, a.queue[i]))
       else Given(s0, s, o, n - 1)
  }

  /** The signal went to the first open wait, the one at position `k`. */
  predicate Given(s0: State, s: State, o: nat, k: int)
    requires o < |s0.objects| == |s.objects|
  {
    var a, b := s0.objects[o], s.objects[o];
    && 0 <= k < |a.queue| && FirstOpen(s0.threads, a.queue, k) && !a.kind.Timer?
    && b.lock == Exit(Some(a.queue[k].thread)) && b.queue == a.queue[k + 1..] && b.count == a.count - 1
    && SatisfiedBy(s, a.queue[k])
  }

  lemma PassOne(s0: State, s: State, s': State, o: nat, n: nat)
    requires Passing(s0, s, o, n) && s.objects[o].lock.Loop? && s.objects[o].count > 0 && FirstDone(s, s', o)
    ensures Passing(s0, s', o, n + 1)
  {
    var q := s0.objects[o].queue;
    assert s.objects[o].queue[0] == q[n];
    assert Open(s.threads, q[n]) && !s0.objects[o].kind.Timer? ==> Open(s0.threads, q[n]);
  }

  /** What the function leaves behind when it is called on a signaled object. */
  ghost predicate Outcome(s0: State, s: State, o: nat) {
    && o < |s0.objects| == |s.objects|
    && var a, b := s0.objects[o], s.objects[o];
    if a.count <= 0 then s.threads == s0.threads && b == a.(lock := Exit(None))
    else if a.kind.Timer? then
      && b.lock == Exit(None) && b.queue == []
      && forall w :: w in a.queue ==> w.thread < |s.threads| && !Open(s.threads, w)
    else
      || (FirstOpen(s0.threads, a.queue, |a.queue|) && b.lock == Exit(None) && b.queue == [] && b.count == a.count)
      || exists k :: Given(s0, s, o, k)
  }

  lemma Leave(s0: State, s: State, o: nat, n: nat)
    requires Passing(s0, s, o, n)
    ensures !s.objects[o].lock.Loop? ==> Outcome(s0, s, o)
    ensures s.objects[o].lock.Loop? && (s.objects[o].queue == [] || s.objects[o].count <= 0) ==>
              Outcome(s0, WithObject(s, o, s.objects[o].(lock := Exit(None))), o)
  {
  }

  predicate Same(a: Object, b: Object) {
    b.kind == a.kind && b.queue == a.queue
  }

  /** The two swaps and the load decided about waitblock `b`. */
  predicate Decided(s: State, s': State, o: nat, b: Block) {
    && o < |s.objects| == |s'.objects| && b.thread < |s.threads| == |s'.threads|
    && var a, a' := s.objects[o], s'.objects[o];
    && Same(a, a')
    && if Open(s.threads, b) then
         a'.lock.Mark? && a'.lock.block == b && a'.count == Consume(a).count && SatisfiedBy(s', b) &&
         Monotone(s.threads, s'.threads)
       else a'.lock == Skip(b) && a'.count == a.count && s'.threads == s.threads
  }

  /** The store into the waitblock is made. */
  predicate Settled(s: State, s': State, o: nat) {
    && o < |s.objects| == |s'.objects|
    && var a, a' := s.objects[o], s'.objects[o];
    && Same(a, a') && a'.count == a.count && SameStatus(s.threads, s'.threads)
    && (forall t :: 0 <= t < |s.threads| ==> s'.threads[t].winner == s.threads[t].winner)
    && (a.lock.Mark? ==> a'.lock == AfterOne(a, a.lock.block.thread)) && (a.lock.Skip? ==> a'.lock.Loop?)
  }

  lemma MeetFirst(s0: State, s: State, s1: State, s2: State, o: nat)
    requires o < |s0.objects| && s0.objects[o].queue != [] && s0.objects[o].count > 0
    requires s == WithObject(s0, o, s0.objects[o].(queue := s0.objects[o].queue[1..], lock := Try1(s0.objects[o].queue[0])))
    requires Decided(s, s1, o, s0.objects[o].queue[0]) && Settled(s1, s2, o)
    ensures FirstDone(s0, s2, o)
  {
  }

  class Kernel {
    var st: State

    constructor (s: State)
      ensures st == s
    {
      st := s;
    }

    /** One access to shared memory. */
    method Take(e: Step)
      requires Inv(st) && Enabled(st, e) && Tidy(st, e)
      modifies this
      ensures st == Apply(old(st), e) && Inv(st)
      ensures forall s: State :: Leads(s, old(st)) ==> Leads(s, st)
    {
      StepKeeps(st, e);
      forall s: State | Leads(s, st) ensures Leads(s, Apply(st, e)) {
        LeadsStep(s, st, e);
      }
      st := Apply(st, e);
    }

    /** Lines 209 and 219. */
    method DecideLate(o: nat)
      requires Inv(st) && st.halt.Live? && o < |st.objects| && st.objects[o].lock.Try2?
      modifies this
      ensures Inv(st) && st.halt.Live? && Decided(old(st), st, o, old(st).objects[o].lock.block)
      ensures forall s: State :: Leads(s, old(st)) ==> Leads(s, st)
    {
      InFlightStays(st, o);
      Take(SecondStep(o));
      if st.objects[o].lock.Mark? { return; }
      InFlightStays(st, o);
      Take(ThirdStep(o));
    }

    /** Lines 203, 209 and 219. */
    method Decide(o: nat)
      requires Inv(st) && st.halt.Live? && o < |st.objects| && st.objects[o].lock.Try1?
      modifies this
      ensures Inv(st) && st.halt.Live? && Decided(old(st), st, o, old(st).objects[o].lock.block)
      ensures forall s: State :: Leads(s, old(st)) ==> Leads(s, st)
    {
      InFlightStays(st, o);
      Take(FirstStep(o));
      if st.objects[o].lock.Mark? { return; }
      DecideLate(o);
    }

    /** Line 205, 213 or 221. */
    method Settle(o: nat)
      requires Inv(st) && st.halt.Live? && o < |st.objects| && (st.objects[o].lock.Mark? || st.objects[o].lock.Skip?)
      modifies this
      ensures Inv(st) && st.halt.Live? && Settled(old(st), st, o)
      ensures forall s: State :: Leads(s, old(st)) ==> Leads(s, st)
    {
      if st.objects[o].lock.Mark? {
        assert LearnedOk(st, o);
        Take(StoreStep(o));
      } else {
        InFlightStays(st, o);
        Take(SkipStep(o));
      }
    }

    /** One iteration of the loop, for a queue that is not empty and an object that is signaled. */
    method SatisfyFirst(o: nat)
      requires Inv(st) && st.halt.Live? && CanDrain(st, o)
      requires st.objects[o].queue != [] && st.objects[o].count > 0
      modifies this
      ensures Inv(st) && st.halt.Live? && FirstDone(old(st), st, o)
      ensures forall s: State :: Leads(s, old(st)) ==> Leads(s, st)
    {
      ghost var s0 := st;
      Take(DrainStep(o));
      ghost var s := st;
      Decide(o);
      ghost var s1 := st;
      Settle(o);
      MeetFirst(s0, s, s1, st, o);
    }

    /** The loop. On a synchronization object it passes over the waits that somebody else satisfied
        and gives the signal to the first open one; on a notification object it satisfies them all. */
    method TrySatisfy(o: nat) returns (who: Option<nat>)
      requires Inv(st) && st.halt.Live? && CanDrain(st, o)
      modifies this
      ensures Inv(st) && Leads(old(st), st) && Outcome(old(st), st, o)
      ensures st.objects[o].lock == Exit(who)
    {
      ghost var s0 := st;
      ghost var n := 0;
      assert IsRun(st, []) && Final(st, []) == st;
      while st.objects[o].lock.Loop? && st.objects[o].queue != [] && st.objects[o].count > 0
        invariant Inv(st) && st.halt.Live? && Leads(s0, st) && Passing(s0, st, o, n)
        decreases |st.objects[o].queue|
      {
        ghost var s := st;
        SatisfyFirst(o);
        PassOne(s0, s, st, o, n);
        n := n + 1;
      }
      Leave(s0, st, o, n);
      if st.objects[o].lock.Loop? {
        Take(DrainStep(o));
      }
      who := st.objects[o].lock.thread;
    }
  }

  lemma InFlightStays(s: State, o: nat)
    requires Inv(s) && o < |s.objects| && Trying(s.objects[o].lock)
    ensures InFlight(s, o) && LearnedOk(s, o)
  {
    assert Waiters(s.objects[o])[0] == s.objects[o].lock.block;
    assert Attached(s.threads, o, s.objects[o].lock.block);
  }
}
