/** Timers and timeouts over whole runs: when a started timer can expire, and how long a wait with a
    timeout waits. */
module Timeouts {
  import opened Common
  import opened WaitProtocol
  import opened WaitInvariant
  import opened WaitTheorems

  // ---------------------------------------------------------------------------
  // A timer between two calls that concern it
  // ---------------------------------------------------------------------------

  /** Pending for time `d`, with nobody at its lock. */
  predicate Ticking(ob: Object, d: nat) {
    ob.kind.Timer? && ob.lock.Free? && ob.timer.Pending? && ob.inHeap && ob.deadline == d
  }

  /** The step stops timer `o`, lets it expire, or starts another wait on the stack that it is on. */
  predicate Cancels(users: nat, e: Step, o: nat) {
    match e
    case StopStep(p) => p == o
    case ExpireStep(p) => p == o
    case DisarmStep(t) => users + t == o
    case BeginStep(t, _, _, _) => users + t == o
    case _ => false
  }

  /** The step starts timer `o`. */
  predicate Starts(users: nat, e: Step, o: nat) {
    match e
    case StartStep(p, _) => p == o
    case ArmStep(t) => users + t == o
    case _ => false
  }

  predicate SameTimer(a: Object, b: Object) {
    && b.kind == a.kind && b.timer == a.timer && b.inHeap == a.inHeap && b.deadline == a.deadline
    && (a.lock.Free? && a.kind.Timer? ==> b.lock.Free?)
  }

  lemma SameShape(s: State, e: Step)
    requires Enabled(s, e)
    ensures var s' := Apply(s, e); |s'.threads| == |s.threads| && |s'.objects| == |s.objects| && s'.users == s.users
  {
  }

  lemma WaiterTimer(s: State, e: Step, o: nat)
    requires Enabled(s, e) && o < |s.objects| == |Apply(s, e).objects| && WaiterStep(e)
    requires !Cancels(s.users, e, o) && !Starts(s.users, e, o)
    ensures SameTimer(s.objects[o], Apply(s, e).objects[o])
  {
  }

  lemma SignallerTimer(s: State, e: Step, o: nat)
    requires Enabled(s, e) && o < |s.objects| == |Apply(s, e).objects| && !WaiterStep(e)
    requires !Cancels(s.users, e, o) && !Starts(s.users, e, o) && !e.FinishStep?
    ensures SameTimer(s.objects[o], Apply(s, e).objects[o])
  {
    if e.FirstStep? || e.SecondStep? || e.ThirdStep? || e.StoreStep? || e.SkipStep? {
      TryTimer(s, e, o);
    }
  }

  lemma TryTimer(s: State, e: Step, o: nat)
    requires Enabled(s, e) && o < |s.objects| == |Apply(s, e).objects|
    requires e.FirstStep? || e.SecondStep? || e.ThirdStep? || e.StoreStep? || e.SkipStep?
    ensures SameTimer(s.objects[o], Apply(s, e).objects[o])
  {
  }

  /** A running timer is stopped when its lock is released; nothing else happens to a timer otherwise. */
  lemma StepTimer(s: State, e: Step, o: nat)
    requires Enabled(s, e) && o < |s.objects| && !Cancels(s.users, e, o) && !Starts(s.users, e, o)
    ensures |Apply(s, e).objects| == |s.objects|
    ensures SameTimer(s.objects[o], Apply(s, e).objects[o]) || (e == FinishStep(o) && !s.objects[o].lock.Free?)
    ensures Apply(s, e).objects[o].deadline == s.objects[o].deadline
    ensures e == FinishStep(o) ==>
              Apply(s, e).objects[o].timer == if s.objects[o].kind.Timer? then Stopped else s.objects[o].timer
  {
    SameShape(s, e);
    if WaiterStep(e) {
      WaiterTimer(s, e, o);
    } else if !e.FinishStep? {
      SignallerTimer(s, e, o);
    }
  }

  /** Starting a timer that is pending does nothing. */
  lemma RestartTimer(s: State, e: Step, o: nat, d: nat)
    requires Enabled(s, e) && o < |s.objects| && Starts(s.users, e, o) && Ticking(s.objects[o], d)
    ensures |Apply(s, e).objects| == |s.objects| && Ticking(Apply(s, e).objects[o], d)
  {
  }

  lemma StepTicking(s: State, e: Step, o: nat, d: nat)
    requires Enabled(s, e) && o < |s.objects| && Ticking(s.objects[o], d) && !Cancels(s.users, e, o)
    ensures |Apply(s, e).objects| == |s.objects| && Apply(s, e).users == s.users && Ticking(Apply(s, e).objects[o], d)
  {
    SameShape(s, e);
    if Starts(s.users, e, o) {
      RestartTimer(s, e, o, d);
    } else {
      StepTimer(s, e, o);
    }
  }

  ghost predicate NoneCancels(users: nat, es: seq<Step>, o: nat) {
    forall e :: e in es ==> !Cancels(users, e, o)
  }

  lemma {:induction false} RunTicking(s: State, es: seq<Step>, o: nat, d: nat)
    requires IsRun(s, es) && o < |s.objects| && Ticking(s.objects[o], d) && NoneCancels(s.users, es, o)
    ensures o < |Final(s, es).objects| && Ticking(Final(s, es).objects[o], d)
    decreases |es|
  {
    if es != [] {
      assert es[0] in es && forall e :: e in es[1..] ==> e in es;
      StepTicking(s, es[0], o, d);
      RunTicking(Apply(s, es[0]), es[1..], o, d);
    }
  }

  /** A timer started for `ns` can expire exactly from `ns` later on, in every run in which it is not stopped and
      has not expired; further starts make no difference. */
  lemma ExpiresExactly(s: State, o: nat, ns: nat, es: seq<Step>)
    requires Enabled(s, StartStep(o, ns)) && s.objects[o].timer.Stopped?
    requires IsRun(Apply(s, StartStep(o, ns)), es) && NoneCancels(s.users, es, o)
    ensures var f := Final(Apply(s, StartStep(o, ns)), es);
            f.halt.Live? ==> (Enabled(f, ExpireStep(o)) <==> f.now >= s.now + ns)
  {
    RunTicking(Apply(s, StartStep(o, ns)), es, o, s.now + ns);
  }

  lemma ArmTicks(s: State, t: nat, ns: nat)
    requires Inv(s) && Enabled(s, ArmStep(t)) && s.threads[t].timeout == After(ns)
    ensures var s' := Apply(s, ArmStep(t)); |s'.objects| == |s.objects| && Ticking(s'.objects[s.users + t], s.now + ns)
  {
    assert StackTimerOk(s, t);
  }

  /** So can the timer of a wait, from the time it is armed until it is disarmed or expires. */
  lemma TimeoutExpiresExactly(s: State, t: nat, ns: nat, es: seq<Step>)
    requires Inv(s) && Enabled(s, ArmStep(t)) && s.threads[t].timeout == After(ns)
    requires IsRun(Apply(s, ArmStep(t)), es) && NoneCancels(s.users, es, s.users + t)
    ensures var f := Final(Apply(s, ArmStep(t)), es);
            f.halt.Live? ==> (Enabled(f, ExpireStep(s.users + t)) <==> f.now >= s.now + ns)
  {
    ArmTicks(s, t, ns);
    RunTicking(Apply(s, ArmStep(t)), es, s.users + t, s.now + ns);
  }

  // ---------------------------------------------------------------------------
  // A timer that is stopped or has expired
  // ---------------------------------------------------------------------------

  lemma CancelledTimer(s: State, e: Step, o: nat)
    requires Enabled(s, e) && o < |s.objects| && Cancels(s.users, e, o) && !s.objects[o].timer.Pending?
    ensures |Apply(s, e).objects| == |s.objects| && !Apply(s, e).objects[o].timer.Pending?
  {
  }

  lemma StepQuiet(s: State, e: Step, o: nat)
    requires Enabled(s, e) && o < |s.objects| && !s.objects[o].timer.Pending? && !Starts(s.users, e, o)
    ensures |Apply(s, e).objects| == |s.objects| && Apply(s, e).users == s.users && !Apply(s, e).objects[o].timer.Pending?
  {
    SameShape(s, e);
    if Cancels(s.users, e, o) {
      CancelledTimer(s, e, o);
    } else {
      StepTimer(s, e, o);
    }
  }

  lemma {:induction false} RunQuiet(s: State, es: seq<Step>, o: nat)
    requires IsRun(s, es) && o < |s.objects| && !s.objects[o].timer.Pending?
    requires forall e :: e in es ==> !Starts(s.users, e, o)
    ensures o < |Final(s, es).objects| && !Final(s, es).objects[o].timer.Pending?
    decreases |es|
  {
    if es != [] {
      assert es[0] in es && forall e :: e in es[1..] ==> e in es;
      StepQuiet(s, es[0], o);
      RunQuiet(Apply(s, es[0]), es[1..], o);
    }
  }

  /** A timer that was stopped, disarmed or has expired does not expire again, in every run in which it is not
      started. */
  lemma StoppedNeverExpires(s: State, e: Step, o: nat, es: seq<Step>)
    requires Enabled(s, e) && o < |s.objects|
    requires e == StopStep(o) || e == ExpireStep(o) || (e.DisarmStep? && s.users + e.t == o)
    requires IsRun(Apply(s, e), es) && forall x :: x in es ==> !Starts(s.users, x, o)
    ensures !Enabled(Final(Apply(s, e), es), ExpireStep(o))
  {
    RunQuiet(Apply(s, e), es, o);
  }

  // ---------------------------------------------------------------------------
  // How long a wait waits
  // ---------------------------------------------------------------------------

  predicate Late(pc: Pc) {
    pc.Committing? || pc.Sleeping? || pc.Disarming? || pc.Sweeping?
  }

  /** The wait of `t`, of `ns`, does not time out before `d`: once its timer is armed it is not due before,
      and until then it could not be armed for an earlier time. */
  predicate Patient(s: State, t: nat, ns: nat, d: nat) {
    && WellFormed(s) && t < |s.threads| && s.threads[t].timeout == After(ns)
    && (Late(s.threads[t].pc) ==> s.objects[s.users + t].deadline >= d)
    && (s.threads[t].pc.Probing? || s.threads[t].pc.Arming? ==> s.now + ns >= d)
  }

  /** How a step moves a thread that does not begin a wait. */
  predicate PcMoves(a: Thread, b: Thread, arms: bool) {
    && (b.pc.Probing? || b.pc.Arming? ==> a.pc.Probing? || a.pc.Arming?)
    && (Late(b.pc) && a.timeout.After? ==> Late(a.pc) || arms)
  }

  lemma EarlyMoves(s: State, e: Step, t: nat)
    requires Enabled(s, e) && t < |s.threads| == |Apply(s, e).threads| && !(e.BeginStep? && e.t == t)
    requires e.BeginStep? || e.ProbeStep? || e.CheckStep? || e.BackOutStep?
    ensures PcMoves(s.threads[t], Apply(s, e).threads[t], false)
  {
  }

  lemma LateMoves(s: State, e: Step, t: nat)
    requires Enabled(s, e) && t < |s.threads| == |Apply(s, e).threads|
    requires e.ArmStep? || e.CommitStep? || e.WakeStep? || e.DisarmStep? || e.SweepStep? || e.OwnStep?
    ensures PcMoves(s.threads[t], Apply(s, e).threads[t], e == ArmStep(t))
  {
    if e.t != t {
      OthersStay(s, e, t);
    }
  }

  lemma OthersStay(s: State, e: Step, t: nat)
    requires Enabled(s, e) && t < |s.threads| == |Apply(s, e).threads|
    requires e.ArmStep? || e.CommitStep? || e.WakeStep? || e.DisarmStep? || e.SweepStep? || e.OwnStep?
    requires e.t != t
    ensures Apply(s, e).threads[t] == s.threads[t]
  {
  }

  lemma SignallerMoves(s: State, e: Step, t: nat)
    requires Enabled(s, e) && t < |s.threads| == |Apply(s, e).threads| && !WaiterStep(e)
    ensures Apply(s, e).threads[t].pc == s.threads[t].pc
  {
  }

  lemma StepMoves(s: State, e: Step, t: nat)
    requires Enabled(s, e) && t < |s.threads| && !(e.BeginStep? && e.t == t)
    ensures |Apply(s, e).threads| == |s.threads|
    ensures PcMoves(s.threads[t], Apply(s, e).threads[t], e == ArmStep(t))
  {
    SameShape(s, e);
    if e.BeginStep? || e.ProbeStep? || e.CheckStep? || e.BackOutStep? {
      EarlyMoves(s, e, t);
    } else if WaiterStep(e) {
      LateMoves(s, e, t);
    } else {
      SignallerMoves(s, e, t);
    }
  }

  /** Only arming sets the deadline of a stack timer, and the clock does not go back. */
  lemma StepDeadline(s: State, e: Step, t: nat)
    requires WellFormed(s) && Enabled(s, e) && t < |s.threads| && !(e.BeginStep? && e.t == t)
    ensures |Apply(s, e).objects| == |s.objects| && Apply(s, e).users == s.users && Apply(s, e).now >= s.now
    ensures e != ArmStep(t) ==> Apply(s, e).objects[s.users + t].deadline == s.objects[s.users + t].deadline
  {
    SameShape(s, e);
    ClockForward(s, e);
    if Cancels(s.users, e, s.users + t) {
      CancelDeadline(s, e, t);
    } else if e != ArmStep(t) {
      NotStarted(s, e, t);
      StepTimer(s, e, s.users + t);
    }
  }

  lemma NotStarted(s: State, e: Step, t: nat)
    requires Enabled(s, e) && e != ArmStep(t)
    ensures !Starts(s.users, e, s.users + t)
  {
  }

  lemma ClockForward(s: State, e: Step)
    requires Enabled(s, e)
    ensures Apply(s, e).now >= s.now
  {
  }

  lemma CancelDeadline(s: State, e: Step, t: nat)
    requires WellFormed(s) && Enabled(s, e) && t < |s.threads| && Cancels(s.users, e, s.users + t) && !e.BeginStep?
    requires |Apply(s, e).objects| == |s.objects|
    ensures Apply(s, e).objects[s.users + t].deadline == s.objects[s.users + t].deadline
  {
  }

  lemma StepPatient(s: State, e: Step, t: nat, ns: nat, d: nat)
    requires Inv(s) && Enabled(s, e) && Patient(s, t, ns, d) && !(e.BeginStep? && e.t == t)
    ensures Patient(Apply(s, e), t, ns, d)
  {
    StepTargets(s, e, t);
    StepMoves(s, e, t);
    StepDeadline(s, e, t);
    if e == ArmStep(t) {
      ArmTicks(s, t, ns);
    }
  }

  ghost predicate SameWait(es: seq<Step>, t: nat) {
    forall e :: e in es ==> !(e.BeginStep? && e.t == t)
  }

  lemma {:induction false} RunPatient(s: State, es: seq<Step>, t: nat, ns: nat, d: nat)
    requires Inv(s) && IsRun(s, es) && TidyRun(s, es) && Patient(s, t, ns, d) && SameWait(es, t)
    ensures Inv(Final(s, es)) && Patient(Final(s, es), t, ns, d)
    decreases |es|
  {
    if es != [] {
      assert es[0] in es && forall e :: e in es[1..] ==> e in es;
      StepPatient(s, es[0], t, ns, d);
      StepKeeps(s, es[0]);
      RunPatient(Apply(s, es[0]), es[1..], t, ns, d);
    }
  }

  /** The last step of the final loop of `wait_any`. */
  predicate Returns(s: State, t: nat) {
    s.halt.Live? && CanSweep(s, t) && s.threads[t].pc.next == |s.threads[t].targets|
  }

  lemma TimedOutDue(s: State, t: nat, ns: nat, d: nat)
    requires Inv(s) && Returns(s, t) && Patient(s, t, ns, d) && Sweep(s, t).threads[t].result == -1
    ensures d <= s.now
  {
    assert ThreadOk(s.threads[t]) && TargetsOk(s, t) && StackTimerOk(s, t);
  }

  /** A wait that times out does so no earlier than its timeout after its timer was armed. */
  lemma NoEarlyTimeout(s: State, t: nat, ns: nat, es: seq<Step>)
    requires Inv(s) && Enabled(s, ArmStep(t)) && s.threads[t].timeout == After(ns)
    requires var s' := Apply(s, ArmStep(t)); IsRun(s', es) && TidyRun(s', es) && SameWait(es, t)
    ensures var f := Final(Apply(s, ArmStep(t)), es);
            Returns(f, t) && Sweep(f, t).threads[t].result == -1 ==> f.now >= s.now + ns
  {
    var s', d := Apply(s, ArmStep(t)), s.now + ns;
    ArmTicks(s, t, ns);
    StepKeeps(s, ArmStep(t));
    RunPatient(s', es, t, ns, d);
    var f := Final(s', es);
    if Returns(f, t) && Sweep(f, t).threads[t].result == -1 {
      TimedOutDue(f, t, ns, d);
    }
  }

  // ---------------------------------------------------------------------------
  // What a wait returns to its caller
  // ---------------------------------------------------------------------------

  lemma {:induction false} RunTargets(s: State, es: seq<Step>, t: nat)
    requires IsRun(s, es) && t < |s.threads| && SameWait(es, t)
    ensures t < |Final(s, es).threads| && Final(s, es).threads[t].targets == s.threads[t].targets
    ensures Final(s, es).threads[t].timeout == s.threads[t].timeout && Final(s, es).users == s.users
    decreases |es|
  {
    if es != [] {
      assert es[0] in es && forall e :: e in es[1..] ==> e in es;
      SameShape(s, es[0]);
      StepTargets(s, es[0], t);
      RunTargets(Apply(s, es[0]), es[1..], t);
    }
  }

  /** From the call of `wait_any` to its return through the final loop: the result is the position, in the list
      the caller passed, of the object that satisfied the wait; or it is -1, the caller passed a finite
      timeout, and at least that much time has gone by since the call. */
  lemma WaitReturns(s: State, t: nat, os: seq<nat>, timeout: Timeout, locking: bool, es: seq<Step>)
    requires Inv(s) && Enabled(s, BeginStep(t, os, timeout, locking))
    requires var s' := Apply(s, BeginStep(t, os, timeout, locking)); IsRun(s', es) && TidyRun(s', es) && SameWait(es, t)
    ensures var f := Final(Apply(s, BeginStep(t, os, timeout, locking)), es);
            Returns(f, t) ==>
              var th, r := f.threads[t], Sweep(f, t).threads[t].result;
              && th.moves == 1
              && (if r == -1 then timeout.After? && f.now >= s.now + timeout.ns
                  else 0 <= r < |os| && r < |th.targets| && th.winner == r && th.targets[r] == os[r])
  {
    var e := BeginStep(t, os, timeout, locking);
    var s' := Apply(s, e);
    StepKeeps(s, e);
    RunKeeps(s', es);
    RunTargets(s', es, t);
    var f := Final(s', es);
    if Returns(f, t) {
      ReturnedIndex(f, t);
      if Sweep(f, t).threads[t].result == -1 {
        BeginPatient(s, t, os, timeout, locking);
        RunPatient(s', es, t, timeout.ns, s.now + timeout.ns);
        TimedOutDue(f, t, timeout.ns, s.now + timeout.ns);
      }
    }
  }

  lemma BeginPatient(s: State, t: nat, os: seq<nat>, timeout: Timeout, locking: bool)
    requires Enabled(s, BeginStep(t, os, timeout, locking)) && timeout.After?
    ensures Patient(Apply(s, BeginStep(t, os, timeout, locking)), t, timeout.ns, s.now + timeout.ns)
  {
  }

  lemma ReturnedIndex(s: State, t: nat)
    requires Inv(s) && Returns(s, t)
    ensures var th, r := s.threads[t], Sweep(s, t).threads[t].result;
            && th.moves == 1
            && (if r == -1 then th.timeout.After?
                else 0 <= r == th.winner < |th.targets| && (th.timeout.After? ==> r < |th.targets| - 1))
  {
    assert ThreadOk(s.threads[t]);
  }
}
