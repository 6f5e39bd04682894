/** The `owner` of a mutex over whole runs: `mutex_unlock` stores it under the lock, `mutex_lock` without. */
module MutexOwner {
  import opened Common
  import opened WaitProtocol
  import opened WaitInvariant
  import opened WaitTheorems
  import opened WaitMutex

  /** Once the mutex was unlocked, and while nobody is unlocking it, `owner` names nobody but a holder. */
  predicate OwnerOk(ob: Object) {
    ob.lock.Free? && ob.released > 0 && ob.owner.Some? ==> ob.owner.value in ob.holders
  }

  // ---------------------------------------------------------------------------
  // Steps
  // ---------------------------------------------------------------------------

  /** A step that neither stores the owner nor unlocks. */
  predicate Keeps(a: Object, b: Object) {
    b.owner == a.owner && a.holders <= b.holders && b.released == a.released && (b.lock.Free? ==> a.lock.Free?)
  }

  lemma WaiterKeepsOwner(s: State, e: Step, o: nat)
    requires Enabled(s, e) && o < |s.objects| == |Apply(s, e).objects| && o < s.users
    requires WaiterStep(e) && !e.OwnStep?
    ensures Keeps(s.objects[o], Apply(s, e).objects[o])
  {
  }

  lemma SignallerKeepsOwner(s: State, e: Step, o: nat)
    requires Enabled(s, e) && o < |s.objects| == |Apply(s, e).objects| && s.objects[o].kind.Mutex?
    requires !WaiterStep(e) && !e.FinishStep? && !Unlocks(e, o)
    ensures Keeps(s.objects[o], Apply(s, e).objects[o])
  {
  }

  lemma OwnOwner(s: State, t: nat, o: nat)
    requires Inv(s) && MutexInv(s, o) && CanOwn(s, t) && OwnerOk(s.objects[o])
    ensures o < |Own(s, t).objects| && OwnerOk(Own(s, t).objects[o])
  {
    var th := s.threads[t];
    assert ThreadOk(th) && MutexThread(s.objects[o], o, t, th);
    if th.targets[0] == o {
      assert o in th.targets;
    }
  }

  lemma FinishOwner(s: State, p: nat, o: nat)
    requires MutexInv(s, o) && CanFinish(s, p) && OwnerOk(s.objects[o])
    ensures o < |Finish(s, p).objects| && OwnerOk(Finish(s, p).objects[o])
  {
  }

  predicate Unlocks(e: Step, o: nat) {
    e.UnlockStep? && e.o == o
  }

  lemma UnlockOwner(s: State, e: Step, o: nat)
    requires Enabled(s, e) && Unlocks(e, o)
    ensures o < |Apply(s, e).objects| && OwnerOk(Apply(s, e).objects[o])
  {
  }

  lemma StoresOwner(s: State, e: Step, o: nat)
    requires Inv(s) && MutexInv(s, o) && Enabled(s, e) && OwnerOk(s.objects[o])
    requires e.OwnStep? || e.FinishStep? || Unlocks(e, o)
    ensures o < |Apply(s, e).objects| && OwnerOk(Apply(s, e).objects[o])
  {
    if e.OwnStep? {
      OwnOwner(s, e.t, o);
    } else if e.FinishStep? {
      FinishOwner(s, e.o, o);
    } else {
      UnlockOwner(s, e, o);
    }
  }

  lemma KeepsOk(a: Object, b: Object)
    requires Keeps(a, b) && OwnerOk(a)
    ensures OwnerOk(b)
  {
  }

  lemma StepOwner(s: State, e: Step, o: nat)
    requires Inv(s) && MutexInv(s, o) && Enabled(s, e) && OwnerOk(s.objects[o])
    ensures |Apply(s, e).objects| == |s.objects| && OwnerOk(Apply(s, e).objects[o])
  {
    SameObjects(s, e);
    if e.OwnStep? || e.FinishStep? || Unlocks(e, o) {
      StoresOwner(s, e, o);
    } else {
      if WaiterStep(e) {
        WaiterKeepsOwner(s, e, o);
      } else {
        SignallerKeepsOwner(s, e, o);
      }
      KeepsOk(s.objects[o], Apply(s, e).objects[o]);
    }
  }

  lemma SameObjects(s: State, e: Step)
    requires Enabled(s, e)
    ensures |Apply(s, e).objects| == |s.objects|
  {
  }

  // ---------------------------------------------------------------------------
  // Runs
  // ---------------------------------------------------------------------------

  lemma {:induction false} RunOwner(s: State, es: seq<Step>, o: nat)
    requires Inv(s) && MutexInv(s, o) && IsRun(s, es) && TidyRun(s, es) && FairRun(s, es, o) && OwnerOk(s.objects[o])
    ensures MutexInv(Final(s, es), o) && OwnerOk(Final(s, es).objects[o])
    decreases |es|
  {
    if es != [] {
      StepOwner(s, es[0], o);
      StepQueue(s, es[0], o);
      RunOwner(Apply(s, es[0]), es[1..], o);
    }
  }

  /** In every run of disciplined clients from an initial state: once the mutex was unlocked, and while nobody is
      unlocking it, `owner` is nobody or the one holder, and nobody if there is no holder. */
  lemma OwnerNamesHolder(s: State, es: seq<Step>, o: nat)
    requires Initial(s) && o < s.users && s.objects[o].kind.Mutex?
    requires IsRun(s, es) && TidyRun(s, es) && FairRun(s, es, o)
    ensures var f := Final(s, es);
            && o < |f.objects|
            && var ob := f.objects[o];
               ob.lock.Free? && ob.released > 0 ==>
                 && (ob.holders == {} ==> ob.owner.None?)
                 && (ob.owner.Some? ==> ob.holders == {ob.owner.value})
  {
    InitialOk(s);
    InitialMutex(s, o);
    assert InitialObject(s.objects[o]);
    RunOwner(s, es, o);
    var ob := Final(s, es).objects[o];
    if ob.lock.Free? && ob.released > 0 && ob.owner.Some? {
      OnlyMember(ob.holders, ob.owner.value);
    }
  }

  // ---------------------------------------------------------------------------
  // One unlock, from its store of the count to the release of the lock
  // ---------------------------------------------------------------------------

  /** An unlock that found the grants `g` is under way: it has made no grant, or one and chosen that thread. */
  predicate Serving(g: seq<nat>, ob: Object) {
    match ob.lock
    case Free => false
    case Mark(b, _) => ob.grants == g + [b.thread]
    case Exit(who) => ob.grants == if who.Some? then g + [who.value] else g
    case _ => ob.grants == g
  }

  lemma WaiterServing(s: State, e: Step, o: nat, g: seq<nat>)
    requires Enabled(s, e) && o < |s.objects| == |Apply(s, e).objects| && o < s.users
    requires WaiterStep(e) && Serving(g, s.objects[o])
    ensures Serving(g, Apply(s, e).objects[o])
  {
  }

  lemma SignallerServing(s: State, e: Step, o: nat, g: seq<nat>)
    requires Enabled(s, e) && MutexInv(s, o) && |s.objects| == |Apply(s, e).objects|
    requires !WaiterStep(e) && e != FinishStep(o) && Serving(g, s.objects[o])
    ensures Serving(g, Apply(s, e).objects[o])
  {
  }

  lemma {:induction false} RunServing(s: State, es: seq<Step>, o: nat, g: seq<nat>)
    requires Inv(s) && MutexInv(s, o) && IsRun(s, es) && TidyRun(s, es) && FairRun(s, es, o)
    requires FinishStep(o) !in es && Serving(g, s.objects[o])
    ensures Inv(Final(s, es)) && MutexInv(Final(s, es), o) && Serving(g, Final(s, es).objects[o])
    decreases |es|
  {
    if es != [] {
      assert es[0] in es;
      SameObjects(s, es[0]);
      StepQueue(s, es[0], o);
      if WaiterStep(es[0]) {
        WaiterServing(s, es[0], o, g);
      } else {
        SignallerServing(s, es[0], o, g);
      }
      RunServing(Apply(s, es[0]), es[1..], o, g);
    }
  }

  /** When `mutex_unlock` releases the lock, whatever happened since it took it: either it has granted the mutex to
      one thread, which then is the holder and the owner, or it has granted it to nobody, and there is neither
      a holder nor an owner. */
  lemma UnlockHandsOver(s: State, t: nat, o: nat, es: seq<Step>)
    requires Inv(s) && MutexInv(s, o) && Enabled(s, UnlockStep(t, o)) && Fair(s, UnlockStep(t, o), o)
    requires var s' := Apply(s, UnlockStep(t, o));
             IsRun(s', es) && TidyRun(s', es) && FairRun(s', es, o) && FinishStep(o) !in es
    requires Enabled(Final(Apply(s, UnlockStep(t, o)), es), FinishStep(o))
    ensures var a, f := s.objects[o], Final(Apply(s, UnlockStep(t, o)), es);
            && o < |f.objects|
            && var b := Apply(f, FinishStep(o)).objects[o];
               && b.lock.Free?
               && (|| (b.grants == a.grants && b.holders == {} && b.owner.None?)
                   || (|b.grants| == |a.grants| + 1 && a.grants <= b.grants &&
                       var u := b.grants[|a.grants|]; b.holders == {u} && b.owner == Some(u)))
  {
    var s' := Apply(s, UnlockStep(t, o));
    StepQueue(s, UnlockStep(t, o), o);
    RunServing(s', es, o, s.objects[o].grants);
  }
}
