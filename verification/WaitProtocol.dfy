/** The dispatch protocol of `kernel/core/wait.c` with its clients `mutex.c`, `semaphore.c`
    and `timer.c`, as a step system over any number of threads and objects.

    A step is one access to shared memory: what happens between taking and releasing an object
    lock is split wherever the code touches a word that somebody reads or writes without that
    lock. These are a thread's `wait_status` and, because a poll returns without taking the
    lock, the `status` of a waitblock. */
module WaitProtocol {
  import opened Common

  /** `enum wait_status`. */
  datatype WaitStatus = InProgress | Committed | Satisfied

  /** `enum waitblock_status`. */
  datatype BlockStatus = Active | Inactive | Signaled

  /** `enum timer_state`. */
  datatype TimerState = Stopped | Pending | Running

  /** The timeout argument: 0, a finite number of nanoseconds, or -1. */
  datatype Timeout = Poll | After(ns: nat) | Forever

  datatype Kind = Mutex | Semaphore | Timer

  /** The waitblock thread `thread` uses for the object at position `index` of its wait. */
  datatype Block = Block(thread: nat, index: nat)

  /** Where the holder of an object's lock stands in `try_satisfy_dispatch_object`. */
  datatype Lock =
    | Free
    | Loop                  // at the head of the while loop
    | Try1(block: Block)    // unlinked `block`, about to swap IN_PROGRESS for SATISFIED
    | Try2(block: Block)    // that swap failed, about to swap COMMITTED for SATISFIED
    | Try3(block: Block)    // both swaps failed, about to load the status
    | Skip(block: Block)    // that was SATISFIED, about to store INACTIVE
    | Mark(block: Block, wake: bool)  // a swap succeeded, about to store SIGNALED and to wake
    | Exit(thread: Option<nat>)

  /** `struct dispatch_header` with the fields of its mutex or timer wrapper.
      The last six fields are history: they are never read by a step. */
  datatype Object = Object(
    kind: Kind, count: int, queue: seq<Block>, lock: Lock,
    owner: Option<nat>,
    timer: TimerState, inHeap: bool, deadline: nat,
    initial: int, released: nat, delivered: nat,
    arrivals: seq<nat>, grants: seq<nat>, holders: set<nat>)

  /** Where a thread stands in `wait_any`. The probe loop is at index `|blocks|`. */
  datatype Pc =
    | Idle
    | Probing
    | Checking              // at the test for an early satisfaction
    | BackingOut(next: nat)
    | Arming
    | Committing
    | Sleeping
    | Disarming
    | Sweeping(next: nat)
    | Owning                // `mutex_lock` after its wait returned

  /** The part of `struct thread` that takes part in a wait, with the locals of `wait_any`.
      `targets` ends with the stack timer when the timeout is finite. `winner`, `moves`, `committed`,
      `wakes` and `pending` are history: the target that satisfied the wait, how often the status was
      moved to SATISFIED, whether the wait committed, how often the thread was woken, and whether
      the signaller that satisfied the wait has yet to store into its waitblock. */
  datatype Thread = Thread(
    status: WaitStatus, pc: Pc, targets: seq<nat>, timeout: Timeout, locking: bool,
    blocks: seq<BlockStatus>, satisfier: int, token: bool, result: int,
    winner: int, moves: nat, committed: bool, wakes: nat, pending: bool)

  /** Corrupt: `TAILQ_REMOVE` was applied to a waitblock that is on no queue, or
      `TAILQ_INSERT_TAIL` to one that is on a queue. */
  datatype Halt = Live | Panicked | Corrupt

  /** Objects 0..users-1 are shared; object users + t is the stack timer of thread t. */
  datatype State = State(threads: seq<Thread>, objects: seq<Object>, users: nat, now: nat, halt: Halt)

  predicate WellFormed(s: State) {
    |s.objects| == s.users + |s.threads|
  }

  function StackTimer(s: State, t: nat): nat {
    s.users + t
  }

  function TimerIndex(th: Thread): int {
    if th.timeout.After? then |th.targets| - 1 else -1
  }

  // ---------------------------------------------------------------------------
  // Elementary updates
  // ---------------------------------------------------------------------------

  /** `dispatch_object_consume`: a notification object stays signaled. */
  function Consume(ob: Object): Object {
    if ob.kind.Timer? then ob else ob.(count := ob.count - 1)
  }

  /** The history of a wait satisfied by `ob`. */
  function Deliver(ob: Object, t: nat): Object {
    ob.(delivered := ob.delivered + 1, holders := ob.holders + {t})
  }

  function Satisfy(th: Thread, i: nat): Thread {
    th.(status := Satisfied, winner := i, moves := th.moves + 1)
  }

  function With(s: State, t: nat, th: Thread, o: nat, ob: Object): State
    requires t < |s.threads| && o < |s.objects|
  {
    s.(threads := s.threads[t := th], objects := s.objects[o := ob])
  }

  function WithThread(s: State, t: nat, th: Thread): State
    requires t < |s.threads|
  {
    s.(threads := s.threads[t := th])
  }

  function WithObject(s: State, o: nat, ob: Object): State
    requires o < |s.objects|
  {
    s.(objects := s.objects[o := ob])
  }

  // ---------------------------------------------------------------------------
  // Steps of a waiter
  // ---------------------------------------------------------------------------

  /** Entry of `wait_any` (lines 40-55). */
  predicate CanBegin(s: State, t: nat, os: seq<nat>, timeout: Timeout, locking: bool) {
    && WellFormed(s) && t < |s.threads| && s.threads[t].pc.Idle?
    && (forall i :: 0 <= i < |os| ==> os[i] < s.users)
    && (locking ==> |os| == 1 && s.objects[os[0]].kind.Mutex?)
  }

  function InitTimer(): Object {
    Object(Timer, 0, [], Free, None, Stopped, false, 0, 0, 0, 0, [], [], {})
  }

  function Begin(s: State, t: nat, os: seq<nat>, timeout: Timeout, locking: bool): State
    requires CanBegin(s, t, os, timeout, locking)
  {
    var targets := if timeout.After? then os + [StackTimer(s, t)] else os;
    var th := Thread(InProgress, Probing, targets, timeout, locking, [], -1, false, s.threads[t].result,
                     -1, 0, false, 0, false);
    if timeout.After? then With(s, t, th, StackTimer(s, t), InitTimer()) else WithThread(s, t, th)
  }

  predicate CanProbe(s: State, t: nat) {
    && t < |s.threads|
    && var th := s.threads[t];
    && th.pc.Probing? && |th.blocks| <= |th.targets|
    && (|th.blocks| < |th.targets| ==>
          var o := th.targets[|th.blocks|]; o < |s.objects| && s.objects[o].lock.Free?)
  }

  /** Waitblock `i` of the thread is on a queue; the one of the stack timer is fresh stack memory. */
  predicate Dangling(s: State, t: nat, i: nat)
    requires t < |s.threads|
  {
    && i != TimerIndex(s.threads[t])
    && exists o :: 0 <= o < |s.objects| && o < s.users && Block(t, i) in s.objects[o].queue
  }

  /** One iteration of the probe loop (lines 57-89), or its exit (lines 92, 116). */
  function Probe(s: State, t: nat): State
    requires CanProbe(s, t)
  {
    var th := s.threads[t];
    var i := |th.blocks|;
    if i == |th.targets| then
      WithThread(s, t, th.(pc := match th.timeout
                                 case Poll => Checking
                                 case After(_) => Arming
                                 case Forever => Committing))
    else
      var o := th.targets[i];
      var ob := s.objects[o];
      if ob.count > 0 && th.status.InProgress? then
        With(s, t, Satisfy(th, i).(satisfier := i, pc := Checking), o, Deliver(Consume(ob), t))
      else if ob.count > 0 then
        WithThread(s, t, th.(satisfier := i, pc := Checking))
      else if Dangling(s, t, i) then s.(halt := Corrupt)
      else
        With(s, t, th.(blocks := th.blocks + [Active]),
             o, ob.(queue := ob.queue + [Block(t, i)], arrivals := ob.arrivals + [t]))
  }

  predicate CanCheck(s: State, t: nat) {
    t < |s.threads| && s.threads[t].pc.Checking?
  }

  /** Lines 92-97. */
  function Check(s: State, t: nat): State
    requires CanCheck(s, t)
  {
    var th := s.threads[t];
    if th.status.Satisfied? then WithThread(s, t, th.(pc := BackingOut(0))) else s.(halt := Panicked)
  }

  /** Leaving `wait_any`; `mutex_lock` still has to record the owner. */
  function Return(th: Thread, result: int): Thread {
    th.(pc := if th.locking then Owning else Idle, result := result)
  }

  predicate CanBackOut(s: State, t: nat) {
    && t < |s.threads|
    && var th := s.threads[t];
    && th.pc.BackingOut?
    && (th.pc.next < th.satisfier ==>
          && th.pc.next < |th.blocks| <= |th.targets|
          && var o := th.targets[th.pc.next]; o < |s.objects| && s.objects[o].lock.Free?)
  }

  /** One iteration of the removal loop (lines 100-108), or the return (line 113).
      The unlinking is unconditional. */
  function BackOut(s: State, t: nat): State
    requires CanBackOut(s, t)
  {
    var th := s.threads[t];
    var i := th.pc.next;
    if i >= th.satisfier then WithThread(s, t, Return(th, th.satisfier))
    else
      var o := th.targets[i];
      var ob := s.objects[o];
      if Block(t, i) in ob.queue then
        With(s, t, th.(blocks := th.blocks[i := Inactive], pc := BackingOut(i + 1)),
             o, ob.(queue := Remove(ob.queue, Block(t, i))))
      else s.(halt := Corrupt)
  }

  predicate CanArm(s: State, t: nat) {
    && WellFormed(s) && t < |s.threads|
    && s.threads[t].pc.Arming? && s.threads[t].timeout.After?
    && s.objects[StackTimer(s, t)].lock.Free?
  }

  /** `timer_start`: it does nothing unless the timer is stopped. */
  function StartTimer(ob: Object, deadline: nat): Object {
    if ob.timer.Stopped? then ob.(timer := Pending, inHeap := true, deadline := deadline) else ob
  }

  /** `timer_stop`; a running timer holds the lock, so it is never seen here. */
  function StopTimer(ob: Object): Object {
    if ob.timer.Stopped? then ob
    else ob.(timer := Stopped, inHeap := if ob.timer.Pending? then false else ob.inHeap)
  }

  function Arm(s: State, t: nat): State
    requires CanArm(s, t)
  {
    var th := s.threads[t];
    var o := StackTimer(s, t);
    With(s, t, th.(pc := Committing), o, StartTimer(s.objects[o], s.now + th.timeout.ns))
  }

  function Woken(th: Thread): Pc {
    if th.timeout.Forever? then Sweeping(0) else Disarming
  }

  predicate CanCommit(s: State, t: nat) {
    t < |s.threads| && s.threads[t].pc.Committing?
  }

  /** Line 126. */
  function Commit(s: State, t: nat): State
    requires CanCommit(s, t)
  {
    var th := s.threads[t];
    if th.status.InProgress? then
      WithThread(s, t, th.(status := Committed, committed := true, pc := Sleeping))
    else WithThread(s, t, th.(pc := Woken(th)))
  }

  predicate CanWake(s: State, t: nat) {
    t < |s.threads| && s.threads[t].pc.Sleeping? && s.threads[t].token
  }

  /** `sched_wait` returns once `sched_wake` was called. */
  function Wake(s: State, t: nat): State
    requires CanWake(s, t)
  {
    var th := s.threads[t];
    WithThread(s, t, th.(token := false, pc := Woken(th)))
  }

  predicate CanDisarm(s: State, t: nat) {
    && WellFormed(s) && t < |s.threads|
    && s.threads[t].pc.Disarming?
    && s.objects[StackTimer(s, t)].lock.Free?
  }

  function Disarm(s: State, t: nat): State
    requires CanDisarm(s, t)
  {
    var o := StackTimer(s, t);
    With(s, t, s.threads[t].(pc := Sweeping(0)), o, StopTimer(s.objects[o]))
  }

  predicate CanSweep(s: State, t: nat) {
    && t < |s.threads|
    && var th := s.threads[t];
    && th.pc.Sweeping?
    && (th.pc.next < |th.targets| ==>
          && th.pc.next < |th.blocks|
          && var o := th.targets[th.pc.next]; o < |s.objects| && s.objects[o].lock.Free?)
  }

  /** One iteration of the loop that looks for the satisfier (lines 140-169), or the return. */
  function Sweep(s: State, t: nat): State
    requires CanSweep(s, t)
  {
    var th := s.threads[t];
    var i := th.pc.next;
    if i >= |th.targets| then
      WithThread(s, t, Return(th, if th.satisfier == TimerIndex(th) then -1 else th.satisfier))
    else
      var o := th.targets[i];
      var ob := s.objects[o];
      match th.blocks[i]
      case Active =>
        if Block(t, i) in ob.queue then
          With(s, t, th.(pc := Sweeping(i + 1)), o, ob.(queue := Remove(ob.queue, Block(t, i))))
        else s.(halt := Corrupt)
      case Signaled =>
        if th.satisfier != -1 then s.(halt := Panicked)
        else WithThread(s, t, th.(pc := Sweeping(i + 1), satisfier := i))
      case Inactive => WithThread(s, t, th.(pc := Sweeping(i + 1)))
  }

  predicate CanOwn(s: State, t: nat) {
    && t < |s.threads| && s.threads[t].pc.Owning?
    && |s.threads[t].targets| > 0 && s.threads[t].targets[0] < |s.objects|
  }

  /** `mutex_lock`, line 16. */
  function Own(s: State, t: nat): State
    requires CanOwn(s, t)
  {
    var o := s.threads[t].targets[0];
    With(s, t, s.threads[t].(pc := Idle), o, s.objects[o].(owner := Some(t)))
  }

  // ---------------------------------------------------------------------------
  // Steps of a signaller
  // ---------------------------------------------------------------------------

  predicate CanUnlock(s: State, t: nat, o: nat) {
    && t < |s.threads| && o < |s.objects| && o < s.users && s.threads[t].pc.Idle?
    && s.objects[o].kind.Mutex? && s.objects[o].lock.Free?
  }

  /** `mutex_unlock` up to the call of `try_satisfy_dispatch_object`. */
  function Unlock(s: State, t: nat, o: nat): State
    requires CanUnlock(s, t, o)
  {
    var ob := s.objects[o];
    WithObject(s, o, ob.(count := 1, lock := Loop, released := ob.released + 1, holders := ob.holders - {t}))
  }

  predicate CanRelease(s: State, o: nat) {
    o < |s.objects| && o < s.users && s.objects[o].kind.Semaphore? && s.objects[o].lock.Free?
  }

  /** `semaphore_release` up to the call. */
  function Release(s: State, o: nat): State
    requires CanRelease(s, o)
  {
    var ob := s.objects[o];
    WithObject(s, o, ob.(count := ob.count + 1, lock := Loop, released := ob.released + 1))
  }

  predicate CanExpire(s: State, o: nat) {
    && o < |s.objects| && s.objects[o].kind.Timer? && s.objects[o].lock.Free?
    && s.objects[o].inHeap && s.objects[o].deadline <= s.now && s.objects[o].timer.Pending?
  }

  /** `timer_handle_expiry` up to the call: pop, PENDING to RUNNING, lock. */
  function Expire(s: State, o: nat): State
    requires CanExpire(s, o)
  {
    var ob := s.objects[o];
    WithObject(s, o, ob.(inHeap := false, timer := Running, count := 1, lock := Loop,
                         released := ob.released + 1))
  }

  predicate CanDrain(s: State, o: nat) {
    o < |s.objects| && s.objects[o].lock.Loop?
  }

  /** The head of the loop (lines 187-194). */
  function Drain(s: State, o: nat): State
    requires CanDrain(s, o)
  {
    var ob := s.objects[o];
    if ob.queue != [] && ob.count > 0 then
      WithObject(s, o, ob.(queue := ob.queue[1..], lock := Try1(ob.queue[0])))
    else WithObject(s, o, ob.(lock := Exit(None)))
  }

  /** After a satisfied waitblock: go on for a notification object, return otherwise. */
  function AfterOne(ob: Object, t: nat): Lock {
    if ob.kind.Timer? then Loop else Exit(Some(t))
  }

  /** The signaller has unlinked a waitblock and not yet decided about it. */
  predicate Trying(lock: Lock) {
    lock.Try1? || lock.Try2? || lock.Try3? || lock.Skip?
  }

  predicate InFlight(s: State, o: nat) {
    o < |s.objects| && Trying(s.objects[o].lock) && s.objects[o].lock.block.thread < |s.threads|
  }

  /** A successful swap (line 203 or 209). The signal is consumed under the lock; the store into the
      waitblock comes later. */
  function Swap(s: State, o: nat, wake: bool): State
    requires InFlight(s, o)
  {
    var ob := s.objects[o];
    var b := ob.lock.block;
    With(s, b.thread, Satisfy(s.threads[b.thread], b.index).(pending := true),
         o, Deliver(Consume(ob), b.thread).(lock := Mark(b, wake), grants := ob.grants + [b.thread]))
  }

  /** The waitblocks of the thread after a store into `b` by the signaller of `o`. If the thread has
      gone on to another wait, that wait's waitblock of the same index is hit. */
  function Stored(s: State, o: nat, b: Block, v: BlockStatus): seq<BlockStatus>
    requires b.thread < |s.threads|
  {
    var th := s.threads[b.thread];
    if b.index < |th.blocks| && (o >= s.users <==> b.index == TimerIndex(th)) then th.blocks[b.index := v]
    else th.blocks
  }

  predicate CanStore(s: State, o: nat) {
    o < |s.objects| && s.objects[o].lock.Mark? && s.objects[o].lock.block.thread < |s.threads|
  }

  /** The waitblock becomes SIGNALED and a committed thread is woken (lines 205, 213-215). */
  function Store(s: State, o: nat): State
    requires CanStore(s, o)
  {
    var ob := s.objects[o];
    var b := ob.lock.block;
    var th := s.threads[b.thread];
    With(s, b.thread,
         th.(blocks := Stored(s, o, b, Signaled), pending := false, token := th.token || ob.lock.wake,
             wakes := if ob.lock.wake then th.wakes + 1 else th.wakes),
         o, ob.(lock := AfterOne(ob, b.thread)))
  }

  predicate CanSkip(s: State, o: nat) {
    InFlight(s, o) && s.objects[o].lock.Skip?
  }

  /** The waitblock of a wait that somebody else satisfied becomes INACTIVE (line 221). */
  function SkipOver(s: State, o: nat): State
    requires CanSkip(s, o)
  {
    var ob := s.objects[o];
    var b := ob.lock.block;
    With(s, b.thread, s.threads[b.thread].(blocks := Stored(s, o, b, Inactive)), o, ob.(lock := Loop))
  }

  predicate CanTry1(s: State, o: nat) {
    InFlight(s, o) && s.objects[o].lock.Try1?
  }

  /** The swap of case 1 (line 203). */
  function First(s: State, o: nat): State
    requires CanTry1(s, o)
  {
    var ob := s.objects[o];
    if s.threads[ob.lock.block.thread].status.InProgress? then Swap(s, o, false)
    else WithObject(s, o, ob.(lock := Try2(ob.lock.block)))
  }

  predicate CanTry2(s: State, o: nat) {
    InFlight(s, o) && s.objects[o].lock.Try2?
  }

  /** The swap of case 2 (line 209). */
  function Second(s: State, o: nat): State
    requires CanTry2(s, o)
  {
    var ob := s.objects[o];
    if s.threads[ob.lock.block.thread].status.Committed? then Swap(s, o, true)
    else WithObject(s, o, ob.(lock := Try3(ob.lock.block)))
  }

  predicate CanTry3(s: State, o: nat) {
    InFlight(s, o) && s.objects[o].lock.Try3?
  }

  /** The load of case 3 (line 219). When the status is none of the three the code falls through
      and reports the thread as satisfied. */
  function Third(s: State, o: nat): State
    requires CanTry3(s, o)
  {
    var ob := s.objects[o];
    var b := ob.lock.block;
    if s.threads[b.thread].status.Satisfied? then WithObject(s, o, ob.(lock := Skip(b)))
    else WithObject(s, o, ob.(lock := AfterOne(ob, b.thread)))
  }

  predicate CanFinish(s: State, o: nat) {
    o < |s.objects| && s.objects[o].lock.Exit?
  }

  /** The caller's last write and the release of the lock. */
  function Finish(s: State, o: nat): State
    requires CanFinish(s, o)
  {
    var ob := s.objects[o];
    WithObject(s, o, match ob.kind
                     case Mutex => ob.(lock := Free, owner := ob.lock.thread)
                     case Semaphore => ob.(lock := Free)
                     case Timer => ob.(lock := Free, timer := Stopped))
  }

  predicate CanUseTimer(s: State, o: nat) {
    o < |s.objects| && o < s.users && s.objects[o].kind.Timer? && s.objects[o].lock.Free?
  }

  // ---------------------------------------------------------------------------
  // Runs
  // ---------------------------------------------------------------------------

  datatype Step =
    | BeginStep(t: nat, os: seq<nat>, timeout: Timeout, locking: bool)
    | ProbeStep(t: nat)
    | CheckStep(t: nat)
    | BackOutStep(t: nat)
    | ArmStep(t: nat)
    | CommitStep(t: nat)
    | WakeStep(t: nat)
    | DisarmStep(t: nat)
    | SweepStep(t: nat)
    | OwnStep(t: nat)
    | UnlockStep(t: nat, o: nat)
    | ReleaseStep(o: nat)
    | ExpireStep(o: nat)
    | DrainStep(o: nat)
    | FirstStep(o: nat)
    | SecondStep(o: nat)
    | ThirdStep(o: nat)
    | StoreStep(o: nat)
    | SkipStep(o: nat)
    | FinishStep(o: nat)
    | StartStep(o: nat, ns: nat)
    | StopStep(o: nat)
    | TickStep

  predicate Enabled(s: State, e: Step) {
    s.halt.Live? &&
    match e
    case BeginStep(t, os, timeout, locking) => CanBegin(s, t, os, timeout, locking)
    case ProbeStep(t) => CanProbe(s, t)
    case CheckStep(t) => CanCheck(s, t)
    case BackOutStep(t) => CanBackOut(s, t)
    case ArmStep(t) => CanArm(s, t)
    case CommitStep(t) => CanCommit(s, t)
    case WakeStep(t) => CanWake(s, t)
    case DisarmStep(t) => CanDisarm(s, t)
    case SweepStep(t) => CanSweep(s, t)
    case OwnStep(t) => CanOwn(s, t)
    case UnlockStep(t, o) => CanUnlock(s, t, o)
    case ReleaseStep(o) => CanRelease(s, o)
    case ExpireStep(o) => CanExpire(s, o)
    case DrainStep(o) => CanDrain(s, o)
    case FirstStep(o) => CanTry1(s, o)
    case SecondStep(o) => CanTry2(s, o)
    case ThirdStep(o) => CanTry3(s, o)
    case StoreStep(o) => CanStore(s, o)
    case SkipStep(o) => CanSkip(s, o)
    case FinishStep(o) => CanFinish(s, o)
    case StartStep(o, _) => CanUseTimer(s, o)
    case StopStep(o) => CanUseTimer(s, o)
    case TickStep => true
  }

  function Apply(s: State, e: Step): State
    requires Enabled(s, e)
  {
    match e
    case BeginStep(t, os, timeout, locking) => Begin(s, t, os, timeout, locking)
    case ProbeStep(t) => Probe(s, t)
    case CheckStep(t) => Check(s, t)
    case BackOutStep(t) => BackOut(s, t)
    case ArmStep(t) => Arm(s, t)
    case CommitStep(t) => Commit(s, t)
    case WakeStep(t) => Wake(s, t)
    case DisarmStep(t) => Disarm(s, t)
    case SweepStep(t) => Sweep(s, t)
    case OwnStep(t) => Own(s, t)
    case UnlockStep(t, o) => Unlock(s, t, o)
    case ReleaseStep(o) => Release(s, o)
    case ExpireStep(o) => Expire(s, o)
    case DrainStep(o) => Drain(s, o)
    case FirstStep(o) => First(s, o)
    case SecondStep(o) => Second(s, o)
    case ThirdStep(o) => Third(s, o)
    case StoreStep(o) => Store(s, o)
    case SkipStep(o) => SkipOver(s, o)
    case FinishStep(o) => Finish(s, o)
    case StartStep(o, ns) => WithObject(s, o, StartTimer(s.objects[o], s.now + ns))
    case StopStep(o) => WithObject(s, o, StopTimer(s.objects[o]))
    case TickStep => s.(now := s.now + 1)
  }

  /** `es` can be taken one after the other from `s`. */
  ghost predicate IsRun(s: State, es: seq<Step>)
    decreases |es|
  {
    es == [] || (Enabled(s, es[0]) && IsRun(Apply(s, es[0]), es[1..]))
  }

  ghost function Final(s: State, es: seq<Step>): State
    requires IsRun(s, es)
    decreases |es|
  {
    if es == [] then s else Final(Apply(s, es[0]), es[1..])
  }

  // ---------------------------------------------------------------------------
  // Initial states: mutex_init, semaphore_init, timer_init
  // ---------------------------------------------------------------------------

  predicate InitialObject(ob: Object) {
    && ob.queue == [] && ob.lock.Free? && ob.timer.Stopped? && !ob.inHeap
    && ob.initial == ob.count && ob.released == 0 && ob.delivered == 0
    && ob.arrivals == [] && ob.grants == [] && ob.holders == {}
    && (ob.kind.Mutex? ==> ob.count == 1)
    && (ob.kind.Timer? ==> ob.count == 0)
  }

  predicate InitialThread(th: Thread) {
    th.pc.Idle? && th.blocks == [] && !th.token && th.status.InProgress? && th.winner == -1 && th.moves == 0 &&
    !th.committed && th.wakes == 0 && !th.pending
  }

  predicate Initial(s: State) {
    && WellFormed(s) && s.halt.Live?
    && (forall t :: 0 <= t < |s.threads| ==> InitialThread(s.threads[t]))
    && (forall o :: 0 <= o < |s.objects| ==> InitialObject(s.objects[o]))
    && (forall o :: s.users <= o < |s.objects| ==> s.objects[o].kind.Timer?)
  }
}
