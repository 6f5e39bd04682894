/** Recent run and sleep times, the interactivity score and the computed priority
    (`kernel/core/sched/ule.c`), in the 64-bit and 8-bit arithmetic of the kernel. */
module Interactivity {
  import opened Common
  import opened RunQueues

  const WORD: nat := 0x1_0000_0000_0000_0000
  const MAX_TIME: nat := 5000
  const SCALING_FACTOR: nat := 50
  const INTERACTIVITY_THRESHOLD: nat := 30
  const PRIO_INTERACTIVE: nat := 20
  const HZ: nat := 100

  /** `runtime` and `sleeptime` of a thread, in milliseconds. */
  datatype Times = Times(run: nat, sleep: nat)

  predicate Words(t: Times) {
    t.run < WORD && t.sleep < WORD
  }

  predicate IsNice(nice: int) {
    -128 <= nice <= 127
  }

  // ---------------------------------------------------------------------------
  // Clamping
  // ---------------------------------------------------------------------------

  /** `sched_clamp_time`; the sum is taken modulo 2^64. */
  function Clamp(t: Times): Times {
    var sum := (t.run + t.sleep) % WORD;
    if sum < MAX_TIME then t
    else if sum > MAX_TIME * 2 then if t.run > t.sleep then Times(MAX_TIME, 1) else Times(1, MAX_TIME)
    else if sum > MAX_TIME / 5 * 6 then Times(t.run / 2, t.sleep / 2)
    else Times(t.run / 5 * 4, t.sleep / 5 * 4)
  }

  predicate Bounded(t: Times) {
    t.run + t.sleep <= MAX_TIME + 1
  }

  /** The clamp bounds the sum exactly if the sum does not wrap to 10000 or less. */
  lemma ClampBounds(t: Times)
    requires Words(t)
    ensures Words(Clamp(t))
    ensures Bounded(Clamp(t)) <==> t.run + t.sleep < WORD || t.run + t.sleep - WORD > 2 * MAX_TIME
  {
    var sum := t.run + t.sleep;
    assert sum % WORD == if sum < WORD then sum else sum - WORD;
  }

  /** If the sum does not wrap, the clamp does not turn round which of the times is longer and raises neither above
      what it was or 1. */
  lemma ClampOrder(t: Times)
    requires t.run + t.sleep < WORD
    ensures var c := Clamp(t);
            && (t.run > t.sleep ==> c.run >= c.sleep) && (t.run <= t.sleep ==> c.run <= c.sleep)
            && (c.run <= t.run || c.run == 1) && (c.sleep <= t.sleep || c.sleep == 1)
  {
    assert (t.run + t.sleep) % WORD == t.run + t.sleep;
    Decayed(t.run);
    Decayed(t.sleep);
    DecaysOrdered(t.run, t.sleep);
    DecaysOrdered(t.sleep, t.run);
  }

  /** What it then leaves of them: all below 5000 ms, four fifths of both up to 6000 ms and half of both up to 10000 ms,
      but for rounding, and 5001 ms in all beyond that. */
  lemma ClampKeeps(t: Times)
    requires t.run + t.sleep < WORD
    ensures var c, sum := Clamp(t), t.run + t.sleep;
            if sum < MAX_TIME then c == t
            else if sum <= 6000 then FourFifths(t.run, c.run) && FourFifths(t.sleep, c.sleep)
            else if sum <= 2 * MAX_TIME then Half(t.run, c.run) && Half(t.sleep, c.sleep)
            else c.run + c.sleep == MAX_TIME + 1
  {
    assert (t.run + t.sleep) % WORD == t.run + t.sleep;
    Decayed(t.run);
    Decayed(t.sleep);
  }

  predicate FourFifths(x: nat, y: nat) {
    5 * y <= 4 * x < 5 * y + 20
  }

  predicate Half(x: nat, y: nat) {
    2 * y <= x < 2 * y + 2
  }

  lemma Decayed(x: nat)
    ensures FourFifths(x, x / 5 * 4) && x / 5 * 4 <= x && Half(x, x / 2)
  {
  }

  lemma DecaysOrdered(x: nat, y: nat)
    ensures x <= y ==> x / 5 * 4 <= y / 5 * 4 && x / 2 <= y / 2
  {
  }

  /** `TICKS_TO_MS`. */
  function TicksToMs(ticks: nat): nat {
    (ticks * 1000) % WORD / HZ
  }

  /** The sleep time `sched_wake` charges, from the waking CPU's clock. */
  function Elapsed(now: nat, start: nat): nat {
    (TicksToMs(now) - start) % WORD
  }

  datatype Event = Ticked | Woke(now: nat, start: nat)

  /** The times after a clock tick while running, or after waking. */
  function Charged(t: Times, e: Event): Times {
    match e
    case Ticked => Clamp(t.(run := (t.run + TicksToMs(1)) % WORD))
    case Woke(now, start) => Clamp(t.(sleep := Elapsed(now, start)))
  }

  /** The waking CPU's clock is not behind the one the sleep started on, and the sleep is shorter than
      the word leaves room for. */
  predicate Forward(e: Event) {
    e.Woke? ==> e.start <= TicksToMs(e.now) && TicksToMs(e.now) - e.start < WORD - 2 * MAX_TIME
  }

  /** A tick keeps the bound; waking keeps it exactly if run time and elapsed time do not wrap. */
  lemma ChargedBounds(t: Times, e: Event)
    requires Bounded(t)
    ensures Bounded(Charged(t, e)) <==> e.Ticked? || t.run + Elapsed(e.now, e.start) < WORD
  {
    match e
    case Ticked => TickBounds(t);
    case Woke(now, start) => WakeBounds(t, Elapsed(now, start));
  }

  lemma TickBounds(t: Times)
    requires Bounded(t)
    ensures Bounded(Charged(t, Ticked))
  {
    assert TicksToMs(1) == 10;
    var t' := t.(run := t.run + 10);
    assert (t.run + 10) % WORD == t.run + 10;
    ClampBounds(t');
  }

  lemma WakeBounds(t: Times, sleep: nat)
    requires Bounded(t) && sleep < WORD
    ensures Bounded(Clamp(t.(sleep := sleep))) <==> t.run + sleep < WORD
  {
    ClampBounds(t.(sleep := sleep));
  }

  function ChargedAll(t: Times, events: seq<Event>): Times
    decreases |events|
  {
    if events == [] then t else ChargedAll(Charged(t, events[0]), events[1..])
  }

  /** Over every run of ticks and wake-ups with forward clocks, the sum stays at most 5001 ms. */
  lemma {:induction false} RunBounded(t: Times, events: seq<Event>)
    requires Bounded(t) && forall i :: 0 <= i < |events| ==> Forward(events[i])
    ensures Bounded(ChargedAll(t, events))
    decreases |events|
  {
    if events != [] {
      ForwardElapsed(events[0]);
      ChargedBounds(t, events[0]);
      RunBounded(Charged(t, events[0]), events[1..]);
    }
  }

  /** Ticks add up: while the sum stays below 5000 ms, n ticks charge 10 n ms of run time and no sleep. */
  lemma {:induction false} TicksAddUp(t: Times, events: seq<Event>)
    requires (forall i :: 0 <= i < |events| ==> events[i].Ticked?) && t.run + 10 * |events| + t.sleep < MAX_TIME
    ensures ChargedAll(t, events) == t.(run := t.run + 10 * |events|)
    decreases |events|
  {
    if events != [] {
      assert Charged(t, events[0]) == t.(run := t.run + 10);
      TicksAddUp(t.(run := t.run + 10), events[1..]);
    }
  }

  /** A wake-up charges the time slept, in place of what was charged before. */
  lemma WokeCharges(t: Times, now: nat, start: nat)
    requires now * 1000 < WORD && start <= now * 10 && t.run + (now * 10 - start) < MAX_TIME
    ensures Charged(t, Woke(now, start)) == t.(sleep := now * 10 - start)
  {
    assert TicksToMs(now) == now * 10;
  }

  lemma ForwardElapsed(e: Event)
    requires Forward(e)
    ensures e.Woke? ==> Elapsed(e.now, e.start) < WORD - 2 * MAX_TIME
  {
  }

  /** Waking on a CPU whose clock is 10 ms behind leaves a sleep time near 2^64 in place. */
  lemma ClockBehind()
    ensures var t := Charged(Times(10, 0), Woke(0, 10)); t == Times(10, WORD - 10) && !Bounded(t)
  {
  }

  // ---------------------------------------------------------------------------
  // The score
  // ---------------------------------------------------------------------------

  /** `interactive_score`. */
  function Score(t: Times, nice: int): int {
    if t.sleep == 0 then 100
    else if t.run == 0 then 0
    else if t.sleep > t.run then SCALING_FACTOR / (t.sleep / t.run) + nice
    else SCALING_FACTOR / (t.run / t.sleep) + SCALING_FACTOR + nice
  }

  predicate Interactive(t: Times, nice: int) {
    Score(t, nice) < INTERACTIVITY_THRESHOLD
  }

  lemma Quotient(a: nat, b: nat)
    requires a >= b > 0
    ensures 1 <= a / b && 0 <= SCALING_FACTOR / (a / b) <= SCALING_FACTOR
  {
    assert a == b * (a / b) + a % b;
    assert a / b >= 1;
    var q := a / b;
    assert SCALING_FACTOR == q * (SCALING_FACTOR / q) + SCALING_FACTOR % q;
  }

  lemma ScoreRange(t: Times, nice: int)
    requires IsNice(nice)
    ensures t.sleep == 0 ==> Score(t, nice) == 100
    ensures t.sleep > 0 && t.run == 0 ==> Score(t, nice) == 0
    ensures t.sleep > t.run > 0 ==> nice <= Score(t, nice) <= nice + 50
    ensures 0 < t.sleep <= t.run ==> nice + 50 <= Score(t, nice) <= nice + 100
  {
    if t.sleep > t.run > 0 {
      Quotient(t.sleep, t.run);
    } else if 0 < t.sleep <= t.run {
      Quotient(t.run, t.sleep);
    }
  }

  lemma DivAnti(n: nat, a: nat, b: nat)
    requires 0 < a <= b
    ensures n / b <= n / a
  {
    var q := n / b;
    DivBounds(n, b);
    DivBounds(n, a);
    if n / a < q {
      MulMono(n / a + 1, q, a);
      MulMono(a, b, q);
    }
  }

  lemma DivMono(m: nat, n: nat, a: nat)
    requires a > 0 && m <= n
    ensures m / a <= n / a
  {
    DivBounds(m, a);
    DivBounds(n, a);
    if m / a > n / a {
      MulMono(n / a + 1, m / a, a);
    }
  }

  /** Among threads that slept longer than they ran, more sleep never raises the score and more run time never
      lowers it. */
  lemma SleepersOrdered(a: Times, b: Times, nice: int)
    requires 0 < a.run <= b.run && b.sleep <= a.sleep && b.run < b.sleep
    ensures Score(a, nice) <= Score(b, nice)
  {
    DivMono(b.sleep, a.sleep, b.run);
    DivAnti(a.sleep, a.run, b.run);
    QuotientPositive(b.sleep, b.run);
    DivAnti(SCALING_FACTOR, b.sleep / b.run, a.sleep / a.run);
  }

  lemma QuotientPositive(a: nat, b: nat)
    requires a >= b > 0
    ensures a / b >= 1
  {
    Quotient(a, b);
  }

  /** Among those that did not, the order is turned: the more a thread sleeps or the less it runs, the higher its
      score. */
  lemma RunnersTurned(a: Times, b: Times, nice: int)
    requires 0 < b.sleep <= a.sleep <= a.run <= b.run
    ensures Score(b, nice) <= Score(a, nice)
  {
    DivMono(a.run, b.run, a.sleep);
    DivAnti(b.run, b.sleep, a.sleep);
    QuotientPositive(a.run, a.sleep);
    DivAnti(SCALING_FACTOR, a.run / a.sleep, b.run / b.sleep);
  }

  /** A thread that ran for five seconds and slept for 1 ms scores better than one that did half and half. */
  lemma RunnerBeatsBalanced()
    ensures Score(Times(5000, 1), 0) == 50 && Score(Times(2500, 2500), 0) == 100
  {
  }

  /** A thread that slept no more than it ran is never interactive exactly if nice is at least -20. */
  lemma RunnersNotInteractive(nice: int)
    requires IsNice(nice)
    ensures (forall t: Times :: 0 < t.sleep <= t.run ==> !Interactive(t, nice)) <==> nice >= -20
  {
    if nice >= -20 {
      forall t: Times | 0 < t.sleep <= t.run ensures !Interactive(t, nice) {
        ScoreRange(t, nice);
      }
    } else {
      assert Interactive(Times(51, 1), nice);
    }
  }

  // ---------------------------------------------------------------------------
  // The priority
  // ---------------------------------------------------------------------------

  /** `DIV_ROUND_UP(cpu->ticks, ticks * (PRIO_BATCH_RANGE / 2))` in 64-bit arithmetic. */
  function Share(cpuTicks: nat, ticks: nat): nat
    requires Divisor(ticks) > 0
  {
    Div((cpuTicks + Divisor(ticks) - 1) % WORD, Divisor(ticks))
  }

  function Div(a: nat, b: nat): nat
    requires b > 0
  {
    a / b
  }

  function Divisor(ticks: nat): nat {
    (if ticks == 0 then 1 else ticks) * 16 % WORD
  }

  function Limit(p: int): nat {
    if p < PRIO_LOW_BATCH then PRIO_LOW_BATCH else if p > PRIO_HIGH_BATCH then PRIO_HIGH_BATCH else p
  }

  /** The two branches of `sched_recompute_priority`; `priority` is an 8-bit field. */
  function InteractivePriority(score: int): nat {
    (PRIO_INTERACTIVE + Truncated(INTERACTIVITY_THRESHOLD - score, 4)) % 256
  }

  function BatchPriority(cpuTicks: nat, ticks: nat, nice: int): nat
    requires Divisor(ticks) > 0
  {
    Limit(Field(Share(cpuTicks, ticks) - nice))
  }

  /** A 64-bit difference stored in an 8-bit field. */
  function Field(x: int): nat {
    x % WORD % 256
  }

  /** Division that truncates towards zero. */
  function Truncated(a: int, b: int): int
    requires b > 0
  {
    if a >= 0 then a / b else -(-a / b)
  }

  function Priority(t: Times, nice: int, cpuTicks: nat, ticks: nat): nat
    requires Divisor(ticks) > 0
  {
    if Interactive(t, nice) then InteractivePriority(Score(t, nice)) else BatchPriority(cpuTicks, ticks, nice)
  }

  /** For any 8-bit nice the priority indexes one of the 64 queues, and a thread that is not
      interactive gets a timeshared priority. */
  lemma PriorityIndexes(t: Times, nice: int, cpuTicks: nat, ticks: nat)
    requires IsNice(nice) && Divisor(ticks) > 0
    ensures var p := Priority(t, nice, cpuTicks, ticks);
            && p <= PRIO_MAX
            && (Interactive(t, nice) ==> PRIO_INTERACTIVE <= p)
            && (!Interactive(t, nice) ==> PRIO_LOW_BATCH <= p <= PRIO_HIGH_BATCH)
  {
    ScoreRange(t, nice);
    if Interactive(t, nice) {
      InteractiveRange(Score(t, nice));
    }
  }

  lemma InteractiveRange(score: int)
    requires -128 <= score < INTERACTIVITY_THRESHOLD
    ensures PRIO_INTERACTIVE <= InteractivePriority(score) <= PRIO_MAX
  {
  }

  /** An interactive thread never reaches a realtime priority exactly if nice is at least -21. */
  lemma BelowRealtime(nice: int)
    requires IsNice(nice)
    ensures (forall t: Times :: Interactive(t, nice) ==> InteractivePriority(Score(t, nice)) < PRIO_REALTIME)
            <==> nice >= -21
  {
    if nice >= -21 {
      forall t: Times | Interactive(t, nice) ensures InteractivePriority(Score(t, nice)) < PRIO_REALTIME {
        ScoreRange(t, nice);
      }
    } else {
      var t := Times(1, 51);
      assert Score(t, nice) == nice;
    }
  }

  /** Among interactive threads a lower score never gives a lower priority. */
  lemma LowerScoreHigherPriority(a: int, b: int)
    requires -128 <= a <= b < INTERACTIVITY_THRESHOLD
    ensures InteractivePriority(a) >= InteractivePriority(b)
  {
  }

  /** The 8-bit field is written before it is clamped: the priority is the clamped share minus nice
      exactly if that difference is not negative and, beyond 255, does not wrap below 32. */
  lemma BatchPriorityIs(cpuTicks: nat, ticks: nat, nice: int)
    requires IsNice(nice) && Divisor(ticks) > 0
    ensures var x := Share(cpuTicks, ticks) - nice;
            BatchPriority(cpuTicks, ticks, nice) == Limit(x) <==> 0 <= x && (x > 255 ==> x % 256 >= PRIO_HIGH_BATCH)
  {
    ShareBound(cpuTicks, ticks);
    FieldLimit(Share(cpuTicks, ticks) - nice);
  }

  lemma ShareBound(cpuTicks: nat, ticks: nat)
    requires Divisor(ticks) > 0
    ensures Share(cpuTicks, ticks) < WORD - 128
  {
    var d, n := Divisor(ticks), (cpuTicks + Divisor(ticks) - 1) % WORD;
    assert d >= 16 by { assert WORD % 16 == 0; DivisorMultiple(ticks); }
    DivBounds(n, d);
    MulMono(16, d, Div(n, d));
  }

  lemma DivisorMultiple(ticks: nat)
    ensures Divisor(ticks) % 16 == 0
  {
    var t := if ticks == 0 then 1 else ticks;
    assert t * 16 == WORD * (t * 16 / WORD) + t * 16 % WORD;
  }

  lemma FieldIs(x: int)
    requires -128 <= x < WORD
    ensures Field(x) == if x < 0 then x + 256 else x % 256
  {
    if x < 0 {
      assert x % WORD == x + WORD;
    }
  }

  lemma FieldLimit(x: int)
    requires -128 <= x < WORD
    ensures Limit(Field(x)) == Limit(x) <==> 0 <= x && (x > 255 ==> x % 256 >= PRIO_HIGH_BATCH)
  {
    FieldIs(x);
  }

  lemma CeilingFalls(n: nat, d: nat, e: nat)
    requires 0 < d <= e
    ensures Div(n + e - 1, e) <= Div(n + d - 1, d)
  {
    var q := (n + d - 1) / d;
    assert n + d - 1 == d * q + (n + d - 1) % d;
    assert n <= d * q;
    assert d * q <= e * q by { MulMono(d, e, q); }
    var r := (n + e - 1) / e;
    assert n + e - 1 == e * r + (n + e - 1) % e;
    assert e * (q + 1) == e * q + e;
    if r > q {
      MulMono(q + 1, r, e);
    }
  }

  /** A thread that never ran counts as having run for one tick. */
  function Counted(ticks: nat): nat {
    if ticks == 0 then 1 else ticks
  }

  lemma ShareIs(cpuTicks: nat, ticks: nat)
    requires Counted(ticks) * 16 < WORD && Counted(ticks) * 16 + cpuTicks <= WORD
    ensures Divisor(ticks) == Counted(ticks) * 16
    ensures Share(cpuTicks, ticks) == Div(cpuTicks + Counted(ticks) * 16 - 1, Counted(ticks) * 16)
  {
  }

  lemma NoWrap(ticks: nat)
    requires Divisor(ticks) > 0 && Counted(ticks) * 16 <= WORD
    ensures Counted(ticks) * 16 < WORD
  {
  }

  /** The more a thread has run the lower its priority, where the 8-bit field does not wrap. */
  lemma MoreTicksLowerPriority(cpuTicks: nat, few: nat, many: nat, nice: int)
    requires IsNice(nice) && few <= many && Counted(many) * 16 + cpuTicks <= WORD
    requires Divisor(few) > 0 && Divisor(many) > 0
    requires 0 <= Share(cpuTicks, many) - nice && Share(cpuTicks, few) - nice <= 255
    ensures BatchPriority(cpuTicks, many, nice) <= BatchPriority(cpuTicks, few, nice)
  {
    NoWrap(many);
    ShareFalls(cpuTicks, few, many);
    LimitOrder(Share(cpuTicks, many) - nice, Share(cpuTicks, few) - nice);
  }

  lemma ShareFalls(cpuTicks: nat, few: nat, many: nat)
    requires few <= many && Counted(many) * 16 + cpuTicks <= WORD && Counted(many) * 16 < WORD
    ensures Divisor(few) > 0 && Divisor(many) > 0 && Share(cpuTicks, many) <= Share(cpuTicks, few)
  {
    ShareIs(cpuTicks, few);
    ShareIs(cpuTicks, many);
    CeilingFalls(cpuTicks, Counted(few) * 16, Counted(many) * 16);
  }

  lemma LimitOrder(x: int, y: int)
    requires 0 <= x <= y <= 255
    ensures Limit(Field(x)) <= Limit(Field(y))
  {
  }

  /** Where it wraps, the order turns: one tick in 4096 gets the lowest priority, two the highest. */
  lemma WrapTurnsOrder()
    ensures BatchPriority(4096, 1, 0) == PRIO_LOW_BATCH && BatchPriority(4096, 2, 0) == PRIO_HIGH_BATCH
  {
    ShareIs(4096, 1);
    ShareIs(4096, 2);
    assert Div(4111, 16) == 256 && Div(4127, 32) == 128;
    FieldIs(256);
    FieldIs(128);
  }

  // ---------------------------------------------------------------------------
  // The thread's fields
  // ---------------------------------------------------------------------------

  class Thread {
    var times: Times
    var ticks: nat
    var nice: int
    var priority: nat
    var interactive: bool

    ghost predicate Valid()
      reads this
    {
      Words(times) && IsNice(nice) && ticks < WORD
    }

    constructor (n: int)
      requires IsNice(n)
      ensures Valid() && Bounded(times) && nice == n
    {
      times, ticks, nice, priority, interactive := Times(0, 0), 0, n, 16, false;
    }

    /** `sched_clamp_time`: the sum is bounded unless it wraps, and recent times are left alone. */
    method ClampTime()
      requires Valid()
      modifies this`times
      ensures Valid() && times == Clamp(old(times))
      ensures Bounded(times) <==> old(times.run) + old(times.sleep) < WORD ||
                                  old(times.run) + old(times.sleep) - WORD > 2 * MAX_TIME
      ensures old(times.run) + old(times.sleep) < MAX_TIME ==> times == old(times)
    {
      ClampBounds(times);
      var sum := (times.run + times.sleep) % WORD;
      if sum < MAX_TIME { return; }
      if sum > MAX_TIME * 2 {
        times := if times.run > times.sleep then Times(MAX_TIME, 1) else Times(1, MAX_TIME);
        return;
      }
      if sum > MAX_TIME / 5 * 6 {
        times := Times(times.run / 2, times.sleep / 2);
        return;
      }
      times := Times(times.run / 5 * 4, times.sleep / 5 * 4);
    }

    /** `sched_recompute_priority`. */
    method RecomputePriority(cpuTicks: nat)
      requires Valid() && Divisor(ticks) > 0
      modifies this`priority, this`interactive
      ensures priority == Priority(times, nice, cpuTicks, ticks) <= PRIO_MAX
      ensures interactive == Interactive(times, nice)
    {
      PriorityIndexes(times, nice, cpuTicks, ticks);
      var score := Score(times, nice);
      if score < INTERACTIVITY_THRESHOLD {
        priority := (PRIO_INTERACTIVE + Truncated(INTERACTIVITY_THRESHOLD - score, 4)) % 256;
        interactive := true;
      } else {
        priority := Field(Share(cpuTicks, ticks) - nice);
        if priority < PRIO_LOW_BATCH {
          priority := PRIO_LOW_BATCH;
        } else if priority > PRIO_HIGH_BATCH {
          priority := PRIO_HIGH_BATCH;
        }
        interactive := false;
      }
    }

    /** The charge of one tick to the running thread in `sched_reschedule`. */
    method ChargeTick(cpuTicks: nat)
      requires Valid() && Divisor((ticks + 1) % WORD) > 0
      modifies this
      ensures Valid() && nice == old(nice) && ticks == (old(ticks) + 1) % WORD
      ensures times == Charged(old(times), Ticked) && (Bounded(old(times)) ==> Bounded(times))
      ensures priority == Priority(times, nice, cpuTicks, ticks) <= PRIO_MAX && interactive == Interactive(times, nice)
    {
      if Bounded(times) { ChargedBounds(times, Ticked); }
      times := times.(run := (times.run + TicksToMs(1)) % WORD);
      ticks := (ticks + 1) % WORD;
      ClampTime();
      RecomputePriority(cpuTicks);
    }

    /** The charge of a sleep in `sched_wake`. */
    method ChargeSleep(now: nat, start: nat, cpuTicks: nat)
      requires Valid() && Divisor(ticks) > 0
      modifies this
      ensures Valid() && nice == old(nice) && ticks == old(ticks)
      ensures times == Charged(old(times), Woke(now, start))
      ensures Bounded(old(times)) ==> (Bounded(times) <==> old(times.run) + Elapsed(now, start) < WORD)
      ensures priority == Priority(times, nice, cpuTicks, ticks) <= PRIO_MAX && interactive == Interactive(times, nice)
    {
      if Bounded(times) { ChargedBounds(times, Woke(now, start)); }
      times := times.(sleep := Elapsed(now, start));
      ClampTime();
      RecomputePriority(cpuTicks);
    }
  }
}
