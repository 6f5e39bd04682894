/** `balance_load` of `kernel/core/sched/ule.c`: threads move from the most to the least loaded CPU. */
module LoadBalance {
  import opened Common
  import opened RunQueues
  import opened ThreadSelect

  const LOAD_BALANCE_LIMIT: nat := 16

  ghost predicate AllInv(cpus: seq<PerCpu>) {
    forall i :: 0 <= i < |cpus| ==> Inv(cpus[i])
  }

  /** `m` is the first CPU of the highest load. */
  predicate IsMost(cpus: seq<PerCpu>, m: nat) {
    && m < |cpus|
    && (forall i :: 0 <= i < |cpus| ==> cpus[i].load <= cpus[m].load)
    && (forall i :: 0 <= i < m ==> cpus[i].load < cpus[m].load)
  }

  /** `l` is the first CPU of the lowest load. */
  predicate IsLeast(cpus: seq<PerCpu>, l: nat) {
    && l < |cpus|
    && (forall i :: 0 <= i < |cpus| ==> cpus[l].load <= cpus[i].load)
    && (forall i :: 0 <= i < l ==> cpus[l].load < cpus[i].load)
  }

  /** `find_most_and_least_loaded_cpu`, on loads that hold still. */
  method FindMostAndLeast(cpus: seq<PerCpu>) returns (most: nat, least: nat)
    requires cpus != []
    ensures IsMost(cpus, most) && IsLeast(cpus, least)
  {
    most, least := 0, 0;
    for i := 0 to |cpus|
      invariant most < |cpus| && least < |cpus| && (most == 0 || most < i) && (least == 0 || least < i)
      invariant forall j :: 0 <= j < i ==> cpus[least].load <= cpus[j].load <= cpus[most].load
      invariant forall j :: 0 <= j < most ==> cpus[j].load < cpus[most].load
      invariant forall j :: 0 <= j < least ==> cpus[least].load < cpus[j].load
    {
      if cpus[i].load < cpus[least].load { least := i; }
      if cpus[i].load > cpus[most].load { most := i; }
    }
  }

  // ---------------------------------------------------------------------------
  // Measures of all CPUs
  // ---------------------------------------------------------------------------

  /** The square of a load, as a sum of odd numbers; loads are not negative. */
  function Square(n: int): nat {
    if n <= 0 then 0 else Square(n - 1) + 2 * n - 1
  }

  lemma {:induction false} SquareIs(n: nat)
    ensures Square(n) == n * n
  {
    if n > 0 {
      SquareIs(n - 1);
      assert n * n == (n - 1) * (n - 1) + 2 * n - 1;
    }
  }

  /** The sum of the squared loads: the imbalance. */
  function Squares(cpus: seq<PerCpu>): (n: int)
    ensures n >= 0
  {
    if cpus == [] then 0 else Square(cpus[0].load) + Squares(cpus[1..])
  }

  lemma {:induction false} SquaresUpdate(cpus: seq<PerCpu>, i: nat, s: PerCpu)
    requires i < |cpus|
    ensures Squares(cpus[i := s]) == Squares(cpus) - Square(cpus[i].load) + Square(s.load)
    decreases |cpus|
  {
    if i > 0 {
      SquaresUpdate(cpus[1..], i - 1, s);
      assert cpus[i := s][1..] == cpus[1..][i - 1 := s];
    } else {
      assert cpus[0 := s][1..] == cpus[1..];
    }
  }

  /** Every thread on the queues and in the slots of all CPUs. */
  function Total(cpus: seq<PerCpu>): multiset<Td> {
    if cpus == [] then multiset{} else Held(cpus[0]) + Total(cpus[1..])
  }

  lemma {:induction false} TotalUpdate(cpus: seq<PerCpu>, i: nat, s: PerCpu)
    requires i < |cpus|
    ensures Total(cpus[i := s]) + Held(cpus[i]) == Total(cpus) + Held(s)
    decreases |cpus|
  {
    if i > 0 {
      TotalUpdate(cpus[1..], i - 1, s);
      assert cpus[i := s][1..] == cpus[1..][i - 1 := s];
      Shift(Held(cpus[0]), Total(cpus[1..][i - 1 := s]), Held(cpus[i]), Total(cpus[1..]), Held(s));
    } else {
      assert cpus[0 := s][1..] == cpus[1..];
    }
  }

  lemma Shift(head: multiset<Td>, a: multiset<Td>, b: multiset<Td>, c: multiset<Td>, d: multiset<Td>)
    requires a + b == c + d
    ensures (head + a) + b == (head + c) + d
  {
    assert (head + a) + b == head + (a + b);
    assert (head + c) + d == head + (c + d);
  }

  /** Every load lies between `lo` and `hi`. */
  predicate Within(cpus: seq<PerCpu>, lo: int, hi: int) {
    forall i :: 0 <= i < |cpus| ==> lo <= cpus[i].load <= hi
  }

  /** Each CPU holds the same pinned threads as before. */
  ghost predicate PinnedStay(cpus: seq<PerCpu>, cpus': seq<PerCpu>) {
    && |cpus'| == |cpus|
    && forall i :: 0 <= i < |cpus| ==> SamePinned(Held(cpus[i]), Held(cpus'[i]))
  }

  ghost predicate SamePinned(a: multiset<Td>, b: multiset<Td>) {
    forall td: Td :: td.pinned ==> a[td] == b[td]
  }

  // ---------------------------------------------------------------------------
  // What a round does
  // ---------------------------------------------------------------------------

  /** The two CPUs of a round: the source loses one unpinned thread, the target gains it. */
  ghost predicate Moved(from: PerCpu, from': PerCpu, to: PerCpu, to': PerCpu, td: Td) {
    && Inv(from') && Inv(to') && !td.pinned
    && Held(from) == Held(from') + multiset{td} && Held(to') == Held(to) + multiset{td}
    && Shifted(from, from', to, to')
  }

  predicate Shifted(from: PerCpu, from': PerCpu, to: PerCpu, to': PerCpu) {
    from'.load == from.load - 1 && to.load <= to'.load <= to.load + 1
  }

  /** Selecting for migration on one CPU and readying the thread on another. */
  lemma MoveIs(from: PerCpu, to: PerCpu)
    requires Inv(from) && Inv(to) && Select(from, None, true).td.Some?
    ensures to.next.Some? ==> TdOk(to.next.value)
    ensures var p := Select(from, None, true);
            TdOk(p.td.value) && Moved(from, p.s, to, TryPreempt(to, p.td.value), p.td.value)
  {
    var p := Select(from, None, true);
    var td := p.td.value;
    SelectOk(from, None, true);
    Leaves(from, p, td);
    SlotOk(to, td);
    TryPreemptOk(to, td);
  }

  lemma Leaves(s: PerCpu, p: Pick, td: Td)
    requires Selected(s, p, true) && p.td == Some(td)
    ensures Held(s) == Held(p.s) + multiset{td} && !td.pinned
  {
    assert All(p.s) + multiset{td} + NextBag(s) == All(p.s) + NextBag(s) + multiset{td};
  }

  function Replace(cpus: seq<PerCpu>, most: nat, from': PerCpu, least: nat, to': PerCpu): (r: seq<PerCpu>)
    requires most < |cpus| && least < |cpus|
    ensures |r| == |cpus|
  {
    cpus[most := from'][least := to']
  }

  lemma RoundConserves(cpus: seq<PerCpu>, most: nat, from': PerCpu, least: nat, to': PerCpu, td: Td)
    requires most < |cpus| && least < |cpus| && most != least
    requires Moved(cpus[most], from', cpus[least], to', td)
    ensures Total(Replace(cpus, most, from', least, to')) == Total(cpus)
  {
    var mid := cpus[most := from'];
    TotalUpdate(cpus, most, from');
    TotalUpdate(mid, least, to');
    Rebalance(Total(cpus), Total(mid), Total(mid[least := to']), Held(from'), Held(cpus[least]), multiset{td});
  }

  lemma Rebalance(before: multiset<Td>, mid: multiset<Td>, after: multiset<Td>, from': multiset<Td>,
                  to: multiset<Td>, td: multiset<Td>)
    requires mid + (from' + td) == before + from' && after + to == mid + (to + td)
    ensures after == before
  {
    assert (mid + td) + from' == mid + (from' + td);
    Cancel(mid + td, before, from');
    assert (mid + td) + to == mid + (to + td);
    Cancel(after, mid + td, to);
  }

  lemma SamePinnedAdd(a: multiset<Td>, b: multiset<Td>, td: Td)
    requires b == a + multiset{td} && !td.pinned
    ensures SamePinned(a, b) && SamePinned(b, a)
  {
  }

  lemma RoundPinned(cpus: seq<PerCpu>, most: nat, from': PerCpu, least: nat, to': PerCpu, td: Td)
    requires most < |cpus| && least < |cpus| && most != least
    requires Moved(cpus[most], from', cpus[least], to', td)
    ensures PinnedStay(cpus, Replace(cpus, most, from', least, to'))
  {
    SamePinnedAdd(Held(from'), Held(cpus[most]), td);
    SamePinnedAdd(Held(cpus[least]), Held(to'), td);
    ReplacePinned(cpus, most, from', least, to');
  }

  lemma ReplacePinned(cpus: seq<PerCpu>, most: nat, from': PerCpu, least: nat, to': PerCpu)
    requires most < |cpus| && least < |cpus| && most != least
    requires SamePinned(Held(cpus[most]), Held(from')) && SamePinned(Held(cpus[least]), Held(to'))
    ensures PinnedStay(cpus, Replace(cpus, most, from', least, to'))
  {
  }

  lemma RoundBounds(cpus: seq<PerCpu>, most: nat, from': PerCpu, least: nat, to': PerCpu)
    requires IsMost(cpus, most) && IsLeast(cpus, least) && cpus[most].load > cpus[least].load
    requires Shifted(cpus[most], from', cpus[least], to')
    ensures Within(Replace(cpus, most, from', least, to'), cpus[least].load, cpus[most].load)
  {
  }

  lemma RoundSquares(cpus: seq<PerCpu>, most: nat, from': PerCpu, least: nat, to': PerCpu)
    requires most < |cpus| && least < |cpus| && cpus[most].load > cpus[least].load >= 0
    requires Shifted(cpus[most], from', cpus[least], to')
    ensures Lowers(Squares(cpus), Squares(Replace(cpus, most, from', least, to')), cpus[most].load - cpus[least].load)
  {
    var m, l, l' := cpus[most].load, cpus[least].load, to'.load;
    SquaresShrink(m, l, l');
    ReplaceSquares(cpus, most, from', least, to', Square(m), Square(m - 1), Square(l), Square(l'));
  }

  /** The imbalance does not grow, and shrinks if the loads differed by two or more. */
  predicate Lowers(before: int, after: int, diff: int) {
    after <= before && (diff >= 2 ==> after < before)
  }

  lemma ReplaceSquares(cpus: seq<PerCpu>, most: nat, from': PerCpu, least: nat, to': PerCpu,
                       m: int, m': int, l: int, l': int)
    requires most < |cpus| && least < |cpus| && most != least
    requires m == Square(cpus[most].load) && m' == Square(from'.load)
    requires l == Square(cpus[least].load) && l' == Square(to'.load)
    ensures Squares(Replace(cpus, most, from', least, to')) == Squares(cpus) - m + m' - l + l'
  {
    SquaresUpdate(cpus, most, from');
    SquaresUpdate(cpus[most := from'], least, to');
  }

  lemma SquaresShrink(m: int, l: int, l': int)
    requires m - l >= 1 && l >= 0 && l <= l' <= l + 1
    ensures Square(m - 1) + Square(l') <= Square(m) + Square(l)
    ensures m - l >= 2 ==> Square(m - 1) + Square(l') < Square(m) + Square(l)
  {
    assert Square(m) == Square(m - 1) + 2 * m - 1;
    assert Square(l + 1) == Square(l) + 2 * (l + 1) - 1;
  }

  // ---------------------------------------------------------------------------
  // The loop
  // ---------------------------------------------------------------------------

  /** Any bounds on the loads still hold. */
  ghost predicate Tamer(cpus: seq<PerCpu>, cpus': seq<PerCpu>) {
    forall lo, hi :: Within(cpus, lo, hi) ==> Within(cpus', lo, hi)
  }

  /** No thread is lost, no pinned thread changes CPU, and the loads keep within their old bounds. */
  ghost predicate Rebalanced(cpus: seq<PerCpu>, cpus': seq<PerCpu>) {
    AllInv(cpus') && Total(cpus') == Total(cpus) && PinnedStay(cpus, cpus') && Tamer(cpus, cpus')
  }

  lemma Refl(cpus: seq<PerCpu>)
    requires AllInv(cpus)
    ensures Rebalanced(cpus, cpus)
  {
  }

  lemma Trans(a: seq<PerCpu>, b: seq<PerCpu>, c: seq<PerCpu>)
    requires Rebalanced(a, b) && Rebalanced(b, c)
    ensures Rebalanced(a, c)
  {
    PinnedTrans(a, b, c);
    TamerTrans(a, b, c);
  }

  lemma TamerTrans(a: seq<PerCpu>, b: seq<PerCpu>, c: seq<PerCpu>)
    requires Tamer(a, b) && Tamer(b, c)
    ensures Tamer(a, c)
  {
  }

  lemma PinnedTrans(a: seq<PerCpu>, b: seq<PerCpu>, c: seq<PerCpu>)
    requires PinnedStay(a, b) && PinnedStay(b, c)
    ensures PinnedStay(a, c)
  {
    forall i | 0 <= i < |a| ensures SamePinned(Held(a[i]), Held(c[i])) {
      assert SamePinned(Held(a[i]), Held(b[i])) && SamePinned(Held(b[i]), Held(c[i]));
    }
  }

  lemma ReplaceInv(cpus: seq<PerCpu>, most: nat, from': PerCpu, least: nat, to': PerCpu)
    requires AllInv(cpus) && most < |cpus| && least < |cpus| && Inv(from') && Inv(to')
    ensures AllInv(Replace(cpus, most, from', least, to'))
  {
  }

  lemma LoadsNat(s: PerCpu)
    requires Inv(s)
    ensures s.load >= 0
  {
  }

  /** One round of the loop, from the scan that found the two CPUs. It raises no maximum, lowers no
      minimum and moves no pinned thread; a difference of two or more strictly lowers the imbalance. */
  lemma RoundOk(cpus: seq<PerCpu>, most: nat, least: nat)
    requires AllInv(cpus) && IsMost(cpus, most) && IsLeast(cpus, least) && cpus[most].load > cpus[least].load
    requires Select(cpus[most], None, true).td.Some?
    ensures cpus[least].next.Some? ==> TdOk(cpus[least].next.value)
    ensures var p := Select(cpus[most], None, true);
            && TdOk(p.td.value)
            && var cpus' := Replace(cpus, most, p.s, least, TryPreempt(cpus[least], p.td.value));
               Rebalanced(cpus, cpus') && Lowers(Squares(cpus), Squares(cpus'), cpus[most].load - cpus[least].load)
  {
    MoveIs(cpus[most], cpus[least]);
    var p := Select(cpus[most], None, true);
    LoadsNat(cpus[least]);
    RoundHolds(cpus, most, p.s, least, TryPreempt(cpus[least], p.td.value), p.td.value);
  }

  lemma RoundHolds(cpus: seq<PerCpu>, most: nat, from': PerCpu, least: nat, to': PerCpu, td: Td)
    requires AllInv(cpus) && IsMost(cpus, most) && IsLeast(cpus, least) && cpus[most].load > cpus[least].load >= 0
    requires Moved(cpus[most], from', cpus[least], to', td)
    ensures var cpus' := Replace(cpus, most, from', least, to');
            Rebalanced(cpus, cpus') && Lowers(Squares(cpus), Squares(cpus'), cpus[most].load - cpus[least].load)
  {
    var cpus' := Replace(cpus, most, from', least, to');
    ReplaceInv(cpus, most, from', least, to');
    RoundConserves(cpus, most, from', least, to', td);
    RoundPinned(cpus, most, from', least, to', td);
    RoundBounds(cpus, most, from', least, to');
    RoundSquares(cpus, most, from', least, to');
    Narrow(cpus, cpus', most, least);
  }

  lemma Narrow(cpus: seq<PerCpu>, cpus': seq<PerCpu>, most: nat, least: nat)
    requires most < |cpus| && least < |cpus| && Within(cpus', cpus[least].load, cpus[most].load)
    ensures Tamer(cpus, cpus')
  {
    forall lo, hi | Within(cpus, lo, hi) ensures Within(cpus', lo, hi) {
      assert lo <= cpus[least].load && cpus[most].load <= hi;
    }
  }

  /** The balancer has nothing left to do: the loads differ by at most one, or the most loaded CPU
      offers no thread for migration. */
  ghost predicate Settled(cpus: seq<PerCpu>) {
    || (exists lo, hi :: Within(cpus, lo, hi) && hi <= lo + 1)
    || (exists m: nat :: IsMost(cpus, m) && Inv(cpus[m]) && Select(cpus[m], None, true).td.None?)
  }

  /** The balancer would move nothing: all loads are equal, or the most loaded CPU offers no thread. */
  ghost predicate Still(cpus: seq<PerCpu>) {
    || (exists n :: Within(cpus, n, n))
    || (exists m: nat :: IsMost(cpus, m) && Inv(cpus[m]) && Select(cpus[m], None, true).td.None?)
  }

  lemma CloseIsSettled(cpus: seq<PerCpu>, cpus': seq<PerCpu>, most: nat, least: nat)
    requires IsMost(cpus, most) && IsLeast(cpus, least) && cpus[most].load - cpus[least].load <= 1
    requires Tamer(cpus, cpus')
    ensures Settled(cpus')
  {
    var lo := cpus[least].load;
    assert Within(cpus, lo, lo + 1);
    assert Within(cpus', lo, lo + 1);
  }

  /** `balance_load`: whatever the number of rounds, the CPUs are rebalanced, every move but the last
      strictly lowers the sum of the squared loads, and fewer than sixteen moves mean it was done. */
  method BalanceLoad(before: seq<PerCpu>) returns (cpus: seq<PerCpu>, moves: nat)
    requires before != [] && AllInv(before)
    ensures Rebalanced(before, cpus) && moves <= LOAD_BALANCE_LIMIT
    ensures Squares(cpus) <= Squares(before) && Squares(cpus) + moves <= Squares(before) + 1
    ensures moves < LOAD_BALANCE_LIMIT ==> Settled(cpus)
    ensures moves == 0 ==> Still(before)
  {
    cpus, moves := before, 0;
    Refl(before);
    var cnt := LOAD_BALANCE_LIMIT;
    while cnt > 0
      invariant moves == LOAD_BALANCE_LIMIT - cnt && cpus != []
      invariant Rebalanced(before, cpus) && Squares(cpus) + moves <= Squares(before)
      invariant moves == 0 ==> cpus == before
    {
      cnt := cnt - 1;
      var most, least := FindMostAndLeast(cpus);
      var diff := cpus[most].load - cpus[least].load;
      if diff < 1 {
        CloseIsSettled(cpus, cpus, most, least);
        assert Within(cpus, cpus[most].load, cpus[most].load);
        break;
      }
      var p := Select(cpus[most], None, true);
      if p.td.None? {
        assert Settled(cpus) && Still(cpus);
        break;
      }
      RoundOk(cpus, most, least);
      var next := Replace(cpus, most, p.s, least, TryPreempt(cpus[least], p.td.value));
      Trans(before, cpus, next);
      ghost var was := cpus;
      cpus, moves := next, moves + 1;
      if diff == 1 {
        CloseIsSettled(was, cpus, most, least);
        break;
      }
    }
  }
}
