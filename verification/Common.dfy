/** What several parts of the kernel share: optional results, queues without repetition, and
    rounding. */
module Common {

  const PAGE_SIZE: nat := 4096

  datatype Option<+T> = None | Some(value: T)

  // ---------------------------------------------------------------------------
  // Queues
  // ---------------------------------------------------------------------------

  predicate Distinct<T(==)>(q: seq<T>) {
    forall i, j :: 0 <= i < j < |q| ==> q[i] != q[j]
  }

  /** `TAILQ_REMOVE`. */
  function Remove<T(==)>(q: seq<T>, x: T): seq<T> {
    if q == [] then [] else if q[0] == x then q[1..] else [q[0]] + Remove(q[1..], x)
  }

  lemma RemoveDistinct<T>(q: seq<T>, x: T)
    requires Distinct(q)
    ensures Distinct(Remove(q, x))
    ensures forall y :: y in Remove(q, x) <==> y in q && y != x
    decreases |q|
  {
    if q != [] {
      assert q == [q[0]] + q[1..];
      assert q[0] !in q[1..];
      RemoveDistinct(q[1..], x);
    }
  }

  // ---------------------------------------------------------------------------
  // Rounding
  // ---------------------------------------------------------------------------

  function AlignUp(x: nat, a: nat): nat
    requires a > 0
  {
    (x + a - 1) / a * a
  }

  lemma DivBounds(x: nat, d: nat)
    requires d > 0
    ensures x / d * d <= x < (x / d + 1) * d
  {
  }

  lemma MulMono(a: nat, b: nat, d: nat)
    requires a <= b
    ensures a * d <= b * d
  {
  }

  lemma DivUnique(x: nat, d: nat, q: nat)
    requires d > 0 && q * d <= x < (q + 1) * d
    ensures x / d == q
  {
    DivBounds(x, d);
    if x / d < q {
      MulMono(x / d + 1, q, d);
    } else if x / d > q {
      MulMono(q + 1, x / d, d);
    }
  }

  lemma ModOfMultiple(k: nat, d: nat)
    requires d > 0
    ensures k * d % d == 0
  {
    DivUnique(k * d, d, k);
  }

  lemma ModSum(x: nat, y: nat, d: nat)
    requires d > 0 && x % d == 0 && y % d == 0
    ensures (x + y) % d == 0
  {
    assert x == x / d * d && y == y / d * d;
    assert x + y == (x / d + y / d) * d;
    ModOfMultiple(x / d + y / d, d);
  }

  lemma ModProduct(k: nat, x: nat, d: nat)
    requires d > 0 && x % d == 0
    ensures k * x % d == 0
  {
    assert x == x / d * d;
    assert k * x == k * (x / d) * d;
    ModOfMultiple(k * (x / d), d);
  }

  lemma AlignUpBounds(x: nat, a: nat)
    requires a > 0
    ensures x <= AlignUp(x, a) < x + a && AlignUp(x, a) % a == 0
  {
    DivBounds(x + a - 1, a);
    ModOfMultiple((x + a - 1) / a, a);
  }

  /** No multiple lies strictly between a multiple and the next. */
  lemma NoneBetween(x: nat, y: nat, a: nat)
    requires a > 0 && x % a == 0 && x < y < x + a
    ensures y % a != 0
  {
    var q := x / a;
    assert x == q * a && x + a == (q + 1) * a;
    DivUnique(y, a, q);
  }
}
