/** The page bitmap of `kernel/mm/physical.c`: what a search finds, and the runs of allocations and
    frees of one module. */
module Physical {
  import opened Common

  /** A module: the number of its first page, one bit per page, and the hint. */
  datatype Memory = Memory(first: nat, bits: seq<bool>, lastFree: nat)

  /** `cnt` pages from page `i` on lie in the module and are free. */
  predicate Free(bits: seq<bool>, i: nat, cnt: nat) {
    i + cnt <= |bits| && forall k :: i <= k < i + cnt ==> !bits[k]
  }

  predicate Aligned(first: nat, i: nat, align: nat)
    requires align > 0
  {
    (first + i) % align == 0
  }

  // ---------------------------------------------------------------------------
  // The search
  // ---------------------------------------------------------------------------

  /** The candidates `i`, `i + align`, ... up to the first that fits. */
  function Search(bits: seq<bool>, i: nat, cnt: nat, align: nat): Option<nat>
    requires align > 0
    decreases |bits| - i
  {
    if i >= |bits| || |bits| < i + cnt then None
    else if cnt > 0 && Free(bits, i, cnt) then Some(i)
    else Search(bits, i + align, cnt, align)
  }

  function Start(m: Memory, align: nat): int
    requires align > 0
  {
    AlignUp(m.first + m.lastFree, align) - m.first
  }

  /** What a search from an aligned page finds: the first aligned fit at or after it, or that there
      is none. */
  ghost predicate Finds(first: nat, bits: seq<bool>, from: nat, cnt: nat, align: nat, r: Option<nat>)
    requires align > 0
  {
    match r
    case Some(i) => && from <= i && cnt > 0 && Aligned(first, i, align) && Free(bits, i, cnt)
                    && forall j :: from <= j < i && Aligned(first, j, align) ==> !Free(bits, j, cnt)
    case None => cnt == 0 || forall j :: from <= j && Aligned(first, j, align) ==> !Free(bits, j, cnt)
  }

  lemma NextAligned(x: nat, a: nat)
    requires a > 0 && x % a == 0
    ensures (x + a) % a == 0
  {
    ModOfMultiple(1, a);
    ModSum(x, a, a);
  }

  lemma {:induction false} SearchFinds(first: nat, bits: seq<bool>, i: nat, cnt: nat, align: nat)
    requires align > 0 && Aligned(first, i, align)
    ensures Finds(first, bits, i, cnt, align, Search(bits, i, cnt, align))
    decreases |bits| - i
  {
    if i < |bits| && i + cnt <= |bits| && !(cnt > 0 && Free(bits, i, cnt)) {
      NextAligned(first + i, align);
      assert first + (i + align) == (first + i) + align;
      SearchFinds(first, bits, i + align, cnt, align);
      Widen(first, bits, i, i + align, cnt, align, Search(bits, i + align, cnt, align));
    }
  }

  lemma Widen(first: nat, bits: seq<bool>, from: nat, next: nat, cnt: nat, align: nat, r: Option<nat>)
    requires align > 0 && Aligned(first, from, align) && next == from + align
    requires cnt == 0 || !Free(bits, from, cnt)
    requires Finds(first, bits, next, cnt, align, r)
    ensures Finds(first, bits, from, cnt, align, r)
  {
    forall j | from < j < next ensures !Aligned(first, j, align) {
      NoneBetween(first + from, first + j, align);
    }
  }

  /** The search of an allocation finds the first aligned fit at or after the hint. */
  lemma FirstFit(m: Memory, cnt: nat, align: nat)
    requires align > 0
    ensures Start(m, align) >= 0
    ensures Finds(m.first, m.bits, m.lastFree, cnt, align, Search(m.bits, Start(m, align), cnt, align))
  {
    AlignUpBounds(m.first + m.lastFree, align);
    var start: nat := Start(m, align);
    SearchFinds(m.first, m.bits, start, cnt, align);
    forall j | m.lastFree <= j < start ensures !Aligned(m.first, j, align) {
      Before(m.first + m.lastFree, m.first + j, align);
    }
  }

  lemma Before(x: nat, y: nat, a: nat)
    requires a > 0 && x <= y < AlignUp(x, a)
    ensures y % a != 0
  {
    AlignUpBounds(x, a);
    var up := AlignUp(x, a);
    if y % a == 0 {
      NoneBetween(y, up, a);
    }
  }

  // ---------------------------------------------------------------------------
  // Allocating and freeing
  // ---------------------------------------------------------------------------

  function SetRange(bits: seq<bool>, i: nat, cnt: nat, v: bool): (r: seq<bool>)
    ensures |r| == |bits|
    ensures forall k :: 0 <= k < |bits| ==> r[k] == if i <= k < i + cnt then v else bits[k]
  {
    seq(|bits|, k requires 0 <= k < |bits| => if i <= k < i + cnt then v else bits[k])
  }

  /** The first clear bit at or after `z`, or 0. */
  function NextFree(bits: seq<bool>, z: nat): (r: nat)
    ensures r == 0 || (z <= r < |bits| && !bits[r])
    ensures (z > 0 || (bits != [] && bits[0])) ==> forall k :: z <= k < |bits| && (r == 0 || k < r) ==> bits[k]
    decreases |bits| - z
  {
    if z >= |bits| then 0 else if !bits[z] then z else NextFree(bits, z + 1)
  }

  /** `pmm_module_alloc`: the page found and the module after. */
  ghost function Alloc(m: Memory, cnt: nat, align: nat): (Option<nat>, Memory)
    requires align > 0
  {
    FirstFit(m, cnt, align);
    var r := Search(m.bits, Start(m, align), cnt, align);
    if r.None? then (r, m)
    else
      var bits := SetRange(m.bits, r.value, cnt, true);
      (r, m.(bits := bits, lastFree := NextFree(bits, r.value + cnt - 1)))
  }

  /** `pmm_module_free`: the hint stays. */
  function Release(m: Memory, i: nat, cnt: nat): Memory {
    m.(bits := SetRange(m.bits, i, cnt, false))
  }

  /** Freeing what was just allocated restores the bitmap. */
  lemma FreeUndoesAlloc(m: Memory, cnt: nat, align: nat)
    requires align > 0 && Alloc(m, cnt, align).0.Some?
    ensures var (r, m') := Alloc(m, cnt, align); Release(m', r.value, cnt).bits == m.bits
  {
    FirstFit(m, cnt, align);
  }

  // ---------------------------------------------------------------------------
  // The hint
  // ---------------------------------------------------------------------------

  predicate Taken(bits: seq<bool>, from: nat, to: nat) {
    forall k :: from <= k < to && k < |bits| ==> bits[k]
  }

  /** The hint `h` that an allocation of `cnt` pages at `i` leaves behind: the first free page after the
      allocation, or 0 if there is none. */
  predicate HintAfter(bits: seq<bool>, i: nat, cnt: nat, h: nat) {
    if Taken(bits, i + cnt, |bits|) then h == 0 && Taken(bits, i, |bits|)
    else i + cnt <= h < |bits| && !bits[h] && Taken(bits, i, h)
  }

  lemma AllocHint(m: Memory, cnt: nat, align: nat)
    requires align > 0 && Alloc(m, cnt, align).0.Some?
    ensures var (r, m') := Alloc(m, cnt, align);
            && cnt > 0 && r.value + cnt <= |m'.bits| == |m.bits| && m'.first == m.first
            && HintAfter(m'.bits, r.value, cnt, m'.lastFree)
  {
    FirstFit(m, cnt, align);
    var (r, m') := Alloc(m, cnt, align);
    var i, h := r.value, m'.lastFree;
    assert m'.bits[i + cnt - 1];
    if h > 0 {
      assert !Taken(m'.bits, i + cnt, |m'.bits|);
    }
  }

  /** An allocation, the free of what it got and the same request again: it gets a page at or before the
      first one exactly if everything after the first allocation is taken, and is then served from
      page 0 on; otherwise it gets a page after the first allocation or nothing, although the pages
      just freed would fit. */
  lemma AllocAgain(m: Memory, cnt: nat, align: nat)
    requires align > 0 && Alloc(m, cnt, align).0.Some?
    ensures var (r, m') := Alloc(m, cnt, align);
            var (again, _) := Alloc(Release(m', r.value, cnt), cnt, align);
            if Taken(m.bits, r.value + cnt, |m.bits|) then
              && Finds(m.first, m.bits, 0, cnt, align, again) && again.Some? && again.value <= r.value
            else
              again.Some? ==> again.value >= r.value + cnt
  {
    var (r, m') := Alloc(m, cnt, align);
    FirstFit(m, cnt, align);
    AllocHint(m, cnt, align);
    FreeUndoesAlloc(m, cnt, align);
    FirstFit(Release(m', r.value, cnt), cnt, align);
    assert Taken(m'.bits, r.value + cnt, |m.bits|) <==> Taken(m.bits, r.value + cnt, |m.bits|);
  }

  // ---------------------------------------------------------------------------
  // Runs
  // ---------------------------------------------------------------------------

  datatype Range = Range(start: nat, cnt: nat, align: nat)

  predicate Covers(r: Range, k: int) {
    r.start <= k < r.start + r.cnt
  }

  /** A module with the ranges handed out and not yet freed. */
  datatype Books = Books(m: Memory, live: set<Range>)

  /** A live range lies in the module and is aligned as it was asked for. */
  predicate RangeOk(m: Memory, r: Range) {
    r.cnt > 0 && r.align > 0 && r.start + r.cnt <= |m.bits| && Aligned(m.first, r.start, r.align)
  }

  predicate Apart(a: Range, b: Range) {
    a.start + a.cnt <= b.start || b.start + b.cnt <= a.start
  }

  /** Live ranges are in bounds, aligned and pairwise disjoint, and the bitmap is exactly their union. */
  ghost predicate Inv(s: Books) {
    && (forall r :: r in s.live ==> RangeOk(s.m, r))
    && (forall a, b :: a in s.live && b in s.live && a != b ==> Apart(a, b))
    && (forall k :: 0 <= k < |s.m.bits| ==> (s.m.bits[k] <==> exists r :: r in s.live && Covers(r, k)))
  }

  datatype Op = Get(cnt: nat, align: nat) | Put(range: Range)

  ghost predicate CanDo(s: Books, op: Op) {
    match op
    case Get(_, align) => align > 0
    case Put(range) => range in s.live
  }

  ghost function Do(s: Books, op: Op): Books
    requires CanDo(s, op)
  {
    match op
    case Get(cnt, align) =>
      var (r, m) := Alloc(s.m, cnt, align);
      Books(m, if r.Some? then s.live + {Range(r.value, cnt, align)} else s.live)
    case Put(range) => Books(Release(s.m, range.start, range.cnt), s.live - {range})
  }

  /** A range found free overlaps no live range. */
  lemma FreeIsApart(s: Books, got: Range, r: Range)
    requires Inv(s) && Free(s.m.bits, got.start, got.cnt) && got.cnt > 0 && r in s.live
    ensures Apart(got, r)
  {
    if !Apart(got, r) {
      var k := if got.start <= r.start then r.start else got.start;
      LiveIsSet(s, r, k);
    }
  }

  lemma LiveIsSet(s: Books, r: Range, k: nat)
    requires Inv(s) && r in s.live && Covers(r, k)
    ensures k < |s.m.bits| && s.m.bits[k]
  {
    assert RangeOk(s.m, r);
  }

  lemma GetKeeps(s: Books, cnt: nat, align: nat)
    requires Inv(s) && align > 0
    ensures Inv(Do(s, Get(cnt, align)))
  {
    FirstFit(s.m, cnt, align);
    var (r, m) := Alloc(s.m, cnt, align);
    if r.Some? {
      AddKeeps(s, m, Range(r.value, cnt, align));
    }
  }

  lemma AddKeeps(s: Books, m: Memory, got: Range)
    requires Inv(s) && Free(s.m.bits, got.start, got.cnt) && RangeOk(s.m, got)
    requires m.first == s.m.first && m.bits == SetRange(s.m.bits, got.start, got.cnt, true)
    ensures Inv(Books(m, s.live + {got}))
  {
    var live := s.live + {got};
    forall a, b | a in live && b in live && a != b ensures Apart(a, b) {
      if a == got { FreeIsApart(s, got, b); }
      if b == got { FreeIsApart(s, got, a); }
    }
    forall k | 0 <= k < |m.bits| ensures m.bits[k] <==> exists r :: r in live && Covers(r, k) {
      if Covers(got, k) {
        assert got in live;
      } else if s.m.bits[k] {
        var r :| r in s.live && Covers(r, k);
        assert r in live;
      }
    }
  }

  lemma PutKeeps(s: Books, range: Range)
    requires Inv(s) && range in s.live
    ensures Inv(Do(s, Put(range)))
  {
    var m, live := Release(s.m, range.start, range.cnt), s.live - {range};
    forall k | 0 <= k < |m.bits| ensures m.bits[k] <==> exists r :: r in live && Covers(r, k) {
      if Covers(range, k) {
        forall r | r in live ensures !Covers(r, k) {
          assert Apart(range, r);
        }
      } else if s.m.bits[k] {
        var r :| r in s.live && Covers(r, k);
        assert r in live;
      }
    }
  }

  ghost predicate IsRun(s: Books, ops: seq<Op>)
    decreases |ops|
  {
    ops == [] || (CanDo(s, ops[0]) && IsRun(Do(s, ops[0]), ops[1..]))
  }

  ghost function Final(s: Books, ops: seq<Op>): Books
    requires IsRun(s, ops)
    decreases |ops|
  {
    if ops == [] then s else Final(Do(s, ops[0]), ops[1..])
  }

  /** Over every run of allocations and frees of live ranges, the bitmap is the disjoint union of what
      is live. */
  lemma {:induction false} RunKeeps(s: Books, ops: seq<Op>)
    requires Inv(s) && IsRun(s, ops)
    ensures Inv(Final(s, ops)) && Final(s, ops).m.first == s.m.first && |Final(s, ops).m.bits| == |s.m.bits|
    decreases |ops|
  {
    if ops != [] {
      match ops[0] {
        case Get(cnt, align) => GetKeeps(s, cnt, align);
        case Put(range) => PutKeeps(s, range);
      }
      RunKeeps(Do(s, ops[0]), ops[1..]);
    }
  }

  /** A run in which nothing is handed out: frees, and requests that fail. */
  ghost predicate Quiet(s: Books, ops: seq<Op>)
    requires IsRun(s, ops)
    decreases |ops|
  {
    ops == [] ||
    (&& (ops[0].Get? ==> Alloc(s.m, ops[0].cnt, ops[0].align).0.None?)
     && Quiet(Do(s, ops[0]), ops[1..]))
  }

  lemma {:induction false} QuietHint(s: Books, ops: seq<Op>)
    requires IsRun(s, ops) && Quiet(s, ops)
    ensures Final(s, ops).m.lastFree == s.m.lastFree && Final(s, ops).m.first == s.m.first
    decreases |ops|
  {
    if ops != [] {
      QuietHint(Do(s, ops[0]), ops[1..]);
    }
  }

  /** Over every run: after an allocation at page i, whatever is freed, the next one that succeeds gets
      the first aligned fit after page i + cnt - 1 that starts at or after the page that was the first
      free one then, or, if none was free, the first fit of the module. */
  lemma NextFit(s: Books, cnt: nat, align: nat, ops: seq<Op>, cnt': nat, align': nat)
    requires align > 0 && align' > 0 && Alloc(s.m, cnt, align).0.Some?
    requires IsRun(Do(s, Get(cnt, align)), ops) && Quiet(Do(s, Get(cnt, align)), ops)
    ensures var i, m := Alloc(s.m, cnt, align).0.value, Final(Do(s, Get(cnt, align)), ops).m;
            var r, bits := Alloc(m, cnt', align').0, Do(s, Get(cnt, align)).m.bits;
            exists h :: && HintAfter(bits, i, cnt, h) && Finds(m.first, m.bits, h, cnt', align', r)
                        && (h > 0 ==> i + cnt <= h)
  {
    var s1 := Do(s, Get(cnt, align));
    AllocHint(s.m, cnt, align);
    QuietHint(s1, ops);
    FirstFit(Final(s1, ops).m, cnt', align');
    assert HintAfter(s1.m.bits, Alloc(s.m, cnt, align).0.value, cnt, s1.m.lastFree);
  }

  lemma EmptyOk(first: nat, pages: nat)
    ensures Inv(Books(Memory(first, seq(pages, _ => false), 0), {}))
  {
  }
}
