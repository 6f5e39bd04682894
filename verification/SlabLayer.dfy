/** Steps of the slab layer under the magazines. */
module SlabLayer {
  import opened Common
  import opened SlabGeometry
  import opened SlabCache

  // ---------------------------------------------------------------------------
  // Steps
  // ---------------------------------------------------------------------------

  predicate CanGrow(s: Cache, p: nat) {
    p !in s.bufs && s.layout.chunk > 0
  }

  /** `slab_create_small` on the fresh page `p`, and its insertion at the tail of the list. */
  function Grow(s: Cache, p: nat): Cache
    requires CanGrow(s, p)
  {
    var color := NextColor(s.layout, s.color);
    var n := Capacity(s.layout, color);
    var start := Buffer(s.layout, p, color, 0);
    var made := FreshBuffers(s.layout.chunk, start, n);
    s.(color := color, slabs := s.slabs + [p], buflist := s.buflist[p := FreshList(s.layout.chunk, start, n)],
       refcount := s.refcount[p := 0], bufs := s.bufs[p := made],
       home := s.home + map o | o in made :: InSlab)
  }

  predicate CanTake(s: Cache, p: nat) {
    p in s.slabs && p in s.buflist && p in s.refcount && s.buflist[p] != []
  }

  /** The buffer that `kmem_cache_alloc` takes from slab `p`. */
  function First(s: Cache, p: nat): nat
    requires CanTake(s, p)
  {
    s.buflist[p][0]
  }

  /** Lines 295-309. */
  function Take(s: Cache, p: nat): Cache
    requires CanTake(s, p)
  {
    var last := |s.buflist[p]| == 1;
    s.(slabs := if last then Remove(s.slabs, p) else s.slabs,
       fullSlabs := if last then s.fullSlabs + [p] else s.fullSlabs,
       buflist := s.buflist[p := s.buflist[p][1..]], refcount := s.refcount[p := s.refcount[p] + 1],
       home := s.home[First(s, p) := Live])
  }

  predicate CanPut(s: Cache, o: nat) {
    o / PAGE_SIZE in s.buflist && o / PAGE_SIZE in s.refcount && s.refcount[o / PAGE_SIZE] > 0
  }

  /** Lines 398-416, up to the test of the count. */
  function Put(s: Cache, o: nat): Cache
    requires CanPut(s, o)
  {
    var p := o / PAGE_SIZE;
    var was := s.buflist[p] == [];
    s.(fullSlabs := if was then Remove<nat>(s.fullSlabs, p) else s.fullSlabs,
       slabs := if was then [p] + s.slabs else s.slabs,
       buflist := s.buflist[p := [o] + s.buflist[p]],
       refcount := s.refcount[p := s.refcount[p] - 1], home := s.home[o := InSlab])
  }

  /** Lines 417-419: a slab without outstanding objects goes back to the page allocator. */
  function Reclaim(s: Cache, p: nat): Cache
    requires p in s.bufs
  {
    s.(slabs := Remove(s.slabs, p), buflist := s.buflist - {p}, refcount := s.refcount - {p},
       home := s.home - s.bufs[p], bufs := s.bufs - {p})
  }

  // ---------------------------------------------------------------------------
  // They keep the invariant
  // ---------------------------------------------------------------------------

  lemma MagazinesUntouched(s: Cache, s': Cache)
    requires MagazinesOk(s) && RoundsOk(s)
    requires s'.size == s.size && s'.cpus == s.cpus && s'.full == s.full && s'.empty == s.empty
    requires s'.rounds == s.rounds && s'.spot == s.spot
    requires forall o, m :: Holds(s', m, o) <==> Holds(s, m, o)
    ensures MagazinesOk(s') && RoundsOk(s')
  {
    forall d | 0 <= d < |s'.cpus| ensures CpuOk(s', d) {
      assert CpuOk(s, d);
    }
    forall n | n in s'.spot ensures SpotOk(s', n) && Contents(s', n) == Contents(s, n) {
      assert SpotOk(s, n);
    }
    forall n, o | n in s'.spot ensures o in Contents(s', n) <==> Holds(s', n, o) {
      assert o in Contents(s, n) <==> Holds(s, n, o);
    }
    forall o | o in s'.home && s'.home[o].InMagazine? ensures s'.home[o].mag in s'.spot {
      assert Holds(s, s'.home[o].mag, o);
    }
  }

  /** The slab whose first buffer is taken. */
  lemma TakeKeeps(s: Cache, p: nat)
    requires Inv(s) && p in s.slabs
    ensures CanTake(s, p) && First(s, p) in s.home && !s.home[First(s, p)].Live?
    ensures Inv(Take(s, p)) && LiveSet(Take(s, p)) == LiveSet(s) + {First(s, p)}
  {
    TakeFirst(s, p);
    var s' := Take(s, p);
    MagazinesUntouched(s, s');
    LiveAdds(s, s', First(s, p));
    TakeSlabs(s, p);
  }

  lemma TakeFirst(s: Cache, p: nat)
    requires SlabsOk(s) && p in s.slabs
    ensures CanTake(s, p) && p in s.bufs
    ensures var o := First(s, p); o in s.bufs[p] && o in s.home && s.home[o].InSlab? && o / PAGE_SIZE == p
  {
    assert SlabOk(s, p);
    assert s.buflist[p][0] in s.buflist[p];
    assert BufferOk(s, p, s.buflist[p][0]);
  }

  lemma TakeSlabs(s: Cache, p: nat)
    requires SlabsOk(s) && p in s.slabs && CanTake(s, p)
    ensures SlabsOk(Take(s, p))
  {
    var s' := Take(s, p);
    TakeFirst(s, p);
    assert SlabOk(s, p);
    DistinctTail(s.buflist[p]);
    TakeLists(s, p);
    forall q | q in s'.bufs ensures SlabOk(s', q) {
      assert SlabOk(s, q);
    }
    forall q, o: nat | q in s'.bufs && q in s'.buflist ensures BufferOk(s', q, o) {
      assert BufferOk(s, q, o);
    }
  }

  lemma TakeLists(s: Cache, p: nat)
    requires CanTake(s, p) && Distinct(s.slabs) && Distinct(s.fullSlabs) && p !in s.fullSlabs
    ensures var s', last := Take(s, p), |s.buflist[p]| == 1;
            && Distinct(s'.slabs) && Distinct(s'.fullSlabs)
            && (forall q :: q in s'.slabs <==> q in s.slabs && !(last && q == p))
            && (forall q :: q in s'.fullSlabs <==> q in s.fullSlabs || (last && q == p))
  {
    RemoveDistinct(s.slabs, p);
  }

  // ---------------------------------------------------------------------------
  // Freeing
  // ---------------------------------------------------------------------------

  /** The free buffers of a slab are buffers of the slab, so they are no more, and if they are as many
      they are all. */
  lemma {:induction false} FreeCount(q: seq<nat>, all: set<nat>)
    requires Distinct(q) && forall b :: b in q ==> b in all
    ensures |q| <= |all|
    ensures |q| == |all| ==> forall o :: o in all ==> o in q
    decreases |q|
  {
    if q != [] {
      DistinctTail(q);
      FreeCount(q[1..], all - {q[0]});
      assert |all - {q[0]}| == |all| - 1;
    }
  }

  lemma {:induction false} SomeTaken(q: seq<nat>, all: set<nat>)
    requires |q| < |all|
    ensures exists x :: x in all && x !in q
    decreases |q|
  {
    if q == [] {
      var x :| x in all;
    } else {
      SomeTaken(q[1..], all - {q[0]});
      var x :| x in all - {q[0]} && x !in q[1..];
      assert x in all && x !in q;
    }
  }

  lemma SlabFreeCount(s: Cache, p: nat)
    requires SlabsOk(s) && p in s.bufs
    ensures SlabOk(s, p)
    ensures s.refcount[p] == 0 ==> forall o :: o in s.bufs[p] ==> o in s.home && s.home[o].InSlab?
    ensures forall o :: o in s.bufs[p] && o in s.home && !s.home[o].InSlab? ==> s.refcount[p] > 0
  {
    assert SlabOk(s, p);
    forall b | b in s.buflist[p] ensures b in s.bufs[p] {
      assert BufferOk(s, p, b);
    }
    FreeCount(s.buflist[p], s.bufs[p]);
    if s.refcount[p] == 0 {
      forall o | o in s.bufs[p] ensures o in s.home && s.home[o].InSlab? {
        assert BufferOk(s, p, o);
      }
    }
  }

  lemma PutKeeps(s: Cache, o: nat)
    requires Inv(s) && o in LiveSet(s)
    ensures CanPut(s, o)
    ensures Inv(Put(s, o)) && LiveSet(Put(s, o)) == LiveSet(s) - {o} && o / PAGE_SIZE in Put(s, o).bufs
  {
    PutSlabs(s, o);
    LiveDrops(s, Put(s, o), o, InSlab);
    MagazinesUntouched(s, Put(s, o));
  }

  lemma PutSlabs(s: Cache, o: nat)
    requires SlabsOk(s) && o in s.home && s.home[o].Live?
    ensures CanPut(s, o) && o / PAGE_SIZE in s.bufs && SlabsOk(Put(s, o))
  {
    var p := o / PAGE_SIZE;
    assert SlabOk(s, p) && BufferOk(s, p, o);
    SlabFreeCount(s, p);
    var s' := Put(s, o);
    DistinctCons(o, s.buflist[p]);
    PutLists(s, o);
    forall q | q in s'.bufs ensures SlabOk(s', q) {
      assert SlabOk(s, q);
    }
    forall q, x: nat | q in s'.bufs && q in s'.buflist ensures BufferOk(s', q, x) {
      assert BufferOk(s, q, x);
    }
  }

  lemma PutLists(s: Cache, o: nat)
    requires CanPut(s, o) && Distinct(s.slabs) && Distinct(s.fullSlabs)
    requires var p := o / PAGE_SIZE; (p in s.slabs <==> s.buflist[p] != []) && (p in s.fullSlabs <==> s.buflist[p] == [])
    ensures var s', p := Put(s, o), o / PAGE_SIZE;
            && Distinct(s'.slabs) && Distinct(s'.fullSlabs)
            && (forall q :: q in s'.slabs <==> q in s.slabs || q == p)
            && (forall q :: q in s'.fullSlabs <==> q in s.fullSlabs && q != p)
  {
    var p := o / PAGE_SIZE;
    if s.buflist[p] == [] {
      RemoveDistinct<nat>(s.fullSlabs, p);
      DistinctCons(p, s.slabs);
    }
  }

  /** Only free buffers go with a reclaimed slab. */
  lemma ReclaimKeeps(s: Cache, p: nat)
    requires Inv(s) && p in s.bufs && p in s.refcount && s.refcount[p] == 0 && p in s.slabs
    ensures Inv(Reclaim(s, p)) && LiveSet(Reclaim(s, p)) == LiveSet(s)
  {
    var s' := Reclaim(s, p);
    ReclaimHomes(s, p);
    MagazinesUntouched(s, s');
    ReclaimSlabs(s, p);
  }

  lemma ReclaimHomes(s: Cache, p: nat)
    requires SlabsOk(s) && p in s.bufs && p in s.refcount && s.refcount[p] == 0 && p in s.slabs
    ensures forall o :: o in s.home && !s.home[o].InSlab? ==> o in Reclaim(s, p).home && Reclaim(s, p).home[o] == s.home[o]
    ensures forall o :: o in Reclaim(s, p).home ==> o in s.home && Reclaim(s, p).home[o] == s.home[o]
    ensures LiveSet(Reclaim(s, p)) == LiveSet(s)
  {
    SlabFreeCount(s, p);
  }

  lemma ReclaimSlabs(s: Cache, p: nat)
    requires SlabsOk(s) && p in s.bufs && p in s.slabs
    ensures SlabsOk(Reclaim(s, p))
  {
    var s' := Reclaim(s, p);
    assert SlabOk(s, p);
    RemoveDistinct(s.slabs, p);
    forall o: nat | o in s'.home ensures o / PAGE_SIZE in s'.bufs {
      assert BufferOk(s, p, o);
    }
    forall q | q in s'.bufs ensures SlabOk(s', q) {
      assert SlabOk(s, q);
    }
    forall q, o: nat | q in s'.bufs && q in s'.buflist ensures BufferOk(s', q, o) {
      assert BufferOk(s, q, o) && BufferOk(s, p, o) && SlabOk(s, q);
    }
  }

  // ---------------------------------------------------------------------------
  // Growing
  // ---------------------------------------------------------------------------

  lemma {:induction false} FreshMembers(chunk: nat, start: nat, n: nat)
    ensures forall o :: o in FreshBuffers(chunk, start, n) <==> o in FreshList(chunk, start, n)
    ensures forall o :: o in FreshBuffers(chunk, start, n) ==> start <= o
    decreases n
  {
    if n > 0 {
      FreshMembers(chunk, start + chunk, n - 1);
    }
  }

  lemma {:induction false} FreshLength(chunk: nat, start: nat, n: nat)
    ensures |FreshList(chunk, start, n)| == n
    decreases n
  {
    if n > 0 {
      FreshLength(chunk, start + chunk, n - 1);
    }
  }

  lemma {:induction false} FreshSize(chunk: nat, start: nat, n: nat)
    requires chunk > 0
    ensures |FreshBuffers(chunk, start, n)| == n
    decreases n
  {
    if n > 0 {
      var rest := FreshBuffers(chunk, start + chunk, n - 1);
      FreshSize(chunk, start + chunk, n - 1);
      assert start !in rest by { FreshMembers(chunk, start + chunk, n - 1); }
    }
  }

  lemma {:induction false} FreshDistinct(chunk: nat, start: nat, n: nat)
    requires chunk > 0
    ensures Distinct(FreshList(chunk, start, n))
    decreases n
  {
    if n > 0 {
      var q := FreshList(chunk, start + chunk, n - 1);
      FreshDistinct(chunk, start + chunk, n - 1);
      assert start !in q by { FreshMembers(chunk, start + chunk, n - 1); }
      DistinctSnoc(q, start);
    }
  }

  /** What the loop of `slab_create_small` builds: as many buffers as it runs, each once. */
  lemma FreshSlab(chunk: nat, start: nat, n: nat)
    requires chunk > 0
    ensures var q, all := FreshList(chunk, start, n), FreshBuffers(chunk, start, n);
            && |q| == n == |all| && Distinct(q)
            && (forall o :: o in all <==> o in q)
  {
    FreshLength(chunk, start, n);
    FreshSize(chunk, start, n);
    FreshDistinct(chunk, start, n);
    FreshMembers(chunk, start, n);
  }

  lemma DistinctSnoc(q: seq<nat>, x: nat)
    requires Distinct(q) && x !in q
    ensures Distinct(q + [x]) && forall y :: y in q + [x] <==> y in q || y == x
  {
    assert forall i :: 0 <= i < |q| ==> q[i] in q;
  }

  /** The i-th chunk is buffer i. */
  lemma {:induction false} FreshIsBuffer(chunk: nat, start: nat, n: nat, o: nat)
    requires o in FreshBuffers(chunk, start, n)
    ensures exists i: nat :: i < n && o == start + i * chunk
    decreases n
  {
    if o == start {
      assert o == start + 0 * chunk;
    } else {
      FreshIsBuffer(chunk, start + chunk, n - 1, o);
      var i: nat :| i < n - 1 && o == start + chunk + i * chunk;
      assert o == start + (i + 1) * chunk;
    }
  }

  lemma FreshInPage(l: Layout, p: nat, color: nat, o: nat)
    requires LayoutOk(l) && ColorOk(l, color)
    requires o in FreshBuffers(l.chunk, Buffer(l, p, color, 0), Capacity(l, color))
    ensures o / PAGE_SIZE == p
  {
    FreshIsBuffer(l.chunk, Buffer(l, p, color, 0), Capacity(l, color), o);
    var i: nat :| i < Capacity(l, color) && o == Buffer(l, p, color, 0) + i * l.chunk;
    assert o == Buffer(l, p, color, i);
    BufferInPage(l, p, color, i);
  }

  /** The slab a cache grows by. */
  lemma GrownSlab(s: Cache, p: nat)
    requires ColoringOk(s) && CanGrow(s, p) && Capacity(s.layout, 0) > 0
    ensures var s' := Grow(s, p);
            && ColoringOk(s') && |s'.buflist[p]| == |s'.bufs[p]| == Capacity(s.layout, 0) && Distinct(s'.buflist[p])
            && (forall o :: o in s'.bufs[p] <==> o in s'.buflist[p])
            && (forall o :: o in s'.bufs[p] ==> o / PAGE_SIZE == p)
  {
    var s' := Grow(s, p);
    var n := Capacity(s.layout, s'.color);
    ColoringIsFree(s.layout, s.color);
    ColoringIsFree(s.layout, s'.color);
    assert ColorOk(s.layout, 0);
    ColoringIsFree(s.layout, 0);
    FreshSlab(s.layout.chunk, Buffer(s.layout, p, s'.color, 0), n);
    forall o | o in s'.bufs[p] ensures o / PAGE_SIZE == p {
      FreshInPage(s.layout, p, s'.color, o);
    }
  }

  lemma GrowKeeps(s: Cache, p: nat)
    requires Inv(s) && CanGrow(s, p) && Capacity(s.layout, 0) > 0
    ensures Inv(Grow(s, p)) && LiveSet(Grow(s, p)) == LiveSet(s) && p in Grow(s, p).slabs
  {
    var s' := Grow(s, p);
    GrownSlab(s, p);
    GrowHomes(s, p);
    MagazinesUntouched(s, s');
    GrowSlabs(s, p);
  }

  lemma GrowHomes(s: Cache, p: nat)
    requires SlabsOk(s) && ColoringOk(s) && CanGrow(s, p) && Capacity(s.layout, 0) > 0
    ensures forall o :: o in Grow(s, p).bufs[p] ==> o !in s.home
    ensures LiveSet(Grow(s, p)) == LiveSet(s)
  {
    var made := Grow(s, p).bufs[p];
    assert forall o :: o in made ==> o / PAGE_SIZE == p by { GrownSlab(s, p); }
    GrowLive(s, p, made);
  }

  lemma GrowLive(s: Cache, p: nat, made: set<nat>)
    requires SlabsOk(s) && CanGrow(s, p) && made == Grow(s, p).bufs[p] && forall o :: o in made ==> o / PAGE_SIZE == p
    ensures forall o :: o in made ==> o !in s.home
    ensures LiveSet(Grow(s, p)) == LiveSet(s)
  {
  }

  lemma GrowSlabs(s: Cache, p: nat)
    requires SlabsOk(s) && ColoringOk(s) && CanGrow(s, p) && Capacity(s.layout, 0) > 0
    ensures SlabsOk(Grow(s, p))
  {
    var s' := Grow(s, p);
    GrownSlab(s, p);
    assert p !in s.slabs && p !in s.fullSlabs;
    forall q | q in s'.bufs ensures SlabOk(s', q) {
      if q != p {
        assert SlabOk(s, q);
      }
    }
    GrowBuffers(s, p);
  }

  lemma GrowBuffers(s: Cache, p: nat)
    requires SlabsOk(s) && ColoringOk(s) && CanGrow(s, p) && Capacity(s.layout, 0) > 0
    ensures forall q, o: nat :: q in Grow(s, p).bufs && q in Grow(s, p).buflist ==> BufferOk(Grow(s, p), q, o)
    ensures forall o :: o in Grow(s, p).home ==> o / PAGE_SIZE in Grow(s, p).bufs
  {
    var s' := Grow(s, p);
    GrownSlab(s, p);
    forall q, o: nat | q in s'.bufs && q in s'.buflist ensures BufferOk(s', q, o) {
      if q != p {
        assert BufferOk(s, q, o) && SlabOk(s, q);
      }
    }
  }
}
