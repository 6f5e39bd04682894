/** `kmem_cache_alloc` and `kmem_cache_free`: all interleavings of their steps refine a plain set
    allocator, and the retry loops end. */
module KmemCache {
  import opened Common
  import opened SlabGeometry
  import opened SlabCache
  import opened SlabLayer

  // ---------------------------------------------------------------------------
  // Interleavings
  // ---------------------------------------------------------------------------

  /** What one CPU does under one lock, with the guard the code has established. */
  datatype Step =
    | AllocExchange(c: nat)
    | AllocReload(c: nat)
    | AllocPop(c: nat)
    | AllocGrow(p: nat)
    | AllocTake(p: nat)
    | FreeExchange(c: nat)
    | FreeReload(c: nat)
    | FreeMagazine(m: nat, words: seq<nat>)
    | FreePush(c: nat, o: nat)
    | FreePut(o: nat)

  /** What a step means to the client of the cache. */
  datatype Event = Silent | Allocated(o: nat) | Freed(o: nat)

  predicate FullUp(s: Cache, c: nat)
    requires HasCpu(s, c)
  {
    !(0 <= s.cpus[c].rounds < s.size)
  }

  predicate Enabled(s: Cache, e: Step) {
    match e
    case AllocExchange(c) => HasCpu(s, c) && s.cpus[c].rounds <= 0 && s.cpus[c].prevRounds > 0
    case AllocReload(c) => HasCpu(s, c) && s.cpus[c].rounds <= 0 && s.cpus[c].prevRounds <= 0 && s.full != []
    case AllocPop(c) => HasCpu(s, c) && s.cpus[c].rounds > 0 && CanPop(s, c)
    case AllocGrow(p) => CanGrow(s, p) && Capacity(s.layout, 0) > 0
    case AllocTake(p) => CanTake(s, p)
    case FreeExchange(c) => HasCpu(s, c) && FullUp(s, c) && s.cpus[c].prevRounds == 0
    case FreeReload(c) => HasCpu(s, c) && FullUp(s, c) && s.cpus[c].prevRounds != 0 && s.empty != []
    case FreeMagazine(m, words) => m !in s.spot && |words| == s.size
    case FreePush(c, o) => CanPush(s, c) && !FullUp(s, c) && o in LiveSet(s)
    case FreePut(o) => CanPut(s, o) && o in LiveSet(s)
  }

  /** Put the object on its slab, and give the slab back if it was the last one. */
  function PutOrReclaim(s: Cache, o: nat): Cache
    requires CanPut(s, o)
  {
    var p, s' := o / PAGE_SIZE, Put(s, o);
    if s'.refcount[p] == 0 && p in s'.bufs then Reclaim(s', p) else s'
  }

  /** Retiring the previous magazine and loading a new one. */
  function ReloadFull(s: Cache, c: nat): Cache
    requires HasCpu(s, c) && s.cpus[c].prevRounds <= 0 && s.full != [] && s.size > 0
  {
    InstallFull(if s.cpus[c].prevRounds == 0 then Retire(s, c) else s, c)
  }

  function ReloadEmpty(s: Cache, c: nat): Cache
    requires HasCpu(s, c) && s.cpus[c].prevRounds != 0 && s.empty != []
  {
    InstallEmpty(if s.cpus[c].prevRounds > 0 then Retire(s, c) else s, c)
  }

  function Apply(s: Cache, e: Step): Cache
    requires Enabled(s, e) && s.size > 0
  {
    match e
    case AllocExchange(c) => Exchange(s, c)
    case AllocReload(c) => ReloadFull(s, c)
    case AllocPop(c) => PopRound(s, c)
    case AllocGrow(p) => Grow(s, p)
    case AllocTake(p) => Take(s, p)
    case FreeExchange(c) => Exchange(s, c)
    case FreeReload(c) => ReloadEmpty(s, c)
    case FreeMagazine(m, words) => AddMagazine(s, m, words)
    case FreePush(c, o) => PushRound(s, c, o)
    case FreePut(o) => PutOrReclaim(s, o)
  }

  function Observe(s: Cache, e: Step): Event
    requires Enabled(s, e)
  {
    match e
    case AllocPop(c) => Allocated(Top(s, c))
    case AllocTake(p) => Allocated(First(s, p))
    case FreePush(_, o) => Freed(o)
    case FreePut(o) => Freed(o)
    case _ => Silent
  }

  /** The plain allocator: hand out what is not handed out, take back what is. */
  predicate Allowed(live: set<nat>, ev: Event) {
    match ev
    case Silent => true
    case Allocated(o) => o !in live
    case Freed(o) => o in live
  }

  function Next(live: set<nat>, ev: Event): set<nat> {
    match ev
    case Silent => live
    case Allocated(o) => live + {o}
    case Freed(o) => live - {o}
  }

  lemma ReloadFullKeeps(s: Cache, c: nat)
    requires Inv(s) && HasCpu(s, c) && s.cpus[c].rounds <= 0 && s.cpus[c].prevRounds <= 0 && s.full != []
    ensures Inv(ReloadFull(s, c)) && LiveSet(ReloadFull(s, c)) == LiveSet(s)
  {
    assert CpuOk(s, c);
    RetireKeeps(s, c);
    InstallFullKeeps(if s.cpus[c].prevRounds == 0 then Retire(s, c) else s, c);
  }

  lemma ReloadEmptyKeeps(s: Cache, c: nat)
    requires Inv(s) && HasCpu(s, c) && FullUp(s, c) && s.cpus[c].prevRounds != 0 && s.empty != []
    ensures Inv(ReloadEmpty(s, c)) && LiveSet(ReloadEmpty(s, c)) == LiveSet(s)
  {
    assert CpuOk(s, c);
    RetireKeeps(s, c);
    InstallEmptyKeeps(if s.cpus[c].prevRounds > 0 then Retire(s, c) else s, c);
  }

  lemma PutOrReclaimKeeps(s: Cache, o: nat)
    requires Inv(s) && o in LiveSet(s)
    ensures CanPut(s, o)
    ensures Inv(PutOrReclaim(s, o)) && LiveSet(PutOrReclaim(s, o)) == LiveSet(s) - {o}
  {
    PutKeeps(s, o);
    var p, s' := o / PAGE_SIZE, Put(s, o);
    if s'.refcount[p] == 0 {
      assert SlabOk(s', p);
      ReclaimKeeps(s', p);
    }
  }

  /** An object that goes back to its slab leaves the slab in place exactly if another object of the slab is
      outside the free list; otherwise the slab goes, with all its buffers. No other slab is touched. */
  lemma EmptySlabGoes(s: Cache, o: nat)
    requires Inv(s) && Enabled(s, FreePut(o)) && s.size > 0
    ensures o / PAGE_SIZE in s.bufs && o / PAGE_SIZE in s.buflist
    ensures var p, s' := o / PAGE_SIZE, Apply(s, FreePut(o));
            && (p in s'.bufs <==> exists x :: x in s.bufs[p] && x != o && x !in s.buflist[p])
            && (p !in s'.bufs ==> p !in s'.slabs && p !in s'.fullSlabs && forall x :: x in s.bufs[p] ==> x !in s'.home)
            && (forall q :: q != p ==> (q in s'.bufs <==> q in s.bufs))
  {
    var p := o / PAGE_SIZE;
    LastOut(s, o);
    PutBufs(s, o);
    if s.refcount[p] == 1 {
      SlabGone(s, o);
    }
  }

  /** The count of a slab is one exactly if all its other buffers are on the free list. */
  lemma LastOut(s: Cache, o: nat)
    requires SlabsOk(s) && o in s.home && s.home[o].Live?
    ensures o / PAGE_SIZE in s.bufs && o / PAGE_SIZE in s.buflist && o / PAGE_SIZE in s.refcount
    ensures var p := o / PAGE_SIZE; s.refcount[p] != 1 <==> exists x :: x in s.bufs[p] && x != o && x !in s.buflist[p]
  {
    var p := o / PAGE_SIZE;
    assert SlabOk(s, p) && BufferOk(s, p, o);
    var q, others := s.buflist[p], s.bufs[p] - {o};
    forall b | b in q ensures b in others {
      assert BufferOk(s, p, b);
    }
    assert |others| == |s.bufs[p]| - 1;
    FreeCount(q, others);
    if s.refcount[p] != 1 {
      SomeTaken(q, others);
    }
  }

  lemma PutBufs(s: Cache, o: nat)
    requires CanPut(s, o) && o / PAGE_SIZE in s.bufs
    ensures var p, s' := o / PAGE_SIZE, PutOrReclaim(s, o);
            s'.bufs == if s.refcount[p] == 1 then s.bufs - {p} else s.bufs
  {
  }

  lemma SlabGone(s: Cache, o: nat)
    requires SlabsOk(s) && CanPut(s, o) && o / PAGE_SIZE in s.bufs && s.refcount[o / PAGE_SIZE] == 1
    ensures var p, s' := o / PAGE_SIZE, PutOrReclaim(s, o);
            p !in s'.slabs && p !in s'.fullSlabs && forall x :: x in s.bufs[p] ==> x !in s'.home
  {
    var p, s1 := o / PAGE_SIZE, Put(s, o);
    assert SlabOk(s, p);
    SlabLayer.PutLists(s, o);
    RemoveDistinct<nat>(s1.slabs, p);
    assert PutOrReclaim(s, o) == Reclaim(s1, p);
  }

  /** Every step of every CPU keeps the invariant and is a move of the plain allocator. */
  lemma StepRefines(s: Cache, e: Step)
    requires Inv(s) && Enabled(s, e)
    ensures Inv(Apply(s, e))
    ensures Allowed(LiveSet(s), Observe(s, e)) && LiveSet(Apply(s, e)) == Next(LiveSet(s), Observe(s, e))
  {
    match e
    case AllocExchange(c) =>
      assert CpuOk(s, c);
      ExchangeKeeps(s, c);
    case AllocReload(c) => ReloadFullKeeps(s, c);
    case AllocPop(c) => PopKeeps(s, c);
    case AllocGrow(p) => GrowKeeps(s, p);
    case AllocTake(p) => TakeKeeps(s, p);
    case FreeExchange(c) =>
      assert CpuOk(s, c);
      ExchangeKeeps(s, c);
    case FreeReload(c) => ReloadEmptyKeeps(s, c);
    case FreeMagazine(m, words) => AddMagazineKeeps(s, m, words);
    case FreePush(c, o) => PushKeeps(s, c, o);
    case FreePut(o) => PutOrReclaimKeeps(s, o);
  }

  ghost predicate IsRun(s: Cache, es: seq<Step>)
    decreases |es|
  {
    es == [] || (s.size > 0 && Enabled(s, es[0]) && IsRun(Apply(s, es[0]), es[1..]))
  }

  ghost function Final(s: Cache, es: seq<Step>): Cache
    requires IsRun(s, es)
    decreases |es|
  {
    if es == [] then s else Final(Apply(s, es[0]), es[1..])
  }

  ghost function Trace(s: Cache, es: seq<Step>): seq<Event>
    requires IsRun(s, es)
    decreases |es|
  {
    if es == [] then [] else [Observe(s, es[0])] + Trace(Apply(s, es[0]), es[1..])
  }

  /** A history of the plain allocator that starts with `live` handed out and ends with `end`. */
  ghost predicate IsHistory(live: set<nat>, evs: seq<Event>, end: set<nat>)
    decreases |evs|
  {
    if evs == [] then end == live else Allowed(live, evs[0]) && IsHistory(Next(live, evs[0]), evs[1..], end)
  }

  /** A cache that has been created and not used, with any number of CPUs. */
  predicate Initial(s: Cache) {
    && s.size > 0 && s.full == [] && s.empty == [] && s.rounds == map[] && s.spot == map[]
    && s.slabs == [] && s.fullSlabs == [] && s.buflist == map[] && s.refcount == map[] && s.bufs == map[]
    && s.home == map[] && s.color == 0
    && (forall c :: 0 <= c < |s.cpus| ==> s.cpus[c] == Cpu(None, -1, None, -1))
  }

  lemma InitialOk(s: Cache)
    requires Initial(s) && LayoutOk(s.layout)
    ensures Inv(s) && LiveSet(s) == {}
  {
  }

  /** The layers together refine the plain allocator, in every interleaving: no object is handed out
      twice, and none is lost. */
  lemma {:induction false} CacheRefinesSet(s: Cache, es: seq<Step>)
    requires Inv(s) && IsRun(s, es)
    ensures Inv(Final(s, es)) && IsHistory(LiveSet(s), Trace(s, es), LiveSet(Final(s, es)))
    decreases |es|
  {
    if es != [] {
      StepRefines(s, es[0]);
      CacheRefinesSet(Apply(s, es[0]), es[1..]);
      assert Trace(s, es)[1..] == Trace(Apply(s, es[0]), es[1..]);
    }
  }

  /** From which slab and magazine the next object comes: a slab that was full and gets an object back is the first, and
      that object its first buffer; a new slab is the last; and the magazine a CPU retires is the first of its
      list in the depot. */
  lemma LastInFirstOut(s: Cache, e: Step)
    requires Inv(s) && Enabled(s, e)
    ensures e.FreePut? && e.o / PAGE_SIZE in s.fullSlabs && e.o / PAGE_SIZE in Apply(s, e).bufs ==>
              var p, s' := e.o / PAGE_SIZE, Apply(s, e);
              s'.slabs == [p] + s.slabs && CanTake(s', p) && First(s', p) == e.o
    ensures e.AllocGrow? ==> Apply(s, e).slabs == s.slabs + [e.p]
    ensures e.FreeReload? && s.cpus[e.c].prevRounds > 0 ==>
              var m := s.cpus[e.c].previous; m.Some? && Apply(s, e).full == [m.value] + s.full
    ensures e.AllocReload? && s.cpus[e.c].prevRounds == 0 ==>
              var m := s.cpus[e.c].previous; m.Some? && Apply(s, e).empty == [m.value] + s.empty
  {
    match e
    case FreePut(o) => BackInFront(s, o);
    case FreeReload(c) => assert CpuOk(s, c);
    case AllocReload(c) => assert CpuOk(s, c);
    case _ =>
  }

  lemma BackInFront(s: Cache, o: nat)
    requires SlabsOk(s) && CanPut(s, o) && o in LiveSet(s)
    ensures var p, s' := o / PAGE_SIZE, PutOrReclaim(s, o);
            p in s.fullSlabs && p in s'.bufs ==> s'.slabs == [p] + s.slabs && CanTake(s', p) && First(s', p) == o
  {
    assert SlabOk(s, o / PAGE_SIZE);
  }

  function Grows(es: seq<Step>): nat {
    if es == [] then 0 else (if es[0].AllocGrow? then 1 else 0) + Grows(es[1..])
  }

  lemma StepColor(s: Cache, e: Step)
    requires s.size > 0 && Enabled(s, e)
    ensures Apply(s, e).layout == s.layout
    ensures Apply(s, e).color == if e.AllocGrow? then NextColor(s.layout, s.color) else s.color
  {
  }

  /** Over every run the slabs of a cache get the colours in turn. */
  lemma {:induction false} RunColors(s: Cache, es: seq<Step>, n: nat)
    requires IsRun(s, es) && s.layout.align > 0 && s.color == ColorOf(s.layout, n)
    ensures Final(s, es).layout == s.layout && Final(s, es).color == ColorOf(s.layout, n + Grows(es))
    decreases |es|
  {
    if es != [] {
      StepColor(s, es[0]);
      ColorsCycle(s.layout, n);
      RunColors(Apply(s, es[0]), es[1..], if es[0].AllocGrow? then n + 1 else n);
    }
  }

  /** What is pushed is popped next. */
  lemma PushTop(s: Cache, c: nat, o: nat)
    requires CanPush(s, c)
    ensures CanPop(PushRound(s, c, o), c) && Top(PushRound(s, c, o), c) == o
  {
  }

  /** Both ways of getting an empty magazine make room at once. */
  lemma ExchangeMakesRoom(s: Cache, c: nat)
    requires Inv(s) && HasCpu(s, c) && FullUp(s, c) && s.cpus[c].prevRounds == 0
    ensures var s' := Exchange(s, c);
            && Inv(s') && LiveSet(s') == LiveSet(s) && HasCpu(s', c) && !FullUp(s', c)
            && s'.spot.Keys == s.spot.Keys && s'.size == s.size
  {
    assert CpuOk(s, c);
    ExchangeKeeps(s, c);
  }

  lemma ReloadMakesRoom(s: Cache, c: nat)
    requires Inv(s) && HasCpu(s, c) && FullUp(s, c) && s.cpus[c].prevRounds != 0 && s.empty != []
    ensures var s' := ReloadEmpty(s, c);
            && Inv(s') && LiveSet(s') == LiveSet(s) && HasCpu(s', c) && !FullUp(s', c)
            && s'.spot.Keys == s.spot.Keys && s'.size == s.size
  {
    assert CpuOk(s, c);
    assert s.empty[0] in s.empty;
    ReloadEmptyKeeps(s, c);
  }

  // ---------------------------------------------------------------------------
  // The code
  // ---------------------------------------------------------------------------

  class Kmem {
    var st: Cache
    var magazinesEnabled: bool

    /** `kmem_cache_create` for a small object, with the per-CPU part of `kmem_init`. */
    constructor (size: nat, align: nat, cpuCount: nat, magazineSize: nat, enabled: bool)
      requires 0 < size <= SMALL_SLAB_SIZE && RoomForLink(size, align) && magazineSize > 0
      ensures Inv(st) && LiveSet(st) == {} && |st.cpus| == cpuCount && st.layout == CreateLayout(size, align)
    {
      var layout := CreateLayout(size, align);
      var s := Cache(magazineSize, seq(cpuCount, _ => Cpu(None, -1, None, -1)), [], [], map[],
                     [], [], map[], map[], 0, layout, map[], map[], map[]);
      LayoutFits(size, align);
      InitialOk(s);
      st := s;
      magazinesEnabled := enabled;
    }

    /** The magazine part of `kmem_cache_alloc` on CPU `c` (lines 234-274). */
    method Unstash(c: nat) returns (o: Option<nat>)
      requires Inv(st) && HasCpu(st, c)
      modifies this`st
      ensures Inv(st) && st.bufs == old(st).bufs
      ensures st.layout == old(st).layout && st.size == old(st).size && |st.cpus| == |old(st).cpus|
      ensures o.Some? ==> o.value !in LiveSet(old(st)) && LiveSet(st) == LiveSet(old(st)) + {o.value}
      ensures o.None? ==>
                && LiveSet(st) == LiveSet(old(st)) && st.full == []
                && st.cpus[c].rounds <= 0 && st.cpus[c].prevRounds <= 0
      ensures CanPop(old(st), c) ==> o == Some(Top(old(st), c))
    {
      while true
        invariant Inv(st) && HasCpu(st, c) && LiveSet(st) == LiveSet(old(st)) && st.bufs == old(st).bufs
        invariant st.layout == old(st).layout && st.size == old(st).size && |st.cpus| == |old(st).cpus|
        invariant CanPop(old(st), c) ==> st == old(st)
        decreases if st.cpus[c].rounds > 0 then 0 else if st.cpus[c].prevRounds > 0 then 1 else 2
      {
        assert CpuOk(st, c);
        if st.cpus[c].rounds > 0 {
          PopKeeps(st, c);
          o := Some(Top(st, c));
          st := PopRound(st, c);
          return;
        }
        if st.cpus[c].prevRounds > 0 {
          ExchangeKeeps(st, c);
          st := Exchange(st, c);
          continue;
        }
        if st.full == [] {
          return None;
        }
        ReloadFullKeeps(st, c);
        st := ReloadFull(st, c);
      }
    }

    /** `kmem_cache_alloc` on CPU `c`; `page` is the page the allocator would supply for a new slab. */
    method Alloc(c: nat, page: nat) returns (o: nat)
      requires Inv(st) && HasCpu(st, c) && page !in st.bufs && Capacity(st.layout, 0) > 0
      modifies this`st
      ensures Inv(st) && o !in LiveSet(old(st)) && LiveSet(st) == LiveSet(old(st)) + {o}
      ensures st.layout == old(st).layout && st.size == old(st).size && |st.cpus| == |old(st).cpus|
      ensures magazinesEnabled && CanPop(old(st), c) ==> o == Top(old(st), c)
    {
      if magazinesEnabled {
        var round := Unstash(c);
        if round.Some? {
          return round.value;
        }
      }
      o := FromSlab(page);
    }

    /** The slab layer of `kmem_cache_alloc` (lines 277-313): the first buffer of the first slab with a free one,
        or of a new slab. */
    method FromSlab(page: nat) returns (o: nat)
      requires Inv(st) && page !in st.bufs && Capacity(st.layout, 0) > 0
      modifies this`st
      ensures Inv(st) && o !in LiveSet(old(st)) && LiveSet(st) == LiveSet(old(st)) + {o}
      ensures st.layout == old(st).layout && st.size == old(st).size && |st.cpus| == |old(st).cpus|
      ensures o / PAGE_SIZE == if old(st).slabs == [] then page else old(st).slabs[0]
    {
      var slab := page;
      if st.slabs == [] {
        GrowKeeps(st, page);
        st := Grow(st, page);
      } else {
        slab := st.slabs[0];
      }
      TakeFirst(st, slab);
      TakeKeeps(st, slab);
      o := First(st, slab);
      st := Take(st, slab);
    }

    /** The magazine part of `kmem_cache_free` on CPU `c` (lines 321-371); `spare` is the magazine the
        magazine cache would supply. */
    method Stash(c: nat, o: nat, spare: Option<nat>, words: seq<nat>) returns (done: bool)
      requires Inv(st) && HasCpu(st, c) && o in LiveSet(st)
      requires spare.Some? ==> spare.value !in st.spot && |words| == st.size
      modifies this`st
      ensures Inv(st) && LiveSet(st) == if done then LiveSet(old(st)) - {o} else LiveSet(old(st))
      ensures spare.Some? ==> done
      ensures done ==> CanPop(st, c) && Top(st, c) == o
    {
      var supply := spare;
      while FullUp(st, c)
        invariant Inv(st) && HasCpu(st, c) && LiveSet(st) == LiveSet(old(st))
        invariant supply.Some? ==> supply.value !in st.spot && |words| == st.size
        invariant spare.Some? && supply.None? ==> !FullUp(st, c) || st.cpus[c].prevRounds == 0 || st.empty != []
        decreases supply.Some?, Distance(st, c)
      {
        if st.cpus[c].prevRounds == 0 {
          ExchangeMakesRoom(st, c);
          st := Exchange(st, c);
        } else if st.empty != [] {
          ReloadMakesRoom(st, c);
          st := ReloadEmpty(st, c);
        } else if supply.Some? {
          AddMagazineKeeps(st, supply.value, words);
          st := AddMagazine(st, supply.value, words);
          supply := None;
        } else {
          return false;
        }
      }
      PushKeeps(st, c, o);
      PushTop(st, c, o);
      st := PushRound(st, c, o);
      done := true;
    }

    /** `kmem_cache_free`. */
    method Free(c: nat, o: nat, spare: Option<nat>, words: seq<nat>)
      requires Inv(st) && HasCpu(st, c) && o in LiveSet(st)
      requires spare.Some? ==> spare.value !in st.spot && |words| == st.size
      modifies this`st
      ensures Inv(st) && LiveSet(st) == LiveSet(old(st)) - {o}
      ensures magazinesEnabled && spare.Some? ==> CanPop(st, c) && Top(st, c) == o
      ensures !magazinesEnabled ==> CanPut(old(st), o) && st == PutOrReclaim(old(st), o)
    {
      if magazinesEnabled {
        var done := Stash(c, o, spare, words);
        if done {
          return;
        }
      }
      PutOrReclaimKeeps(st, o);
      st := PutOrReclaim(st, o);
    }
  }

  /** How far the free loop is from having room in the loaded magazine. */
  function Distance(s: Cache, c: nat): nat
    requires HasCpu(s, c)
  {
    if !FullUp(s, c) then 0 else if s.cpus[c].prevRounds == 0 then 1 else if s.empty != [] then 2 else 3
  }
}
