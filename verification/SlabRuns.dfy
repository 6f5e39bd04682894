/** The free lists in memory over whole runs: all CPUs allocate and free, owners write into their objects,
    and others write into pages that are no slabs of the cache. */
module SlabRuns {
  import opened Common
  import opened SlabGeometry
  import opened SlabCache
  import opened SlabLayer
  import opened SlabLinks
  import K = KmemCache

  datatype Move =
    | Do(e: K.Step)
    | Use(o: nat)         // the owner writes all over its object
    | Foreign(page: nat)  // somebody writes all over another page

  ghost predicate CanMove(s: Cache, m: Move) {
    match m
    case Do(e) => s.size > 0 && K.Enabled(s, e)
    case Use(o) => o in LiveSet(s)
    case Foreign(page) => page !in s.bufs
  }

  ghost function After(s: Cache, m: Move): Cache
    requires CanMove(s, m)
  {
    match m
    case Do(e) => K.Apply(s, e)
    case _ => s
  }

  /** The pointers that the move follows lead where the model says: the head of the list is the link of
      the buffer that is taken, and that link is intact. */
  ghost predicate Follows(s: Cache, h: Heap, m: Move)
    requires CanMove(s, m)
  {
    match m
    case Do(AllocTake(p)) => p in h.heads && h.heads[p] in h.mem && h.heads[p] == First(s, p) + s.layout.offset
    case Do(FreePut(o)) => o / PAGE_SIZE in h.heads
    case _ => true
  }

  ghost function HeapAfter(s: Cache, h: Heap, m: Move): Heap
    requires CanMove(s, m) && Follows(s, h, m)
  {
    match m
    case Do(AllocGrow(p)) => GrowHeap(s, h, p)
    case Do(AllocTake(p)) => TakeHeap(h, p)
    case Do(FreePut(o)) => PutHeap(s.layout, h, o)
    case Use(o) => h.(mem := Spoil(h.mem, o, s.layout.chunk))
    case Foreign(page) => h.(mem := Spoil(h.mem, page * PAGE_SIZE, PAGE_SIZE))
    case _ => h
  }

  // ---------------------------------------------------------------------------
  // One move
  // ---------------------------------------------------------------------------

  /** A move that changes no list. */
  lemma ListsStay(s: Cache, s': Cache, h: Heap)
    requires ListsOk(s, h) && s'.bufs == s.bufs && s'.buflist == s.buflist && s'.layout == s.layout
    ensures ListsOk(s', h)
  {
    forall p | p in s'.bufs ensures ListOk(s', h, p) {
      assert ListOk(s, h, p);
    }
  }

  lemma MagazineLists(s: Cache, e: K.Step, h: Heap)
    requires ListsOk(s, h) && s.size > 0 && K.Enabled(s, e)
    requires !e.AllocGrow? && !e.AllocTake? && !e.FreePut?
    ensures ListsOk(K.Apply(s, e), h)
  {
    ListsStay(s, K.Apply(s, e), h);
  }

  lemma ReclaimedLists(s: Cache, h: Heap, o: nat)
    requires CanPut(s, o) && ListsOk(Put(s, o), h)
    ensures ListsOk(K.PutOrReclaim(s, o), h)
  {
    var p, s' := o / PAGE_SIZE, Put(s, o);
    if s'.refcount[p] == 0 && p in s'.bufs {
      ReclaimLists(s', h, p);
    }
  }

  lemma FreePutLists(s: Cache, h: Heap, o: nat)
    requires Inv(s) && ListsOk(s, h) && o in LiveSet(s)
    ensures CanPut(s, o) && o / PAGE_SIZE in h.heads
    ensures ListsOk(K.PutOrReclaim(s, o), PutHeap(s.layout, h, o))
  {
    SlabLinks.PutLists(s, h, o);
    ReclaimedLists(s, PutHeap(s.layout, h, o), o);
  }

  lemma ForeignList(s: Cache, h: Heap, page: nat, p: nat)
    requires Inv(s) && page !in s.bufs && p in s.bufs && ListOk(s, h, p)
    ensures ListOk(s, h.(mem := Spoil(h.mem, page * PAGE_SIZE, PAGE_SIZE)), p)
  {
    var mem' := Spoil(h.mem, page * PAGE_SIZE, PAGE_SIZE);
    forall x | x in s.buflist[p] ensures SameLink(h.mem, mem', x + s.layout.offset) {
      assert BufferOk(s, p, x);
      BufferBounds(s, p, x);
      if p < page { MulMono(p + 1, page, PAGE_SIZE); } else { MulMono(page + 1, p, PAGE_SIZE); }
    }
    ChainKeeps(h.mem, mem', h.heads[p], s.buflist[p], s.layout.offset);
  }

  lemma ForeignLists(s: Cache, h: Heap, page: nat)
    requires Inv(s) && ListsOk(s, h) && page !in s.bufs
    ensures ListsOk(s, h.(mem := Spoil(h.mem, page * PAGE_SIZE, PAGE_SIZE)))
  {
    forall p | p in s.bufs ensures ListOk(s, h.(mem := Spoil(h.mem, page * PAGE_SIZE, PAGE_SIZE)), p) {
      assert ListOk(s, h, p);
      ForeignList(s, h, page, p);
    }
  }

  lemma StepLists(s: Cache, h: Heap, e: K.Step)
    requires Inv(s) && ListsOk(s, h) && CanMove(s, Do(e))
    ensures Follows(s, h, Do(e)) && ListsOk(K.Apply(s, e), HeapAfter(s, h, Do(e)))
  {
    match e
    case AllocGrow(p) => GrowLists(s, h, p);
    case AllocTake(p) => SlabLinks.TakeLists(s, h, p);
    case FreePut(o) => FreePutLists(s, h, o);
    case _ => MagazineLists(s, e, h);
  }

  lemma MoveLists(s: Cache, h: Heap, m: Move)
    requires Inv(s) && ListsOk(s, h) && CanMove(s, m)
    ensures Follows(s, h, m) && Inv(After(s, m)) && ListsOk(After(s, m), HeapAfter(s, h, m))
  {
    match m
    case Do(e) =>
      K.StepRefines(s, e);
      StepLists(s, h, e);
    case Use(o) => UseKeepsLists(s, h, o);
    case Foreign(page) => ForeignLists(s, h, page);
  }

  // ---------------------------------------------------------------------------
  // Runs
  // ---------------------------------------------------------------------------

  ghost predicate IsRun(s: Cache, ms: seq<Move>)
    decreases |ms|
  {
    ms == [] || (CanMove(s, ms[0]) && IsRun(After(s, ms[0]), ms[1..]))
  }

  /** In every state of the run the lists in memory are the model's, and every pointer that a move
      follows leads where the model says. */
  ghost predicate ListsThroughout(s: Cache, h: Heap, ms: seq<Move>)
    requires IsRun(s, ms)
    decreases |ms|
  {
    && ListsOk(s, h)
    && (ms != [] ==>
          && Follows(s, h, ms[0])
          && ListsThroughout(After(s, ms[0]), HeapAfter(s, h, ms[0]), ms[1..]))
  }

  lemma {:induction false} RunLists(s: Cache, h: Heap, ms: seq<Move>)
    requires Inv(s) && ListsOk(s, h) && IsRun(s, ms)
    ensures ListsThroughout(s, h, ms)
    decreases |ms|
  {
    if ms != [] {
      MoveLists(s, h, ms[0]);
      RunLists(After(s, ms[0]), HeapAfter(s, h, ms[0]), ms[1..]);
    }
  }

  /** From the creation of the cache on, whatever the memory holds. */
  lemma ListsFromCreation(s: Cache, mem: Links, ms: seq<Move>)
    requires K.Initial(s) && LayoutOk(s.layout) && IsRun(s, ms)
    ensures ListsThroughout(s, Heap(mem, map[]), ms)
  {
    K.InitialOk(s);
    RunLists(s, Heap(mem, map[]), ms);
  }
}
