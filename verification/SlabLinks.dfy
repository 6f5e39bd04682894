/** The free list of a slab as it lies in memory: `slab_create_small` writes an eight-byte link into every
    buffer. A link that a later write reaches into is lost. */
module SlabLinks {
  import opened Common
  import opened SlabGeometry
  import opened SlabCache
  import opened SlabLayer

  /** The links that are intact, by address; 0 is NULL. */
  type Links = map<nat, nat>

  /** Writing `n` bytes from `a` on spoils the links they reach. */
  function Spoil(mem: Links, a: nat, n: nat): Links {
    map x | x in mem && (x + LINK <= a || a + n <= x) :: mem[x]
  }

  function StoreLink(mem: Links, a: nat, v: nat): Links {
    Spoil(mem, a, LINK)[a := v]
  }

  /** Following the links from `head` visits exactly `list`. */
  predicate Chain(mem: Links, head: nat, list: seq<nat>, offset: nat)
    decreases |list|
  {
    if list == [] then head == 0
    else head == list[0] + offset && head in mem && Chain(mem, mem[head], list[1..], offset)
  }

  datatype Built = Built(mem: Links, head: nat)

  /** The first `n` rounds of the loop at lines 92-104. */
  function Build(mem: Links, chunk: nat, offset: nat, start: nat, n: nat): Built {
    if n == 0 then Built(mem, 0)
    else
      var b := Build(mem, chunk, offset, start, n - 1);
      var a := start + (n - 1) * chunk + offset;
      Built(StoreLink(b.mem, a, b.head), a)
  }

  method BuildList(mem: Links, chunk: nat, offset: nat, start: nat, capacity: nat) returns (b: Built)
    ensures b == Build(mem, chunk, offset, start, capacity)
    ensures chunk > 0 ==>
              (Chain(b.mem, b.head, FreshList(chunk, start, capacity), offset) <==> chunk >= LINK || capacity <= 1)
  {
    b := Built(mem, 0);
    for i := 0 to capacity
      invariant b == Build(mem, chunk, offset, start, i)
    {
      var bufctl := start + i * chunk + offset;
      b := Built(StoreLink(b.mem, bufctl, b.head), bufctl);
    }
    if chunk > 0 {
      ListInMemory(mem, chunk, offset, start, capacity);
    }
  }

  /** The list of the buffers, last one first, one buffer longer. */
  lemma {:induction false} FreshListGrows(chunk: nat, start: nat, n: nat)
    requires n > 0
    ensures FreshList(chunk, start, n) == [start + (n - 1) * chunk] + FreshList(chunk, start, n - 1)
    decreases n
  {
    if n > 1 {
      FreshListGrows(chunk, start + chunk, n - 1);
      assert start + chunk + (n - 2) * chunk == start + (n - 1) * chunk;
    }
  }

  /** All buffers of the list end before `a`, so that their links do. */
  lemma {:induction false} FreshListBelow(chunk: nat, start: nat, n: nat)
    ensures forall x :: x in FreshList(chunk, start, n) ==> x + chunk <= start + n * chunk
    decreases n
  {
    if n > 0 {
      FreshListBelow(chunk, start + chunk, n - 1);
      assert start + chunk + (n - 1) * chunk == start + n * chunk;
      assert n * chunk >= chunk by { MulMono(1, n, chunk); }
    }
  }

  predicate SameLink(mem: Links, mem': Links, a: nat) {
    a in mem ==> a in mem' && mem'[a] == mem[a]
  }

  /** A write that reaches no link of the list leaves the list alone. */
  lemma {:induction false} ChainKeeps(mem: Links, mem': Links, head: nat, list: seq<nat>, offset: nat)
    requires Chain(mem, head, list, offset)
    requires forall x :: x in list ==> SameLink(mem, mem', x + offset)
    ensures Chain(mem', head, list, offset)
    decreases |list|
  {
    if list != [] {
      assert list[0] in list;
      assert forall x :: x in list[1..] ==> x in list;
      ChainKeeps(mem, mem', mem[head], list[1..], offset);
    }
  }

  /** The loop builds the list of all buffers exactly if a chunk has room for a link, or there is at
      most one buffer. */
  lemma {:induction false} ListInMemory(mem: Links, chunk: nat, offset: nat, start: nat, n: nat)
    requires chunk > 0
    ensures var b := Build(mem, chunk, offset, start, n);
            Chain(b.mem, b.head, FreshList(chunk, start, n), offset) <==> chunk >= LINK || n <= 1
    decreases n
  {
    if n > 0 {
      var b, b' := Build(mem, chunk, offset, start, n), Build(mem, chunk, offset, start, n - 1);
      FreshListGrows(chunk, start, n);
      if chunk >= LINK || n <= 1 {
        ListInMemory(mem, chunk, offset, start, n - 1);
        BuildKeeps(b', chunk, offset, start, n);
      } else {
        ListBreaks(mem, chunk, offset, start, n);
      }
    }
  }

  lemma BuildKeeps(b: Built, chunk: nat, offset: nat, start: nat, n: nat)
    requires n > 0 && (chunk >= LINK || n == 1) && Chain(b.mem, b.head, FreshList(chunk, start, n - 1), offset)
    ensures var a := start + (n - 1) * chunk + offset;
            Chain(StoreLink(b.mem, a, b.head), b.head, FreshList(chunk, start, n - 1), offset)
  {
    FreshListBelow(chunk, start, n - 1);
    ChainKeeps(b.mem, StoreLink(b.mem, start + (n - 1) * chunk + offset, b.head), b.head,
               FreshList(chunk, start, n - 1), offset);
  }

  lemma ListBreaks(mem: Links, chunk: nat, offset: nat, start: nat, n: nat)
    requires 0 < chunk < LINK && n > 1
    ensures var b := Build(mem, chunk, offset, start, n);
            !Chain(b.mem, b.head, FreshList(chunk, start, n), offset)
  {
    var b := Build(mem, chunk, offset, start, n);
    FreshListGrows(chunk, start, n);
    FreshListGrows(chunk, start, n - 1);
    var a := start + (n - 2) * chunk + offset;
    assert b.head == a + chunk;
    assert a !in b.mem;
  }

  /** The loop writes nowhere but into its buffers. */
  lemma {:induction false} BuildFrame(mem: Links, chunk: nat, offset: nat, start: nat, n: nat, a: nat)
    requires offset + LINK <= chunk && (a + LINK <= start || start + n * chunk <= a)
    ensures SameLink(mem, Build(mem, chunk, offset, start, n).mem, a)
    decreases n
  {
    if n > 0 {
      var done := (n - 1) * chunk;
      assert n * chunk == done + chunk;
      BuildFrame(mem, chunk, offset, start, n - 1, a);
      var b := Build(mem, chunk, offset, start, n - 1);
      StoreFrame(b.mem, start + done + offset, b.head, a);
    }
  }

  lemma StoreFrame(mem: Links, x: nat, v: nat, a: nat)
    requires a + LINK <= x || x + LINK <= a
    ensures SameLink(mem, StoreLink(mem, x, v), a)
  {
  }

  /** `mem'` differs from `mem` by writes into the `n` bytes from `o` on. */
  ghost predicate WritesInto(mem: Links, mem': Links, o: nat, n: nat) {
    forall a: nat :: a + LINK <= o || o + n <= a ==> SameLink(mem, mem', a)
  }

  lemma StoreWritesInto(l: Layout, mem: Links, o: nat, v: nat)
    requires l.offset + LINK <= l.chunk
    ensures WritesInto(mem, StoreLink(mem, o + l.offset, v), o, l.chunk)
    ensures WritesInto(mem, Spoil(mem, o, l.chunk), o, l.chunk)
  {
  }

  // ---------------------------------------------------------------------------
  // The lists of all slabs
  // ---------------------------------------------------------------------------

  /** The links in memory and the `buflist` pointer of every slab. */
  datatype Heap = Heap(mem: Links, heads: map<nat, nat>)

  predicate ListOk(s: Cache, h: Heap, p: nat) {
    p in s.buflist && p in h.heads && Chain(h.mem, h.heads[p], s.buflist[p], s.layout.offset)
  }

  /** Every free list in memory is the one the model has. */
  ghost predicate ListsOk(s: Cache, h: Heap) {
    forall p :: p in s.bufs ==> ListOk(s, h, p)
  }

  lemma BufferBounds(s: Cache, p: nat, x: nat)
    requires ColoringOk(s) && p in s.bufs && x in s.bufs[p]
    ensures p * PAGE_SIZE <= x && x + s.layout.chunk <= HeaderOf(p)
  {
    var l := s.layout;
    var color: nat :| ColorOk(l, color) && s.bufs[p] == FreshBuffers(l.chunk, Buffer(l, p, color, 0), Capacity(l, color));
    FreshIsBuffer(l.chunk, Buffer(l, p, color, 0), Capacity(l, color), x);
    var i: nat :| i < Capacity(l, color) && x == Buffer(l, p, color, 0) + i * l.chunk;
    BufferInPage(l, p, color, i);
  }

  predicate Apart(l: Layout, x: nat, y: nat) {
    x + l.chunk <= y || y + l.chunk <= x
  }

  /** Any two buffers of a cache are disjoint. */
  lemma BuffersApart(s: Cache, p: nat, x: nat, q: nat, y: nat)
    requires ColoringOk(s) && p in s.bufs && x in s.bufs[p] && q in s.bufs && y in s.bufs[q] && x != y
    ensures Apart(s.layout, x, y)
  {
    if p == q {
      SlabApart(s, p, x, y);
    } else {
      BufferBounds(s, p, x);
      BufferBounds(s, q, y);
      if p < q { MulMono(p + 1, q, PAGE_SIZE); } else { MulMono(q + 1, p, PAGE_SIZE); }
    }
  }

  lemma SlabApart(s: Cache, p: nat, x: nat, y: nat)
    requires ColoringOk(s) && p in s.bufs && x in s.bufs[p] && y in s.bufs[p] && x != y
    ensures Apart(s.layout, x, y)
  {
    var l := s.layout;
    var color: nat :| ColorOk(l, color) && s.bufs[p] == FreshBuffers(l.chunk, Buffer(l, p, color, 0), Capacity(l, color));
    FreshIsBuffer(l.chunk, Buffer(l, p, color, 0), Capacity(l, color), x);
    FreshIsBuffer(l.chunk, Buffer(l, p, color, 0), Capacity(l, color), y);
    var i: nat :| i < Capacity(l, color) && x == Buffer(l, p, color, 0) + i * l.chunk;
    var j: nat :| j < Capacity(l, color) && y == Buffer(l, p, color, 0) + j * l.chunk;
    if i < j { BuffersDisjoint(l, p, color, i, j); } else { BuffersDisjoint(l, p, color, j, i); }
  }

  /** A write into one buffer reaches no link of a list without it. */
  lemma OtherList(s: Cache, h: Heap, mem': Links, p: nat, o: nat)
    requires Inv(s) && o in s.home && p in s.bufs && ListOk(s, h, p) && o !in s.buflist[p]
    requires WritesInto(h.mem, mem', o, s.layout.chunk)
    ensures Chain(mem', h.heads[p], s.buflist[p], s.layout.offset)
  {
    var l, q := s.layout, o / PAGE_SIZE;
    assert BufferOk(s, q, o) && SlabOk(s, q);
    forall x | x in s.buflist[p] ensures SameLink(h.mem, mem', x + l.offset) {
      assert BufferOk(s, p, x);
      BuffersApart(s, p, x, q, o);
    }
    ChainKeeps(h.mem, mem', h.heads[p], s.buflist[p], l.offset);
  }

  /** `slab_create_small` and the insertion of the slab. */
  function GrowHeap(s: Cache, h: Heap, p: nat): Heap
    requires CanGrow(s, p)
  {
    var color := NextColor(s.layout, s.color);
    var b := Build(h.mem, s.layout.chunk, s.layout.offset, Buffer(s.layout, p, color, 0), Capacity(s.layout, color));
    Heap(b.mem, h.heads[p := b.head])
  }

  lemma GrowLists(s: Cache, h: Heap, p: nat)
    requires Inv(s) && ListsOk(s, h) && CanGrow(s, p)
    ensures ListsOk(Grow(s, p), GrowHeap(s, h, p))
  {
    var s', h', l := Grow(s, p), GrowHeap(s, h, p), s.layout;
    ColoringIsFree(l, s.color);
    ListInMemory(h.mem, l.chunk, l.offset, Buffer(l, p, s'.color, 0), Capacity(l, s'.color));
    forall q | q in s'.bufs ensures ListOk(s', h', q) {
      if q != p {
        GrowOther(s, h, p, q);
      }
    }
  }

  lemma GrowOther(s: Cache, h: Heap, p: nat, q: nat)
    requires Inv(s) && ListsOk(s, h) && CanGrow(s, p) && q in s.bufs && q != p
    ensures q in s.buflist && q in h.heads
    ensures Chain(GrowHeap(s, h, p).mem, h.heads[q], s.buflist[q], s.layout.offset)
  {
    assert ListOk(s, h, q);
    var mem' := GrowHeap(s, h, p).mem;
    forall x | x in s.buflist[q] ensures SameLink(h.mem, mem', x + s.layout.offset) {
      GrowElsewhere(s, h, p, q, x);
    }
    ChainKeeps(h.mem, mem', h.heads[q], s.buflist[q], s.layout.offset);
  }

  lemma GrowElsewhere(s: Cache, h: Heap, p: nat, q: nat, x: nat)
    requires Inv(s) && CanGrow(s, p) && q in s.bufs && q in s.buflist && x in s.buflist[q] && q != p
    ensures SameLink(h.mem, GrowHeap(s, h, p).mem, x + s.layout.offset)
  {
    var l := s.layout;
    var color := NextColor(l, s.color);
    var n, start := Capacity(l, color), Buffer(l, p, color, 0);
    ColoringIsFree(l, s.color);
    assert BufferOk(s, q, x);
    BufferBounds(s, q, x);
    DivBounds(PAGE_SIZE - HEADER - color, l.chunk);
    assert start + n * l.chunk <= HeaderOf(p);
    if p < q { MulMono(p + 1, q, PAGE_SIZE); } else { MulMono(q + 1, p, PAGE_SIZE); }
    BuildFrame(h.mem, l.chunk, l.offset, start, n, x + l.offset);
  }

  /** Line 301: the head of the list is read from the link of the buffer taken. */
  function TakeHeap(h: Heap, p: nat): Heap
    requires p in h.heads && h.heads[p] in h.mem
  {
    h.(heads := h.heads[p := h.mem[h.heads[p]]])
  }

  lemma TakeLists(s: Cache, h: Heap, p: nat)
    requires Inv(s) && ListsOk(s, h) && p in s.slabs
    ensures CanTake(s, p) && p in h.heads && h.heads[p] in h.mem && h.heads[p] == First(s, p) + s.layout.offset
    ensures ListsOk(Take(s, p), TakeHeap(h, p))
  {
    assert SlabOk(s, p) && ListOk(s, h, p);
    var s', h' := Take(s, p), TakeHeap(h, p);
    forall q | q in s'.bufs ensures ListOk(s', h', q) {
      assert ListOk(s, h, q);
    }
  }

  /** Lines 411-412: the link of the freed buffer is written. */
  function PutHeap(l: Layout, h: Heap, o: nat): Heap
    requires o / PAGE_SIZE in h.heads
  {
    var p, a := o / PAGE_SIZE, o + l.offset;
    Heap(StoreLink(h.mem, a, h.heads[p]), h.heads[p := a])
  }

  lemma PutLists(s: Cache, h: Heap, o: nat)
    requires Inv(s) && ListsOk(s, h) && o in LiveSet(s)
    ensures CanPut(s, o) && o / PAGE_SIZE in h.heads
    ensures ListsOk(Put(s, o), PutHeap(s.layout, h, o))
  {
    PutReady(s, h, o);
    var mem' := PutHeap(s.layout, h, o).mem;
    PutWrites(s, h, o);
    KeptLists(s, h, mem', o);
    PutList(s, h, mem', o);
  }

  lemma PutWrites(s: Cache, h: Heap, o: nat)
    requires LayoutOk(s.layout) && o / PAGE_SIZE in h.heads
    ensures WritesInto(h.mem, PutHeap(s.layout, h, o).mem, o, s.layout.chunk)
  {
    StoreWritesInto(s.layout, h.mem, o, h.heads[o / PAGE_SIZE]);
  }

  lemma PutReady(s: Cache, h: Heap, o: nat)
    requires Inv(s) && ListsOk(s, h) && o in LiveSet(s)
    ensures CanPut(s, o) && o / PAGE_SIZE in s.bufs && o / PAGE_SIZE in h.heads
  {
    var p := o / PAGE_SIZE;
    SlabFreeCount(s, p);
    assert BufferOk(s, p, o) && ListOk(s, h, p);
  }

  lemma KeptLists(s: Cache, h: Heap, mem': Links, o: nat)
    requires Inv(s) && ListsOk(s, h) && o in LiveSet(s) && WritesInto(h.mem, mem', o, s.layout.chunk)
    ensures ListsOk(s, h.(mem := mem'))
  {
    forall q | q in s.bufs ensures ListOk(s, h.(mem := mem'), q) {
      assert ListOk(s, h, q) && BufferOk(s, q, o);
      OtherList(s, h, mem', q, o);
    }
  }

  lemma PutList(s: Cache, h: Heap, mem': Links, o: nat)
    requires ListsOk(s, h.(mem := mem')) && CanPut(s, o) && o / PAGE_SIZE in s.bufs && o / PAGE_SIZE in h.heads
    requires o + s.layout.offset in mem' && mem'[o + s.layout.offset] == h.heads[o / PAGE_SIZE]
    ensures ListsOk(Put(s, o), Heap(mem', h.heads[o / PAGE_SIZE := o + s.layout.offset]))
  {
    var p, s', h' := o / PAGE_SIZE, Put(s, o), Heap(mem', h.heads[o / PAGE_SIZE := o + s.layout.offset]);
    assert ListOk(s, h.(mem := mem'), p);
    assert ([o] + s.buflist[p])[1..] == s.buflist[p];
    forall q | q in s'.bufs ensures ListOk(s', h', q) {
      assert ListOk(s, h.(mem := mem'), q);
    }
  }

  /** Lines 416-420: a slab that is given back takes its list with it. */
  lemma ReclaimLists(s: Cache, h: Heap, p: nat)
    requires ListsOk(s, h) && p in s.bufs
    ensures ListsOk(Reclaim(s, p), h)
  {
    forall q | q in Reclaim(s, p).bufs ensures ListOk(Reclaim(s, p), h, q) {
      assert ListOk(s, h, q);
    }
  }

  /** Whatever the owner of an object writes into it, the free lists stay. */
  lemma UseKeepsLists(s: Cache, h: Heap, o: nat)
    requires Inv(s) && ListsOk(s, h) && o in LiveSet(s)
    ensures ListsOk(s, h.(mem := Spoil(h.mem, o, s.layout.chunk)))
  {
    StoreWritesInto(s.layout, h.mem, o, 0);
    KeptLists(s, h, Spoil(h.mem, o, s.layout.chunk), o);
  }
}
