/** The layout of small slabs in `kernel/mm/slab.c`: chunk size, colour and the place of every buffer. */
module SlabGeometry {
  import opened Common

  /** `sizeof(struct kmem_slab)`: two list pointers, the count and the free list. */
  const HEADER: nat := 32

  /** `SLAB_ALIGN`, which is also the size of the free-list link kept in a free buffer. */
  const LINK: nat := 8

  const SMALL_SLAB_SIZE: nat := 512

  /** The values of a `size_t`. */
  const WORD: nat := 0x1_0000_0000_0000_0000

  datatype Layout = Layout(chunk: nat, offset: nat, align: nat, maxcolor: nat)

  // ---------------------------------------------------------------------------
  // kmem_cache_create
  // ---------------------------------------------------------------------------

  /** Lines 606-620 for an object of at most 512 bytes. */
  function CreateLayout(size: nat, align: nat): Layout
    requires 0 < size <= SMALL_SLAB_SIZE
  {
    var a := if align == 0 then LINK else align;
    var chunk := if a >= LINK then AlignUp(size, LINK) else size;
    var offset: nat := if a >= LINK then AlignedOffset(size) else 0;
    var chunk' := AlignUp(chunk, a);
    ChunkPositive(chunk, a, size);
    Layout(chunk', offset, a, (PAGE_SIZE - HEADER) % chunk')
  }

  function AlignedOffset(size: nat): (offset: nat)
    requires size > 0
    ensures offset == AlignUp(size, LINK) - LINK
  {
    AlignUpBounds(size, LINK);
    assert AlignUp(size, LINK) >= LINK;
    AlignUp(size, LINK) - LINK
  }

  lemma ChunkPositive(chunk: nat, a: nat, size: nat)
    requires a > 0 && 0 < size
    requires chunk == if a >= LINK then AlignUp(size, LINK) else size
    ensures AlignUp(chunk, a) >= chunk >= size
  {
    AlignUpBounds(size, LINK);
    AlignUpBounds(chunk, a);
  }

  ghost predicate LayoutOk(l: Layout) {
    l.chunk > 0 && l.align > 0 && l.chunk % l.align == 0 && l.offset + LINK <= l.chunk &&
    l.maxcolor == (PAGE_SIZE - HEADER) % l.chunk
  }

  /** The sizes and alignments for which the free-list link fits into a chunk: below an alignment of 8
      the size must exceed the last multiple of the alignment under 8. */
  predicate RoomForLink(size: nat, align: nat) {
    align == 0 || align >= LINK || size > 7 / align * align
  }

  /** A chunk holds an object and is a multiple of the alignment, and the free-list link lies inside it
      exactly for these sizes and alignments. */
  lemma LayoutFits(size: nat, align: nat)
    requires 0 < size <= SMALL_SLAB_SIZE
    ensures var l := CreateLayout(size, align);
            && l.chunk >= size && l.align > 0 && l.chunk % l.align == 0
            && l.chunk < size + l.align + (if l.align >= LINK then LINK else 0)
            && (LayoutOk(l) <==> RoomForLink(size, align))
  {
    var l := CreateLayout(size, align);
    var chunk := if l.align >= LINK then AlignUp(size, LINK) else size;
    AlignUpBounds(size, LINK);
    AlignUpBounds(chunk, l.align);
    if l.align < LINK {
      SmallChunk(size, l.align);
    }
  }

  lemma SmallChunk(size: nat, a: nat)
    requires 0 < a < LINK
    ensures AlignUp(size, a) >= LINK <==> size > 7 / a * a
  {
    var m, up := 7 / a * a, AlignUp(size, a);
    DivBounds(7, a);
    assert m <= 7 < m + a;
    ModOfMultiple(7 / a, a);
    AlignUpBounds(size, a);
    if m < up < m + a {
      NoneBetween(m, up, a);
    }
  }

  /** With a smaller alignment the link of a free buffer can lie over its neighbour. */
  lemma SmallChunkOverlaps()
    ensures var l := CreateLayout(4, 4); l.chunk < l.offset + LINK && !RoomForLink(4, 4)
  {
    assert AlignUp(4, 4) == 4;
  }

  // ---------------------------------------------------------------------------
  // Colours
  // ---------------------------------------------------------------------------

  /** Lines 75-79. */
  function NextColor(l: Layout, color: nat): nat {
    if color + l.align > l.maxcolor then 0 else color + l.align
  }

  predicate ColorOk(l: Layout, color: nat)
    requires l.align > 0
  {
    color <= l.maxcolor && color % l.align == 0
  }

  function Capacity(l: Layout, color: nat): nat
    requires l.chunk > 0
  {
    if color <= PAGE_SIZE - HEADER then (PAGE_SIZE - HEADER - color) / l.chunk else 0
  }

  /** The colour stays a multiple of the alignment and within its maximum, and colouring never costs a
      buffer. */
  lemma ColoringIsFree(l: Layout, color: nat)
    requires LayoutOk(l) && ColorOk(l, color)
    ensures ColorOk(l, NextColor(l, color))
    ensures Capacity(l, color) == (PAGE_SIZE - HEADER) / l.chunk
  {
    if color + l.align <= l.maxcolor {
      ModOfMultiple(1, l.align);
      ModSum(color, l.align, l.align);
    }
    RoomLeft(PAGE_SIZE - HEADER, l.chunk, color);
  }

  /** The colours of a cache in the order its slabs are created: the multiples of the alignment up to the maximum,
      one after the other, and then from 0 again. */
  function ColorOf(l: Layout, n: nat): nat
    requires l.align > 0
  {
    n % (l.maxcolor / l.align + 1) * l.align
  }

  lemma ColorsCycle(l: Layout, n: nat)
    requires l.align > 0
    ensures NextColor(l, ColorOf(l, n)) == ColorOf(l, n + 1)
  {
    var a, top := l.align, l.maxcolor / l.align;
    var j := n % (top + 1);
    DivBounds(l.maxcolor, a);
    assert j * a + a == (j + 1) * a;
    NextMod(n, top + 1);
    if j < top {
      MulMono(j + 1, top, a);
    }
  }

  lemma NextMod(n: nat, m: nat)
    requires m > 0
    ensures (n + 1) % m == if n % m == m - 1 then 0 else n % m + 1
  {
    var q, r := n / m, n % m;
    assert n == q * m + r;
    if r == m - 1 {
      assert n + 1 == (q + 1) * m;
      ModOfMultiple(q + 1, m);
    } else {
      assert q * m + (r + 1) < (q + 1) * m;
      DivUnique(n + 1, m, q);
    }
  }

  lemma RoomLeft(room: nat, chunk: nat, color: nat)
    requires chunk > 0 && color <= room % chunk
    ensures color <= room && (room - color) / chunk == room / chunk
  {
    var q := room / chunk;
    assert room == q * chunk + room % chunk;
    assert (q + 1) * chunk == q * chunk + chunk;
    DivUnique(room - color, chunk, q);
  }

  /** Line 85 with any colour: the difference is unsigned and wraps. */
  function ReadCapacity(l: Layout, color: nat): nat
    requires l.chunk > 0 && color <= WORD
  {
    (if color <= PAGE_SIZE - HEADER then PAGE_SIZE - HEADER - color else PAGE_SIZE - HEADER + WORD - color) / l.chunk
  }

  /** How many buffers a colour beyond the maximum costs. */
  function Overshoot(l: Layout, color: nat): nat
    requires l.chunk > 0
  {
    if color <= l.maxcolor then 0 else (color - l.maxcolor + l.chunk - 1) / l.chunk
  }

  lemma ChunksOver(room: nat, chunk: nat, rest: nat, q: nat, k: nat, color: nat)
    requires chunk > 0 && room == q * chunk + rest && rest < color <= room
    requires k * chunk <= color - rest + chunk - 1 < (k + 1) * chunk
    ensures k <= q && (room - color) / chunk == q - k
  {
    assert (k + 1) * chunk == k * chunk + chunk && (q + 1) * chunk == q * chunk + chunk;
    if k > q {
      MulMono(q + 1, k, chunk);
    } else {
      Difference(q, k, chunk);
      Difference(q + 1, k, chunk);
      DivUnique(room - color, chunk, q - k);
    }
  }

  lemma Difference(q: nat, k: nat, chunk: nat)
    requires k <= q
    ensures (q - k) * chunk == q * chunk - k * chunk
  {
  }

  lemma CapacityIs(l: Layout, color: nat)
    requires LayoutOk(l) && color <= PAGE_SIZE - HEADER
    ensures ReadCapacity(l, color) == Capacity(l, color)
    ensures Capacity(l, color) + Overshoot(l, color) == (PAGE_SIZE - HEADER) / l.chunk
  {
    var room, chunk := PAGE_SIZE - HEADER, l.chunk;
    if color <= l.maxcolor {
      RoomLeft(room, chunk, color);
    } else {
      DivBounds(color - l.maxcolor + chunk - 1, chunk);
      ChunksOver(room, chunk, l.maxcolor, room / chunk, Overshoot(l, color), color);
    }
  }

  lemma WrappedCapacity(l: Layout, color: nat)
    requires LayoutOk(l) && PAGE_SIZE - HEADER < color && color + l.chunk <= WORD
    ensures ReadCapacity(l, color) * l.chunk > PAGE_SIZE - HEADER
  {
    DivBounds(PAGE_SIZE - HEADER + WORD - color, l.chunk);
  }

  /** Lines 85 and 90 read the colour twice, without a lock, and either read can be beyond the maximum.
      The last buffer is clear of the header exactly if the first read leaves room in the page and
      the second is beyond the maximum by no more than the chunks that the first has cost. */
  lemma TornColor(l: Layout, first: nat, second: nat)
    requires LayoutOk(l) && first + l.chunk <= WORD
    ensures second + ReadCapacity(l, first) * l.chunk <= PAGE_SIZE - HEADER <==>
            first <= PAGE_SIZE - HEADER && second <= l.maxcolor + Overshoot(l, first) * l.chunk
  {
    if first <= PAGE_SIZE - HEADER {
      CapacityIs(l, first);
      Difference((PAGE_SIZE - HEADER) / l.chunk, Overshoot(l, first), l.chunk);
    } else {
      WrappedCapacity(l, first);
    }
  }

  /** Another CPU that has added to the colour and not yet reset it makes such a read. */
  lemma TornColorOverlaps()
    ensures var l := CreateLayout(24, 8);
            && LayoutOk(l) && ColorOk(l, l.maxcolor)
            && l.maxcolor + l.align + Capacity(l, l.maxcolor) * l.chunk > PAGE_SIZE - HEADER
  {
    LayoutFits(24, 8);
    var l := CreateLayout(24, 8);
    assert AlignUp(24, 8) == 24 && l.maxcolor == 8;
    CapacityIs(l, 8);
    TornColor(l, 8, 16);
  }

  // ---------------------------------------------------------------------------
  // Buffers
  // ---------------------------------------------------------------------------

  /** The address of buffer `i` of the slab on page `p`. */
  function Buffer(l: Layout, p: nat, color: nat, i: nat): nat {
    p * PAGE_SIZE + color + i * l.chunk
  }

  /** Where `slab_create_small` puts the slab header. */
  function HeaderOf(p: nat): nat {
    p * PAGE_SIZE + PAGE_SIZE - HEADER
  }

  /** The slab that line 399 computes from an object. */
  function SlabOf(o: nat): nat {
    HeaderOf(o / PAGE_SIZE)
  }

  /** A buffer lies inside its page, clear of the header, so its slab is recovered exactly; it is aligned
      if the alignment divides the page size. */
  lemma BufferInPage(l: Layout, p: nat, color: nat, i: nat)
    requires LayoutOk(l) && ColorOk(l, color) && i < Capacity(l, color)
    ensures var b := Buffer(l, p, color, i);
            && p * PAGE_SIZE <= b && b + l.chunk <= HeaderOf(p)
            && b / PAGE_SIZE == p && SlabOf(b) == HeaderOf(p)
            && (PAGE_SIZE % l.align == 0 ==> b % l.align == 0)
  {
    var room := PAGE_SIZE - HEADER - color;
    DivBounds(room, l.chunk);
    MulMono(i + 1, room / l.chunk, l.chunk);
    assert (i + 1) * l.chunk == i * l.chunk + l.chunk;
    DivUnique(Buffer(l, p, color, i), PAGE_SIZE, p);
    if PAGE_SIZE % l.align == 0 {
      ModProduct(p, PAGE_SIZE, l.align);
      ModProduct(i, l.chunk, l.align);
      ModSum(p * PAGE_SIZE, color, l.align);
      ModSum(p * PAGE_SIZE + color, i * l.chunk, l.align);
    }
  }

  /** Different buffers of a slab do not overlap. */
  lemma BuffersDisjoint(l: Layout, p: nat, color: nat, i: nat, j: nat)
    requires i < j && l.chunk > 0
    ensures Buffer(l, p, color, i) + l.chunk <= Buffer(l, p, color, j)
  {
    MulMono(i + 1, j, l.chunk);
    assert (i + 1) * l.chunk == i * l.chunk + l.chunk;
  }

  /** Buffers of different pages do not overlap. */
  lemma PagesDisjoint(l: Layout, p: nat, color: nat, i: nat, q: nat, color': nat, j: nat)
    requires LayoutOk(l) && ColorOk(l, color) && ColorOk(l, color') && p < q
    requires i < Capacity(l, color) && j < Capacity(l, color')
    ensures Buffer(l, p, color, i) + l.chunk <= Buffer(l, q, color', j)
  {
    BufferInPage(l, p, color, i);
    BufferInPage(l, q, color', j);
    MulMono(p + 1, q, PAGE_SIZE);
  }

  /** The free list `slab_create_small` builds from `n` chunks starting at `start`, last one first. */
  function FreshList(chunk: nat, start: nat, n: nat): seq<nat>
    decreases n
  {
    if n == 0 then [] else FreshList(chunk, start + chunk, n - 1) + [start]
  }

  function FreshBuffers(chunk: nat, start: nat, n: nat): set<nat>
    decreases n
  {
    if n == 0 then {} else FreshBuffers(chunk, start + chunk, n - 1) + {start}
  }

  /** `all` are the buffers of a slab on page `p`, in some colour. */
  ghost predicate SlabShape(l: Layout, p: nat, all: set<nat>)
    requires l.chunk > 0 && l.align > 0
  {
    exists color: nat :: ColorOk(l, color) && all == FreshBuffers(l.chunk, Buffer(l, p, color, 0), Capacity(l, color))
  }
}
