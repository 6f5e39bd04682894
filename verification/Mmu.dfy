/** The page-table code in the form of the source, proved against the abstract map. */
module Mmu {
  import opened Common
  import opened PageEntry
  import opened PageTables
  import opened Pmap
  import AddressSpace

  /** A page frame number that fits an entry. */
  ghost predicate IsFrame(f: nat) {
    f < 0x1_0000_0000_0000_0000 && Addr(f as Word) == f as Word && (f as Word) as nat == f
  }

  ghost predicate Frames(pool: seq<nat>) {
    forall k :: 0 <= k < |pool| ==> IsFrame(pool[k])
  }

  // ---------------------------------------------------------------------------
  // Going down one level
  // ---------------------------------------------------------------------------

  /** What the descent into the table for `v` at level `k - 1` leaves behind. */
  ghost predicate Descended(s: Tables, s': Tables, r: nat, v: Indices, k: nat) {
    && Inv(s') && s'.top == s.top && s'.gib == s.gib && s'.kernel == s.kernel
    && 1 <= k <= s.top && Table(s', r, v, k - 1).Some?
    && |s'.pool| >= |s.pool| - 1 && (Frames(s.pool) ==> Frames(s'.pool))
    && (forall q :: IsRoot(s', q) <==> IsRoot(s, q))
    && (forall q, w :: IsRoot(s, q) ==> Lookup(s', q, w) == Lookup(s, q, w))
    && (forall q, i :: IsRoot(s, q) && 256 <= i < 512 ==> Read(s', q, i) == Read(s, q, i))
  }

  function Descend(s: Tables, f: nat, i: nat): Tables
    requires f in s.place && s.place[f].level >= 1 && (s.pool != [] || Read(s, f, i).present)
  {
    if Read(s, f, i).present then s else AddTable(s, f, i)
  }

  /** `descend_table` with `alloc` off. */
  function Peek(s: Tables, f: nat, i: nat): Option<nat> {
    if Read(s, f, i).present then Some(Read(s, f, i).addr) else None
  }

  lemma DescendOk(s: Tables, r: nat, v: Indices, k: nat)
    requires Inv(s) && IsRoot(s, r) && 2 <= k <= s.top && InRange(v) && s.pool != []
    requires Table(s, r, v, k).Some?
    requires k <= 3 ==> LeafAt(s, r, v, k).Fault?
    ensures var f := Table(s, r, v, k).value;
            && f in s.place && s.place[f].level == k
            && Descended(s, Descend(s, f, At(v, k)), r, v, k)
            && Table(Descend(s, f, At(v, k)), r, v, k - 1) == Some(Read(Descend(s, f, At(v, k)), f, At(v, k)).addr)
  {
    var f, i := Table(s, r, v, k).value, At(v, k);
    TablePlace(s, r, v, k);
    assert PlaceOk(s, f);
    if Read(s, f, i).present {
      assert Pointer(Read(s, f, i), k);
    } else {
      assert IsRoot(s, f) && i >= 256 ==> Pointer(Read(s, f, i), s.top);
      AddedOk(s, r, v, k, f, i);
    }
  }

  lemma AddedOk(s: Tables, r: nat, v: Indices, k: nat, f: nat, i: nat)
    requires Inv(s) && IsRoot(s, r) && 2 <= k <= s.top && s.pool != [] && f in s.place && s.place[f].level == k
    requires Passes(s, r, v, k, f, i) && !Read(s, f, i).present && (k <= 3 ==> !Read(s, f, i).large)
    requires !IsRoot(s, f) || i < 256
    ensures Descended(s, AddTable(s, f, i), r, v, k)
    ensures Table(AddTable(s, f, i), r, v, k - 1) == Some(s.pool[0])
  {
    var s' := AddTable(s, f, i);
    AddTableTree(s, f, i);
    AddTableShared(s, f, i);
    TableUnaffected(s, s', f, i, r, v, k);
    forall q, w | IsRoot(s, q) ensures Lookup(s', q, w) == Lookup(s, q, w) {
      AddTableInvisible(s, f, i, q, w);
    }
  }

  /** There is no larger page in the way. */
  predicate NoLargerPage(s: Tables, r: nat, v: Indices, level: nat) {
    var m := Lookup(s, r, v); m.Mapped? ==> m.level <= level
  }

  lemma NoLargeEntry(s: Tables, r: nat, v: Indices, level: nat, k: nat)
    requires s.top >= 4 && NoLargerPage(s, r, v, level) && level < k <= 3 && Table(s, r, v, k).Some?
    ensures LeafAt(s, r, v, k).Fault?
  {
    if k == 2 {
      PointerNotLeaf(s, r, v, 2);
    }
  }

  /** The tables grew and no address noticed. */
  ghost predicate SameMeaning(s: Tables, s': Tables) {
    && s'.top == s.top && s'.gib == s.gib && s'.kernel == s.kernel
    && (forall q :: IsRoot(s', q) <==> IsRoot(s, q))
    && (forall q, w :: IsRoot(s, q) ==> Lookup(s', q, w) == Lookup(s, q, w))
    && (forall q, i :: IsRoot(s, q) && 256 <= i < 512 ==> Read(s', q, i) == Read(s, q, i))
  }

  lemma MeaningTrans(s: Tables, s1: Tables, s2: Tables)
    requires SameMeaning(s, s1) && SameMeaning(s1, s2)
    ensures SameMeaning(s, s2)
  {
  }

  lemma DescendedMeans(s: Tables, s': Tables, r: nat, v: Indices, k: nat)
    requires Descended(s, s', r, v, k)
    ensures SameMeaning(s, s')
  {
  }

  /** Descents followed by the leaf write make one map operation. */
  lemma MapDone(s0: Tables, s: Tables, r: nat, v: Indices, level: nat, e: Entry)
    requires Inv(s0) && Inv(s) && IsRoot(s0, r) && LeafLike(level, e) && InRange(v) && Table(s, r, v, level).Some?
    requires SameMeaning(s0, s)
    ensures Done(s0, MapOp(r, v, level, e), Write(s, Table(s, r, v, level).value, At(v, level), e))
  {
    var f, i := Table(s, r, v, level).value, At(v, level);
    var s' := Write(s, f, i, e);
    TablePlace(s, r, v, level);
    WriteLeafKeeps(s, f, i, e);
    assert PlaceOk(s, f);
    var op := MapOp(r, v, level, e);
    forall q, w | RootAfter(s0, op, q) && InRange(w) ensures Lookup(s', q, w) == After(s0, op, q, w) {
      WriteLeaf(s, r, v, level, e, q, w);
      assert Covers(s, r, v, level, q, w) == Covers(s0, r, v, level, q, w);
    }
    assert forall q :: IsRoot(s', q) <==> IsRoot(s, q);
  }

  lemma UnmapDone(s: Tables, r: nat, v: Indices, level: nat)
    requires Inv(s) && IsRoot(s, r) && InRange(v) && 1 <= level <= 3 && Table(s, r, v, level).Some?
    requires Lookup(s, r, v).Mapped? ==> Lookup(s, r, v).level == level
    requires Lookup(s, r, v).Fault? ==> level == 1
    ensures Done(s, UnmapOp(r, v), Write(s, Table(s, r, v, level).value, At(v, level), ZERO))
  {
    var f, i := Table(s, r, v, level).value, At(v, level);
    var s' := Write(s, f, i, ZERO);
    TablePlace(s, r, v, level);
    WriteLeafKeeps(s, f, i, ZERO);
    assert PlaceOk(s, f);
    var op := UnmapOp(r, v);
    forall q, w | RootAfter(s, op, q) && InRange(w) ensures Lookup(s', q, w) == After(s, op, q, w) {
      WriteLeaf(s, r, v, level, ZERO, q, w);
      if Lookup(s, r, v).Fault? && Covers(s, r, v, level, q, w) {
        CoveredLookup(s, r, v, q, w, 1);
      }
    }
    assert forall q :: IsRoot(s', q) <==> IsRoot(s, q);
  }

  lemma UnmapNothing(s: Tables, r: nat, v: Indices)
    requires Inv(s) && IsRoot(s, r) && Lookup(s, r, v).Fault?
    ensures Done(s, UnmapOp(r, v), s)
  {
  }

  lemma NoTranslation(s: Tables, r: nat, v: Indices, k: nat)
    requires 2 <= k <= s.top && 4 <= s.top && Table(s, r, v, k - 1).None?
    requires k <= 3 ==> Table(s, r, v, k).Some?
    requires k <= 3 ==> LeafAt(s, r, v, k).Fault?
    ensures Lookup(s, r, v).Fault?
  {
    NoTableBelow(s, r, v, 1, k - 1);
    if k >= 3 {
      NoTableBelow(s, r, v, 2, k - 1);
    }
    if k >= 4 {
      NoTableBelow(s, r, v, 3, k - 1);
    } else if k == 2 {
      PointerNotLeaf(s, r, v, 2);
    }
  }

  // ---------------------------------------------------------------------------
  // The code
  // ---------------------------------------------------------------------------

  /** What a page that has just become a root holds: copies of the kernel's upper half below `n`. */
  ghost predicate CopiedBelow(s: Tables, s': Tables, g: nat, n: nat) {
    && s'.top == s.top && s'.gib == s.gib && s'.kernel == s.kernel
    && s'.place == s.place[g := Place(s.top, Root)]
    && |s.pool| > 0 && s.pool[0] == g && s'.pool == s.pool[1..]
    && (forall h: nat, i: nat :: h in s.place ==> Read(s', h, i) == Read(s, h, i))
    && (forall i: nat :: Read(s', g, i) == if 256 <= i < n then Read(s, s.kernel, i) else ZERO)
    && (forall x :: x in s'.mem ==> x.frame in s'.place)
  }

  lemma CopyStep(s: Tables, s': Tables, g: nat, n: nat)
    requires Inv(s) && CopiedBelow(s, s', g, n) && 256 <= n
    ensures CopiedBelow(s, Write(s', g, n, Read(s', s'.kernel, n)), g, n + 1)
  {
    var e := Read(s', s'.kernel, n);
    assert g !in s.place && s.kernel in s.place;
    assert e == Read(s, s.kernel, n);
    var s'' := Write(s', g, n, e);
    assert forall h: nat, i: nat :: h != g || i != n ==> Read(s'', h, i) == Read(s', h, i);
  }

  /** The kernel root while its upper half is filled: present entries from 256 up to `n`, and still
      no translation. */
  ghost predicate Booted(s: Tables, n: nat) {
    && Tree(s)
    && (forall q :: IsRoot(s, q) <==> q == s.kernel)
    && (forall j: nat :: Read(s, s.kernel, j).present <==> 256 <= j < n)
    && (forall w :: Lookup(s, s.kernel, w).Fault?)
  }

  lemma BootStep(s: Tables, n: nat)
    requires Booted(s, n) && 256 <= n < 512 && s.pool != []
    ensures s.kernel in s.place && s.place[s.kernel].level >= 1 && Descend(s, s.kernel, n) == AddTable(s, s.kernel, n)
    ensures Booted(AddTable(s, s.kernel, n), n + 1)
  {
    var s' := AddTable(s, s.kernel, n);
    assert PlaceOk(s, s.kernel);
    AddTableTree(s, s.kernel, n);
    forall w ensures Lookup(s', s.kernel, w).Fault? {
      AddTableInvisible(s, s.kernel, n, s.kernel, w);
    }
    assert forall j: nat :: j != n ==> Read(s', s.kernel, j) == Read(s, s.kernel, j);
    forall q ensures IsRoot(s', q) <==> q == s.kernel {
      assert q != s.pool[0] ==> IsRoot(s', q) == IsRoot(s, q);
    }
  }

  lemma BootDone(s: Tables)
    requires Booted(s, 512)
    ensures Inv(s)
  {
    assert PlaceOk(s, s.kernel);
    forall r, j | IsRoot(s, r) && 256 <= j < 512
      ensures Read(s, r, j) == Read(s, s.kernel, j) && Pointer(Read(s, r, j), s.top)
    {
      assert Read(s, s.kernel, j).present;
    }
  }

  lemma BootStart(s: Tables)
    requires s.mem == map[] && s.place == map[s.kernel := Place(s.top, Root)] && (s.top == 4 || s.top == 5)
    requires s.kernel !in s.pool && forall j, k :: 0 <= j < k < |s.pool| ==> s.pool[j] != s.pool[k]
    ensures Booted(s, 256)
  {
    forall w ensures Lookup(s, s.kernel, w).Fault? {
      assert Table(s, s.kernel, w, s.top) == Some(s.kernel) && Table(s, s.kernel, w, s.top - 1).None?;
      NoTranslation(s, s.kernel, w, s.top);
    }
  }

  lemma NewRootInv(s: Tables, s': Tables, g: nat)
    requires Inv(s) && CopiedBelow(s, s', g, 512)
    ensures Inv(s')
  {
    forall h | h in s'.place ensures PlaceOk(s', h) {
      if h != g {
        assert PlaceOk(s, h);
      }
    }
    forall h: nat, i: nat | h in s'.place ensures EntryOk(s', h, i) {
      if h != g {
        assert EntryOk(s, h, i);
      } else if 256 <= i < 512 {
        assert EntryOk(s, s.kernel, i) && PlaceOk(s, s.kernel);
      }
    }
    forall r, j | IsRoot(s', r) && 256 <= j < 512
      ensures Read(s', r, j) == Read(s', s'.kernel, j) && Pointer(Read(s', r, j), s'.top)
    {
      if r != g {
        assert IsRoot(s, r);
        assert Read(s', r, j) == Read(s, r, j) == Read(s, s.kernel, j);
      } else {
        assert Read(s', r, j) == Read(s, s.kernel, j);
      }
    }
  }

  /** Old roots do not notice the new one. */
  lemma {:induction false} NewRootTables(s: Tables, s': Tables, g: nat, q: nat, w: Indices, level: nat)
    requires Inv(s) && CopiedBelow(s, s', g, 512) && IsRoot(s, q) && 1 <= level <= s.top
    ensures Table(s', q, w, level) == Table(s, q, w, level)
    decreases s.top - level
  {
    if level < s.top {
      NewRootTables(s, s', g, q, w, level + 1);
      TablePlace(s, q, w, level + 1);
    }
  }

  lemma NewRootLookup(s: Tables, s': Tables, g: nat, q: nat, w: Indices)
    requires Inv(s) && CopiedBelow(s, s', g, 512) && IsRoot(s, q)
    ensures Lookup(s', q, w) == Lookup(s, q, w)
  {
    forall l: nat | 1 <= l <= 3 ensures LeafAt(s', q, w, l) == LeafAt(s, q, w, l) {
      NewRootTables(s, s', g, q, w, l);
      TablePlace(s, q, w, l);
    }
  }

  /** The new root has the kernel's half and nothing else. */
  lemma NewRootDone(s: Tables, s': Tables, g: nat)
    requires Inv(s) && CopiedBelow(s, s', g, 512)
    ensures Done(s, NewOp(g), s')
  {
    NewRootInv(s, s', g);
    var op := NewOp(g);
    forall q, w | RootAfter(s, op, q) && InRange(w) ensures Lookup(s', q, w) == After(s, op, q, w) {
      if q != g {
        NewRootLookup(s, s', g, q, w);
      } else if Upper(s, w) {
        KernelHalfShared(s', s.kernel, g, w);
        NewRootLookup(s, s', g, s.kernel, w);
      } else {
        NoTranslation(s', g, w, s.top);
      }
    }
  }

  /** Mapping does to every address of every root what the requested kind of page calls for. */
  ghost predicate MapsPages(s: Tables, s': Tables, r: nat, vaddr: Word, paddr: Word, prot: Prot, flags: Flags) {
    forall q: nat, w: Word :: IsRoot(s, q) ==> AddressSpace.MapsAt(s, s', r, vaddr, paddr, prot, flags, q, w)
  }

  lemma MapsAll(s: Tables, s': Tables, r: nat, vaddr: Word, paddr: Word, prot: Prot, flags: Flags)
    requires Inv(s)
    requires Done(s, MapOp(r, ComputeIndices(vaddr), TargetLevel(s.gib, flags), Decode(LeafEntry(paddr, prot, flags))), s')
    ensures Addr(paddr) == paddr ==> MapsPages(s, s', r, vaddr, paddr, prot, flags)
  {
    if Addr(paddr) == paddr {
      forall q: nat, w: Word | IsRoot(s, q) ensures AddressSpace.MapsAt(s, s', r, vaddr, paddr, prot, flags, q, w) {
        AddressSpace.MapPages(s, s', r, vaddr, paddr, prot, flags, q, w);
      }
    }
  }

  class PageTable {
    var st: Tables

    /** `pmap_init_kernel`: the kernel root and the tables below its upper half. */
    constructor (pool: seq<nat>, pml5: bool, gib: bool)
      requires Frames(pool) && |pool| > 256 && forall j, k :: 0 <= j < k < |pool| ==> pool[j] != pool[k]
      ensures Valid() && st.kernel == pool[0] && st.top == (if pml5 then 5 else 4) && st.gib == gib
      ensures forall q :: IsRoot(st, q) <==> q == pool[0]
      ensures forall w :: InRange(w) ==> Lookup(st, pool[0], w).Fault?
    {
      var top := if pml5 then 5 else 4;
      var root := pool[0];
      st := Tables(map[], map[root := Place(top, Root)], pool[1..], root, top, gib);
      new;
      BootStart(st);
      for i := 256 to 512
        invariant Booted(st, i) && Frames(st.pool) && |st.pool| == |pool| - 1 - (i - 256)
        invariant st.kernel == root && st.top == top && st.gib == gib
      {
        BootStep(st, i);
        assert PlaceOk(st, root);
        var child := DescendTable(root, i, true);
      }
      BootDone(st);
    }

    /** `pmap_new`. */
    method New() returns (root: nat)
      requires Valid() && st.pool != []
      modifies this
      ensures Valid() && Done(old(st), NewOp(root), st) && root == old(st).pool[0]
    {
      root := st.pool[0];
      st := st.(place := st.place[root := Place(st.top, Root)], pool := st.pool[1..]);
      for i := 256 to 512
        invariant CopiedBelow(old(st), st, root, i)
      {
        CopyStep(old(st), st, root, i);
        st := Write(st, root, i, Read(st, st.kernel, i));
      }
      NewRootDone(old(st), st, root);
    }

    ghost predicate Valid()
      reads this
    {
      Inv(st) && Frames(st.pool)
    }

    /** `descend_table`: follow a present entry, whatever it is, or make one. */
    method DescendTable(f: nat, i: nat, alloc: bool) returns (child: Option<nat>)
      requires f in st.place && st.place[f].level >= 1 && Frames(st.pool) && (alloc ==> st.pool != [])
      modifies this
      ensures alloc ==> st == Descend(old(st), f, i) && child == Some(Read(st, f, i).addr)
      ensures !alloc ==> st == old(st) && child == Peek(st, f, i)
    {
      child := Peek(st, f, i);
      if child.Some? || !alloc {
        return;
      }
      assert IsFrame(st.pool[0]);
      var frame := st.pool[0] as Word;
      DecodeTable(frame);
      assert Decode(TableEntry(frame)) == Pointing(st.pool[0]);
      st := Write(st, f, i, Decode(TableEntry(frame))).(
        place := st.place[st.pool[0] := Place(st.place[f].level - 1, LinkFrom(st, f, i))], pool := st.pool[1..]);
      child := Some(Read(st, f, i).addr);
    }

    /** One `descend_table(.., true, ..)` of `pmap_map`. */
    method Deepen(r: nat, v: Indices, k: nat, f: nat) returns (child: nat)
      requires Valid() && IsRoot(st, r) && 2 <= k <= st.top && InRange(v) && st.pool != []
      requires Table(st, r, v, k) == Some(f)
      requires k <= 3 ==> LeafAt(st, r, v, k).Fault?
      modifies this
      ensures Valid() && Descended(old(st), st, r, v, k) && Table(st, r, v, k - 1) == Some(child)
    {
      DescendOk(st, r, v, k);
      var c := DescendTable(f, At(v, k), true);
      child := c.value;
    }

    /** `pmap_map`. The allocator is taken to have the pages the walk may need. */
    method Map(r: nat, vaddr: Word, paddr: Word, prot: Prot, flags: Flags)
      requires Valid() && IsRoot(st, r) && |st.pool| >= 4
      requires NoLargerPage(st, r, ComputeIndices(vaddr), TargetLevel(st.gib, flags))
      modifies this
      ensures Valid()
      ensures Done(old(st), MapOp(r, ComputeIndices(vaddr), TargetLevel(old(st).gib, flags),
                                  Decode(LeafEntry(paddr, prot, flags))), st)
      ensures Addr(paddr) == paddr ==> MapsPages(old(st), st, r, vaddr, paddr, prot, flags)
    {
      var v := ComputeIndices(vaddr);
      var entry := Decode(LeafEntry(paddr, prot, flags));
      DecodeLeaf(paddr, prot, flags);
      var pml3 := MapUpper(r, v);
      if flags.huge && st.gib {
        MapDone(old(st), st, r, v, 3, entry);
        st := Write(st, pml3, v.pml3, entry);
      } else {
        MapLower(old(st), r, v, pml3, flags.huge || flags.large, entry);
      }
      MapsAll(old(st), st, r, vaddr, paddr, prot, flags);
    }

    /** The walk to the table of level 3. */
    method MapUpper(r: nat, v: Indices) returns (pml3: nat)
      requires Valid() && IsRoot(st, r) && InRange(v) && |st.pool| >= 4
      modifies this
      ensures Valid() && SameMeaning(old(st), st) && Table(st, r, v, 3) == Some(pml3) && |st.pool| >= 2
    {
      var pml4 := r;
      if st.top == 5 {
        pml4 := Deepen(r, v, 5, r);
        DescendedMeans(old(st), st, r, v, 5);
      }
      ghost var mid := st;
      pml3 := Deepen(r, v, 4, pml4);
      DescendedMeans(mid, st, r, v, 4);
    }

    /** The walk below it, for a page smaller than 1 GiB. */
    method MapLower(ghost s0: Tables, r: nat, v: Indices, pml3: nat, large: bool, entry: Entry)
      requires Valid() && Inv(s0) && IsRoot(s0, r) && InRange(v) && |st.pool| >= 2
      requires SameMeaning(s0, st) && Table(st, r, v, 3) == Some(pml3)
      requires NoLargerPage(s0, r, v, if large then 2 else 1) && LeafLike(if large then 2 else 1, entry)
      modifies this
      ensures Valid() && Done(s0, MapOp(r, v, if large then 2 else 1, entry), st)
    {
      NoLargeEntry(st, r, v, if large then 2 else 1, 3);
      ghost var s1 := st;
      var pml2 := Deepen(r, v, 3, pml3);
      DescendedMeans(s1, st, r, v, 3);
      MeaningTrans(s0, s1, st);
      if large {
        MapDone(s0, st, r, v, 2, entry);
        st := Write(st, pml2, v.pml2, entry);
        return;
      }
      NoLargeEntry(st, r, v, 1, 2);
      ghost var s2 := st;
      var pml1 := Deepen(r, v, 2, pml2);
      DescendedMeans(s2, st, r, v, 2);
      MeaningTrans(s0, s2, st);
      MapDone(s0, st, r, v, 1, entry);
      st := Write(st, pml1, v.pml1, entry);
    }

    /** One `descend_table(.., false, ..)` of a walk that has ruled out a large page. */
    method Follow(r: nat, v: Indices, k: nat, f: nat) returns (child: Option<nat>)
      requires Valid() && IsRoot(st, r) && 2 <= k <= st.top && Table(st, r, v, k) == Some(f)
      requires k <= 3 ==> LeafAt(st, r, v, k).Fault?
      ensures child == Table(st, r, v, k - 1)
      ensures child.None? ==> Lookup(st, r, v).Fault?
    {
      child := Peek(st, f, At(v, k));
      if child.None? {
        NoTranslation(st, r, v, k);
      }
    }

    /** `pmap_unmap`. */
    method Unmap(r: nat, vaddr: Word)
      requires Valid() && IsRoot(st, r)
      modifies this
      ensures Valid() && Done(old(st), UnmapOp(r, ComputeIndices(vaddr)), st)
    {
      var v := ComputeIndices(vaddr);
      DecodeZero();
      if Lookup(st, r, v).Fault? {
        UnmapNothing(st, r, v);
      }
      var pml4 := Some(r);
      if st.top == 5 {
        pml4 := Follow(r, v, 5, r);
      }
      if pml4.None? {
        return;
      }
      var pml3 := Follow(r, v, 4, pml4.value);
      if pml3.None? {
        return;
      }
      if Read(st, pml3.value, v.pml3).large {
        UnmapDone(st, r, v, 3);
        st := Write(st, pml3.value, v.pml3, Decode(0));
        return;
      }
      var pml2 := Follow(r, v, 3, pml3.value);
      if pml2.None? {
        return;
      }
      if Read(st, pml2.value, v.pml2).large {
        UnmapDone(st, r, v, 2);
        st := Write(st, pml2.value, v.pml2, Decode(0));
        return;
      }
      var pml1 := Follow(r, v, 2, pml2.value);
      if pml1.None? {
        return;
      }
      UnmapDone(st, r, v, 1);
      st := Write(st, pml1.value, v.pml1, Decode(0));
    }

    /** `pmap_translate`: 0 and the frame, page kind and protection, or -1. For a 2 MiB page the
        code reports the protection of the level-3 entry above the leaf. */
    method Translate(r: nat, vaddr: Word) returns (code: int, outpaddr: nat, flags: Flags, prot: Prot)
      requires Valid() && IsRoot(st, r)
      ensures var m := Lookup(st, r, ComputeIndices(vaddr));
              match m
              case Fault => code == -1
              case Mapped(level, e) =>
                && code == 0 && outpaddr == e.addr && 1 <= level <= 3
                && (flags.huge <==> level == 3) && (flags.large <==> level == 2)
                && prot == if level == 2 then PROT_ALL else ProtOf(e)
    {
      var v := ComputeIndices(vaddr);
      code, outpaddr, flags, prot := -1, 0, Flags(false, false, false), Prot(false, false, false, false);
      var pml4 := Some(r);
      if st.top == 5 {
        pml4 := Follow(r, v, 5, r);
      }
      if pml4.None? {
        return;
      }
      var pml3 := Follow(r, v, 4, pml4.value);
      if pml3.None? {
        return;
      }
      var e3 := Read(st, pml3.value, v.pml3);
      if e3.large {
        return 0, e3.addr, Flags(false, true, false), ProtOf(e3);
      }
      var pml2 := Follow(r, v, 3, pml3.value);
      if pml2.None? {
        return;
      }
      var e2 := Read(st, pml2.value, v.pml2);
      if e2.large {
        TablePlace(st, r, v, 3);
        assert EntryOk(st, pml3.value, v.pml3);
        return 0, e2.addr, Flags(true, false, false), ProtOf(e3);
      }
      var pml1 := Follow(r, v, 2, pml2.value);
      if pml1.None? {
        return;
      }
      var e1 := Read(st, pml1.value, v.pml1);
      if !e1.present {
        return;
      }
      return 0, e1.addr, Flags(false, false, false), ProtOf(e1);
    }
  }
}
