/** What map and unmap do to addresses, with four levels of tables and with five. */
module AddressSpace {
  import opened Common
  import opened PageEntry
  import opened PageTables
  import opened Pmap

  /** The meaning of an address. */
  function Translate(s: Tables, q: nat, w: Word): Translation {
    Lookup(s, q, ComputeIndices(w))
  }

  /** `w` from root `q` lies in the page of the given level around `v` from root `r`: the same page of
      the same root, or of any root in the shared upper half. */
  predicate InPage(s: Tables, r: nat, v: Word, level: nat, q: nat, w: Word) {
    SamePageOf(v, w, level, s.top) && (q == r || InUpperHalf(v, s.top))
  }

  lemma CoversIsInPage(s: Tables, r: nat, v: Word, level: nat, q: nat, w: Word)
    requires (s.top == 4 || s.top == 5) && 1 <= level <= 3
    ensures Covers(s, r, ComputeIndices(v), level, q, ComputeIndices(w)) <==> InPage(s, r, v, level, q, w)
  {
    SamePage(v, w, level, s.top);
    UpperHalf(v, s.top);
    CoversIs(s, r, ComputeIndices(v), level, q, ComputeIndices(w), SamePageOf(v, w, level, s.top), InUpperHalf(v, s.top));
  }

  lemma CoversIs(s: Tables, r: nat, v: Indices, level: nat, q: nat, w: Indices, same: bool, upper: bool)
    requires level < s.top && (same <==> SamePrefix(v, w, level, s.top)) && (upper <==> Upper(s, v))
    ensures Covers(s, r, v, level, q, w) <==> same && (q == r || upper)
  {
  }

  /** Mapping gives every address of the page the new meaning and leaves all others alone. */
  lemma MapAddresses(s: Tables, s': Tables, r: nat, v: Word, level: nat, e: Entry, q: nat, w: Word)
    requires Inv(s) && IsRoot(s, q) && 1 <= level <= 3 && Done(s, MapOp(r, ComputeIndices(v), level, e), s')
    ensures Translate(s', q, w) == if InPage(s, r, v, level, q, w) then Meaning(level, e) else Translate(s, q, w)
  {
    var op, ix := MapOp(r, ComputeIndices(v), level, e), ComputeIndices(w);
    CoversIsInPage(s, r, v, level, q, w);
    assert RootAfter(s, op, q) && InRange(ix);
    assert Lookup(s', q, ix) == After(s, op, q, ix);
  }

  /** A page that `pmap_map` writes at the given level; PS is set exactly above level 1. */
  predicate IsPage(t: Translation, level: nat, paddr: Word, prot: Prot) {
    && t.Mapped? && t.level == level && t.entry.addr == paddr as nat && ProtOf(t.entry) == prot
    && (t.entry.large <==> level >= 2)
  }

  /** What `pmap_map` does to the address `w` of root `q`, by the kind of page that is asked for: 1 GiB if
      the processor has such pages, else 2 MiB; 2 MiB; or 4 KiB. */
  predicate MapsAt(s: Tables, s': Tables, r: nat, vaddr: Word, paddr: Word, prot: Prot, flags: Flags, q: nat, w: Word) {
    var here := q == r || InUpperHalf(vaddr, s.top);
    if flags.huge && s.gib then
      if here && SameGibPage(vaddr, w, s.top) then IsPage(Translate(s', q, w), 3, paddr, prot)
      else Translate(s', q, w) == Translate(s, q, w)
    else if flags.huge || flags.large then
      if here && SameMibPage(vaddr, w, s.top) then IsPage(Translate(s', q, w), 2, paddr, prot)
      else Translate(s', q, w) == Translate(s, q, w)
    else
      if here && SameKibPage(vaddr, w, s.top) then
        if prot.present then IsPage(Translate(s', q, w), 1, paddr, prot) else Translate(s', q, w).Fault?
      else Translate(s', q, w) == Translate(s, q, w)
  }

  /** Mapping a page-aligned frame gives exactly the addresses of the page of the requested size the new
      meaning. */
  lemma MapPages(s: Tables, s': Tables, r: nat, vaddr: Word, paddr: Word, prot: Prot, flags: Flags, q: nat, w: Word)
    requires Inv(s) && IsRoot(s, q) && Addr(paddr) == paddr
    requires Done(s, MapOp(r, ComputeIndices(vaddr), TargetLevel(s.gib, flags), Decode(LeafEntry(paddr, prot, flags))), s')
    ensures MapsAt(s, s', r, vaddr, paddr, prot, flags, q, w)
  {
    DecodeLeaf(paddr, prot, flags);
    MapAddresses(s, s', r, vaddr, TargetLevel(s.gib, flags), Decode(LeafEntry(paddr, prot, flags)), q, w);
  }

  /** Unmapping an address leaves the page it was mapped by without a meaning, and all others alone. */
  lemma UnmapAddresses(s: Tables, s': Tables, r: nat, v: Word, q: nat, w: Word)
    requires Inv(s) && IsRoot(s, q) && Done(s, UnmapOp(r, ComputeIndices(v)), s')
    ensures var m := Translate(s, r, v);
            Translate(s', q, w) ==
              if m.Mapped? && InPage(s, r, v, m.level, q, w) then Fault else Translate(s, q, w)
  {
    var op, ix := UnmapOp(r, ComputeIndices(v)), ComputeIndices(w);
    var m := Translate(s, r, v);
    if m.Mapped? {
      CoversIsInPage(s, r, v, m.level, q, w);
    }
    assert RootAfter(s, op, q) && InRange(ix);
    assert Lookup(s', q, ix) == After(s, op, q, ix);
  }
}
