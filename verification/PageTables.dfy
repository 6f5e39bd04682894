/** The four- and five-level page tables of `kernel/arch/amd64/paging.c`: walks, and the invariant
    that makes the tables of all address spaces trees with one shared kernel half. */
module PageTables {
  import opened Common
  import opened PageEntry

  // ---------------------------------------------------------------------------
  // Tables
  // ---------------------------------------------------------------------------

  const ZERO := Entry(0, false, false, false, false, false)

  /** The decoded form of what `descend_table` writes. */
  function Pointing(frame: nat): Entry {
    Entry(frame, true, true, true, false, false)
  }

  datatype Slot = Slot(frame: nat, index: nat)

  /** How a table is reached: from nowhere, from one entry, or from entry `index` of every root. */
  datatype Link = Root | Child(frame: nat, index: nat) | Shared(index: nat)

  datatype Place = Place(level: nat, link: Link)

  /** Physical memory as far as it holds page tables. Words never written read as zero, which is the
      contract of a fresh page; `pool` lists the pages `pmm_alloc` will hand out. `place` records
      what each page was allocated for and is not used by the code. `top` is 5 with five-level
      paging and 4 without, `gib` says whether 1 GiB pages are supported. */
  datatype Tables = Tables(mem: map<Slot, Entry>, place: map<nat, Place>, pool: seq<nat>,
                           kernel: nat, top: nat, gib: bool)

  function Read(s: Tables, f: nat, i: nat): Entry {
    if Slot(f, i) in s.mem then s.mem[Slot(f, i)] else ZERO
  }

  /** Whether an entry of a table of this level refers to a table of the next one. */
  predicate Pointer(e: Entry, level: nat) {
    2 <= level && e.present && (level <= 3 ==> !e.large)
  }

  predicate IsRoot(s: Tables, r: nat) {
    r in s.place && s.place[r].link.Root?
  }

  /** The table of the given level that a walk for `v` from root `r` passes. */
  function Table(s: Tables, r: nat, v: Indices, level: nat): Option<nat>
    decreases s.top - level
  {
    if level >= s.top then Some(r)
    else
      match Table(s, r, v, level + 1)
      case None => None
      case Some(f) =>
        var e := Read(s, f, At(v, level + 1));
        if Pointer(e, level + 1) then Some(e.addr) else None
  }

  /** The meaning of an address: no translation, or the leaf entry and its level. */
  datatype Translation = Fault | Mapped(level: nat, entry: Entry)

  function LeafAt(s: Tables, r: nat, v: Indices, level: nat): Translation
  {
    match Table(s, r, v, level)
    case None => Fault
    case Some(f) =>
      var e := Read(s, f, At(v, level));
      if level == 1 then (if e.present then Mapped(1, e) else Fault)
      else if level <= 3 && e.large then Mapped(level, e) else Fault
  }

  function Lookup(s: Tables, r: nat, v: Indices): Translation {
    if LeafAt(s, r, v, 3).Mapped? then LeafAt(s, r, v, 3)
    else if LeafAt(s, r, v, 2).Mapped? then LeafAt(s, r, v, 2)
    else LeafAt(s, r, v, 1)
  }

  // ---------------------------------------------------------------------------
  // The invariant
  // ---------------------------------------------------------------------------

  function LinkFrom(s: Tables, f: nat, i: nat): Link {
    if IsRoot(s, f) && i >= 256 then Shared(i) else Child(f, i)
  }

  predicate PlaceOk(s: Tables, f: nat)
    requires f in s.place
  {
    1 <= s.place[f].level <= s.top && (s.place[f].link.Root? <==> s.place[f].level == s.top)
  }

  /** An entry that refers to a table refers to one placed exactly there, with all rights. */
  predicate EntryOk(s: Tables, f: nat, i: nat)
    requires f in s.place && s.place[f].level >= 1
  {
    var e := Read(s, f, i);
    Pointer(e, s.place[f].level) ==>
      && e.addr in s.place
      && s.place[e.addr] == Place(s.place[f].level - 1, LinkFrom(s, f, i))
      && e == Pointing(e.addr)
  }

  ghost predicate PoolOk(s: Tables) {
    && (forall k :: 0 <= k < |s.pool| ==> s.pool[k] !in s.place)
    && (forall j, k :: 0 <= j < k < |s.pool| ==> s.pool[j] != s.pool[k])
    && (forall x :: x in s.mem ==> x.frame in s.place)
  }

  ghost predicate Tree(s: Tables) {
    && (s.top == 4 || s.top == 5)
    && (forall f :: f in s.place ==> PlaceOk(s, f))
    && (forall f, i :: f in s.place ==> EntryOk(s, f, i))
    && PoolOk(s)
    && IsRoot(s, s.kernel)
  }

  /** All roots have the same present entries in their upper half. */
  ghost predicate SharedHalf(s: Tables) {
    forall r, i :: IsRoot(s, r) && 256 <= i < 512 ==>
      Read(s, r, i) == Read(s, s.kernel, i) && Pointer(Read(s, r, i), s.top)
  }

  ghost predicate Inv(s: Tables) {
    Tree(s) && SharedHalf(s)
  }

  predicate Upper(s: Tables, v: Indices) {
    At(v, s.top) >= 256
  }

  /** Changing the entry of level `level` on the path of `v` from `r` concerns `w` from `q`. */
  predicate Covers(s: Tables, r: nat, v: Indices, level: nat, q: nat, w: Indices) {
    SamePrefix(v, w, level, s.top) && (q == r || (level < s.top && Upper(s, v)))
  }

  // ---------------------------------------------------------------------------
  // Walks in a tree
  // ---------------------------------------------------------------------------

  /** A walk finds its tables where they were placed. */
  lemma {:induction false} TablePlace(s: Tables, r: nat, v: Indices, level: nat)
    requires Tree(s) && IsRoot(s, r) && 1 <= level <= s.top
    ensures var t := Table(s, r, v, level); t.Some? ==> t.value in s.place && s.place[t.value].level == level
    ensures level < s.top && Table(s, r, v, level).Some? ==>
              && Table(s, r, v, level + 1).Some?
              && s.place[Table(s, r, v, level).value].link ==
                 LinkFrom(s, Table(s, r, v, level + 1).value, At(v, level + 1))
    decreases s.top - level
  {
    if level == s.top {
      assert PlaceOk(s, r);
    } else {
      TablePlace(s, r, v, level + 1);
      match Table(s, r, v, level + 1)
      case None =>
      case Some(f) => assert EntryOk(s, f, At(v, level + 1));
    }
  }

  /** Two walks meet in a table only if they used the same entries to get there. */
  lemma {:induction false} MeetAtTable(s: Tables, r: nat, v: Indices, q: nat, w: Indices, level: nat)
    requires Tree(s) && IsRoot(s, r) && IsRoot(s, q) && 1 <= level <= s.top
    requires Table(s, r, v, level).Some? && Table(s, q, w, level) == Table(s, r, v, level)
    ensures SamePrefix(v, w, level + 1, s.top)
    ensures q == r || (level < s.top && Upper(s, v))
    decreases s.top - level
  {
    TablePlace(s, r, v, level);
    TablePlace(s, q, w, level);
    if level < s.top {
      var f, g := Table(s, r, v, level + 1).value, Table(s, q, w, level + 1).value;
      TablePlace(s, r, v, level + 1);
      TablePlace(s, q, w, level + 1);
      assert At(v, level + 1) == At(w, level + 1);
      if level + 1 == s.top {
        assert SamePrefix(v, w, level + 2, s.top);
      } else {
        assert PlaceOk(s, f) && PlaceOk(s, g);
        assert f == g;
        MeetAtTable(s, r, v, q, w, level + 1);
      }
    }
  }

  /** Two walks that use the same entries meet, because the upper half is shared. */
  lemma {:induction false} CoveredTable(s: Tables, r: nat, v: Indices, q: nat, w: Indices, level: nat)
    requires Inv(s) && IsRoot(s, r) && IsRoot(s, q) && 1 <= level <= s.top && InRange(v)
    requires SamePrefix(v, w, level + 1, s.top) && (q == r || (level < s.top && Upper(s, v)))
    ensures Table(s, q, w, level) == Table(s, r, v, level)
    decreases s.top - level
  {
    if level < s.top {
      assert At(v, level + 1) == At(w, level + 1);
      if level + 1 < s.top || q == r {
        CoveredTable(s, r, v, q, w, level + 1);
      } else {
        assert Read(s, r, At(v, s.top)) == Read(s, q, At(v, s.top));
      }
    }
  }

  // ---------------------------------------------------------------------------
  // Writing one entry
  // ---------------------------------------------------------------------------

  function Write(s: Tables, f: nat, i: nat, e: Entry): Tables {
    s.(mem := s.mem[Slot(f, i) := e])
  }

  /** The walk for `w` from `q` reads entry `i` of table `f` at `level`. */
  predicate Passes(s: Tables, q: nat, w: Indices, level: nat, f: nat, i: nat) {
    Table(s, q, w, level) == Some(f) && At(w, level) == i
  }

  /** `s'` is `s` up to entry `i` of table `f`. */
  ghost predicate DiffersAt(s: Tables, s': Tables, f: nat, i: nat) {
    && s'.top == s.top && f in s.place && 1 <= s.place[f].level <= s.top
    && (forall g, j :: (g != f || j != i) && g in s.place ==> Read(s', g, j) == Read(s, g, j))
  }

  /** A walk that does not read the entry, or reads it lower down, is not affected. */
  lemma {:induction false} TableUnaffected(s: Tables, s': Tables, f: nat, i: nat, q: nat, w: Indices, level: nat)
    requires Tree(s) && IsRoot(s, q) && DiffersAt(s, s', f, i) && 1 <= level <= s.top
    requires level >= s.place[f].level || !Passes(s, q, w, s.place[f].level, f, i)
    ensures Table(s', q, w, level) == Table(s, q, w, level)
    decreases s.top - level
  {
    if level < s.top {
      TableUnaffected(s, s', f, i, q, w, level + 1);
      TablePlace(s, q, w, level + 1);
      match Table(s, q, w, level + 1)
      case None =>
      case Some(g) => assert level + 1 == s.place[f].level || g != f;
    }
  }

  lemma LeafUnaffected(s: Tables, s': Tables, f: nat, i: nat, q: nat, w: Indices, level: nat)
    requires Tree(s) && IsRoot(s, q) && DiffersAt(s, s', f, i) && 1 <= level <= s.top
    requires level > s.place[f].level || !Passes(s, q, w, s.place[f].level, f, i)
    ensures LeafAt(s', q, w, level) == LeafAt(s, q, w, level)
  {
    TableUnaffected(s, s', f, i, q, w, level);
    TablePlace(s, q, w, level);
  }

  /** A walk that goes on below a level has no leaf there. */
  lemma PointerNotLeaf(s: Tables, q: nat, w: Indices, level: nat)
    requires 1 <= level < s.top && level < 3 && Table(s, q, w, level).Some?
    ensures LeafAt(s, q, w, level + 1).Fault?
    ensures Table(s, q, w, level + 1).Some?
  {
  }

  /** Entries that may be written as leaves. */
  predicate LeafLike(level: nat, e: Entry) {
    1 <= level <= 3 && (level >= 2 ==> e.large || !e.present)
  }

  /** What an entry means as a leaf. */
  function Meaning(level: nat, e: Entry): Translation {
    if (if level == 1 then e.present else e.large) then Mapped(level, e) else Fault
  }

  /** The whole effect of writing the leaf entry of `v`: the addresses that share the entry, in all
      roots that reach it, and no others. */
  lemma WriteLeaf(s: Tables, r: nat, v: Indices, level: nat, e: Entry, q: nat, w: Indices)
    requires Inv(s) && IsRoot(s, r) && IsRoot(s, q) && LeafLike(level, e) && InRange(v)
    requires Table(s, r, v, level).Some?
    ensures var s' := Write(s, Table(s, r, v, level).value, At(v, level), e);
            Lookup(s', q, w) == if Covers(s, r, v, level, q, w) then Meaning(level, e) else Lookup(s, q, w)
  {
    var f, i := Table(s, r, v, level).value, At(v, level);
    var s' := Write(s, f, i, e);
    TablePlace(s, r, v, level);
    if Passes(s, q, w, level, f, i) {
      MeetAtTable(s, r, v, q, w, level);
      assert Covers(s, r, v, level, q, w);
      WrittenLeaf(s, f, i, level, e, q, w);
    } else {
      if Covers(s, r, v, level, q, w) {
        CoveredTable(s, r, v, q, w, level);
      }
      LeafUnaffected(s, s', f, i, q, w, 3);
      LeafUnaffected(s, s', f, i, q, w, 2);
      LeafUnaffected(s, s', f, i, q, w, 1);
    }
  }

  lemma WrittenLeaf(s: Tables, f: nat, i: nat, level: nat, e: Entry, q: nat, w: Indices)
    requires Tree(s) && IsRoot(s, q) && LeafLike(level, e) && f in s.place && s.place[f].level == level
    requires Passes(s, q, w, level, f, i)
    ensures Lookup(Write(s, f, i, e), q, w) == Meaning(level, e)
  {
    var s' := Write(s, f, i, e);
    TableUnaffected(s, s', f, i, q, w, level);
    assert LeafAt(s', q, w, level) == Meaning(level, e);
    if level < 3 {
      PointerNotLeaf(s', q, w, level);
    }
    if level < 2 {
      PointerNotLeaf(s', q, w, level + 1);
    }
    if level == 3 {
      assert e.large || (Table(s', q, w, 2).None? && Table(s', q, w, 1).None?);
    } else if level == 2 {
      assert Table(s', q, w, 1).None? || e.large;
    }
  }

  lemma WriteLeafKeeps(s: Tables, f: nat, i: nat, e: Entry)
    requires Inv(s) && f in s.place && LeafLike(s.place[f].level, e)
    ensures Inv(Write(s, f, i, e))
  {
    var s' := Write(s, f, i, e);
    forall g, j | g in s'.place ensures EntryOk(s', g, j) {
      assert EntryOk(s, g, j);
    }
    forall g | g in s'.place ensures PlaceOk(s', g) {
      assert PlaceOk(s, g);
    }
    assert PlaceOk(s, f);
    forall r, j | IsRoot(s', r) && 256 <= j < 512
      ensures Read(s', r, j) == Read(s', s'.kernel, j) && Pointer(Read(s', r, j), s'.top)
    {
      assert PlaceOk(s, r) && PlaceOk(s, s.kernel);
      assert IsRoot(s, r);
      assert Read(s', r, j) == Read(s, r, j) == Read(s, s.kernel, j);
    }
  }

  // ---------------------------------------------------------------------------
  // Adding a table
  // ---------------------------------------------------------------------------

  /** `descend_table` on an entry that is not present: a fresh page, entered with all rights. */
  function AddTable(s: Tables, f: nat, i: nat): Tables
    requires f in s.place && s.place[f].level >= 1 && s.pool != []
  {
    Write(s, f, i, Pointing(s.pool[0])).(
      place := s.place[s.pool[0] := Place(s.place[f].level - 1, LinkFrom(s, f, i))], pool := s.pool[1..])
  }

  lemma AddTableTree(s: Tables, f: nat, i: nat)
    requires Tree(s) && f in s.place && s.place[f].level >= 2 && s.pool != []
    ensures Tree(AddTable(s, f, i))
  {
    var s' := AddTable(s, f, i);
    var g := s.pool[0];
    assert PlaceOk(s, f);
    assert forall j :: Read(s', g, j) == ZERO;
    forall h, j | h in s'.place ensures EntryOk(s', h, j) {
      if h != g {
        assert EntryOk(s, h, j);
      }
    }
    forall h | h in s'.place ensures PlaceOk(s', h) {
      if h != g {
        assert PlaceOk(s, h);
      }
    }
  }

  lemma AddTableShared(s: Tables, f: nat, i: nat)
    requires Inv(s) && f in s.place && s.place[f].level >= 2 && s.pool != []
    requires !IsRoot(s, f) || i < 256
    ensures SharedHalf(AddTable(s, f, i))
  {
    var s' := AddTable(s, f, i);
    assert PlaceOk(s, f);
    forall r, j | IsRoot(s', r) && 256 <= j < 512
      ensures Read(s', r, j) == Read(s', s'.kernel, j) && Pointer(Read(s', r, j), s'.top)
    {
      assert IsRoot(s, r);
      assert Read(s', r, j) == Read(s, r, j) == Read(s, s.kernel, j);
    }
  }

  /** A new table changes the meaning of no address in any root. */
  lemma AddTableInvisible(s: Tables, f: nat, i: nat, q: nat, w: Indices)
    requires Tree(s) && IsRoot(s, q) && f in s.place && s.place[f].level >= 2 && s.pool != []
    requires !Read(s, f, i).present && (s.place[f].level <= 3 ==> !Read(s, f, i).large)
    ensures Lookup(AddTable(s, f, i), q, w) == Lookup(s, q, w)
  {
    var s' := AddTable(s, f, i);
    var k := s.place[f].level;
    assert PlaceOk(s, f);
    if Passes(s, q, w, k, f, i) {
      NewTableEmpty(s, f, i, q, w);
    } else {
      LeafUnaffected(s, s', f, i, q, w, 3);
      LeafUnaffected(s, s', f, i, q, w, 2);
      LeafUnaffected(s, s', f, i, q, w, 1);
    }
  }

  lemma {:induction false} NoTableBelow(s: Tables, q: nat, w: Indices, level: nat, k: nat)
    requires 1 <= level <= k <= s.top && Table(s, q, w, k).None?
    ensures Table(s, q, w, level).None?
    decreases k - level
  {
    if level < k {
      NoTableBelow(s, q, w, level + 1, k);
    }
  }

  lemma NewTableEmpty(s: Tables, f: nat, i: nat, q: nat, w: Indices)
    requires Tree(s) && IsRoot(s, q) && f in s.place && s.place[f].level >= 2 && s.pool != []
    requires !Read(s, f, i).present && (s.place[f].level <= 3 ==> !Read(s, f, i).large)
    requires Passes(s, q, w, s.place[f].level, f, i)
    ensures Lookup(AddTable(s, f, i), q, w) == Lookup(s, q, w)
  {
    var s' := AddTable(s, f, i);
    var k := s.place[f].level;
    assert PlaceOk(s, f);
    TableUnaffected(s, s', f, i, q, w, k);
    assert Table(s, q, w, k - 1).None?;
    assert Table(s', q, w, k - 1) == Some(s.pool[0]);
    assert forall j :: Read(s', s.pool[0], j) == ZERO;
    forall l: nat | 1 <= l <= 3 ensures LeafAt(s', q, w, l) == LeafAt(s, q, w, l) {
      if l > k {
        LeafUnaffected(s, s', f, i, q, w, l);
      } else if l < k {
        NoTableBelow(s, q, w, l, k - 1);
        if l < k - 1 {
          assert Table(s', q, w, k - 2).None?;
          NoTableBelow(s', q, w, l, k - 2);
        }
      }
    }
  }
}
