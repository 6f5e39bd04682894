/** `pmap_map`, `pmap_unmap`, `pmap_translate`, `pmap_new` and `pmap_init_kernel`, and the abstract map
    they implement. */
module Pmap {
  import opened Common
  import opened PageEntry
  import opened PageTables

  // ---------------------------------------------------------------------------
  // The abstract map
  // ---------------------------------------------------------------------------

  datatype Op =
    | MapOp(root: nat, v: Indices, level: nat, entry: Entry)
    | UnmapOp(root: nat, v: Indices)
    | NewOp(root: nat)

  /** The level of the entry `pmap_map` writes. */
  function TargetLevel(gib: bool, flags: Flags): nat {
    if flags.huge && gib then 3 else if flags.huge || flags.large then 2 else 1
  }

  /** The meaning of an address after an operation, given the meaning of all addresses before. */
  ghost function After(s: Tables, op: Op, q: nat, w: Indices): Translation {
    match op
    case MapOp(r, v, level, e) => if Covers(s, r, v, level, q, w) then Meaning(level, e) else Lookup(s, q, w)
    case UnmapOp(r, v) =>
      (match Lookup(s, r, v)
       case Mapped(level, _) => if Covers(s, r, v, level, q, w) then Fault else Lookup(s, q, w)
       case Fault => Lookup(s, q, w))
    case NewOp(r) =>
      if q != r then Lookup(s, q, w)
      else if Upper(s, w) then Lookup(s, s.kernel, w) else Fault
  }

  /** The roots after an operation. */
  predicate RootAfter(s: Tables, op: Op, q: nat) {
    IsRoot(s, q) || (op.NewOp? && q == op.root)
  }

  /** `op` took the tables from `s` to `s'`. */
  ghost predicate Done(s: Tables, op: Op, s': Tables) {
    && Inv(s') && s'.top == s.top && s'.gib == s.gib && s'.kernel == s.kernel
    && (forall q :: IsRoot(s', q) <==> RootAfter(s, op, q))
    && (forall q, w :: RootAfter(s, op, q) && InRange(w) ==> Lookup(s', q, w) == After(s, op, q, w))
    && (forall q, i :: IsRoot(s, q) && 256 <= i < 512 ==> Read(s', q, i) == Read(s, q, i))
  }

  /** The reference: what a sequence of operations makes of an address, computed from the operations
      alone and the meaning of addresses at the start. */
  ghost function Reference(s0: Tables, ops: seq<Op>, q: nat, w: Indices): Translation
    decreases |ops|
  {
    if ops == [] then Lookup(s0, q, w)
    else
      var prev, op := ops[..|ops| - 1], ops[|ops| - 1];
      match op
      case MapOp(r, v, level, e) =>
        if Covers(s0, r, v, level, q, w) then Meaning(level, e) else Reference(s0, prev, q, w)
      case UnmapOp(r, v) =>
        (match Reference(s0, prev, r, v)
         case Mapped(level, _) => if Covers(s0, r, v, level, q, w) then Fault else Reference(s0, prev, q, w)
         case Fault => Reference(s0, prev, q, w))
      case NewOp(r) =>
        if q != r then Reference(s0, prev, q, w)
        else if Upper(s0, w) then Reference(s0, prev, s0.kernel, w) else Fault
  }

  /** The states between the operations of a run; operations only use roots that exist. */
  ghost predicate IsHistory(states: seq<Tables>, ops: seq<Op>) {
    && |states| == |ops| + 1 && Inv(states[0])
    && (forall k :: 0 <= k < |ops| ==>
          && Done(states[k], ops[k], states[k + 1])
          && (ops[k].NewOp? || (IsRoot(states[k], ops[k].root) && InRange(ops[k].v))))
  }

  lemma PrefixHistory(states: seq<Tables>, ops: seq<Op>)
    requires IsHistory(states, ops) && ops != []
    ensures IsHistory(states[..|ops|], ops[..|ops| - 1])
  {
    var n := |ops| - 1;
    assert forall k :: 0 <= k < n ==> ops[..n][k] == ops[k] && states[..n + 1][k + 1] == states[k + 1];
  }

  /** One operation, seen by the tables and by the reference. */
  lemma ReferenceStep(s0: Tables, s: Tables, s': Tables, ops: seq<Op>, q: nat, w: Indices)
    requires ops != [] && Done(s, ops[|ops| - 1], s') && IsRoot(s', q) && InRange(w)
    requires s.top == s0.top && s.kernel == s0.kernel
    requires var prev, op := ops[..|ops| - 1], ops[|ops| - 1];
             && (IsRoot(s, q) && !(op.NewOp? && q == op.root) ==> Lookup(s, q, w) == Reference(s0, prev, q, w))
             && Lookup(s, s.kernel, w) == Reference(s0, prev, s.kernel, w)
             && (op.UnmapOp? ==> Lookup(s, op.root, op.v) == Reference(s0, prev, op.root, op.v))
    ensures Lookup(s', q, w) == Reference(s0, ops, q, w)
  {
    var op := ops[|ops| - 1];
    assert RootAfter(s, op, q);
    assert Lookup(s', q, w) == After(s, op, q, w);
  }

  /** Any sequence of operations refines the abstract map: in its final state every address of every
      root means what the reference says. */
  lemma {:induction false} HistoryRefines(states: seq<Tables>, ops: seq<Op>, q: nat, w: Indices)
    requires IsHistory(states, ops) && IsRoot(states[|ops|], q) && InRange(w)
    ensures Lookup(states[|ops|], q, w) == Reference(states[0], ops, q, w)
    decreases |ops|
  {
    if ops != [] {
      var n := |ops| - 1;
      var op := ops[n];
      PrefixHistory(states, ops);
      HistoryStart(states, ops, n);
      assert Done(states[n], op, states[n + 1]) && (op.NewOp? || (IsRoot(states[n], op.root) && InRange(op.v)));
      if IsRoot(states[n], q) {
        HistoryRefines(states[..n + 1], ops[..n], q, w);
      }
      if op.UnmapOp? {
        HistoryRefines(states[..n + 1], ops[..n], op.root, op.v);
      }
      HistoryRefines(states[..n + 1], ops[..n], states[n].kernel, w);
      ReferenceStep(states[0], states[n], states[n + 1], ops, q, w);
    }
  }

  lemma {:induction false} HistoryStart(states: seq<Tables>, ops: seq<Op>, n: nat)
    requires IsHistory(states, ops) && n <= |ops|
    ensures states[n].top == states[0].top && states[n].kernel == states[0].kernel && Inv(states[n])
    decreases n
  {
    if n > 0 {
      HistoryStart(states, ops, n - 1);
      assert Done(states[n - 1], ops[n - 1], states[n]);
    }
  }

  // ---------------------------------------------------------------------------
  // The shared kernel half and the rights along a walk
  // ---------------------------------------------------------------------------

  lemma CoveredLookup(s: Tables, r: nat, v: Indices, q: nat, w: Indices, level: nat)
    requires Inv(s) && IsRoot(s, r) && IsRoot(s, q) && InRange(v) && 1 <= level <= 3
    requires Covers(s, r, v, level, q, w)
    ensures LeafAt(s, q, w, 3) == LeafAt(s, r, v, 3)
    ensures level <= 2 ==> LeafAt(s, q, w, 2) == LeafAt(s, r, v, 2)
    ensures level == 1 ==> LeafAt(s, q, w, 1) == LeafAt(s, r, v, 1)
  {
    CoveredTable(s, r, v, q, w, 3);
    if level <= 2 {
      CoveredTable(s, r, v, q, w, 2);
    }
    if level == 1 {
      CoveredTable(s, r, v, q, w, 1);
    }
  }

  /** Every root translates every upper-half address alike. */
  lemma KernelHalfShared(s: Tables, r: nat, q: nat, w: Indices)
    requires Inv(s) && IsRoot(s, r) && IsRoot(s, q) && InRange(w) && Upper(s, w)
    ensures Lookup(s, q, w) == Lookup(s, r, w)
  {
    CoveredLookup(s, r, w, q, w, 1);
  }

  /** ... and keeps the entries that lead there, in every history. */
  lemma {:induction false} KernelHalfFixed(states: seq<Tables>, ops: seq<Op>, q: nat, i: nat)
    requires IsHistory(states, ops) && IsRoot(states[0], q) && 256 <= i < 512
    ensures IsRoot(states[|ops|], q) && Read(states[|ops|], q, i) == Read(states[0], q, i)
    decreases |ops|
  {
    if ops != [] {
      var n := |ops| - 1;
      PrefixHistory(states, ops);
      KernelHalfFixed(states[..n + 1], ops[..n], q, i);
      assert Done(states[n], ops[n], states[n + 1]);
    }
  }

  function Both(p: Prot, q: Prot): Prot {
    Prot(p.present && q.present, p.write && q.write, p.execute && q.execute, p.user && q.user)
  }

  /** The rights the processor grants: what all entries from the top down to `level` agree on. */
  function Rights(s: Tables, r: nat, v: Indices, level: nat): Prot
    decreases s.top - level
  {
    var here := match Table(s, r, v, level)
                case None => Prot(false, false, false, false)
                case Some(f) => ProtOf(Read(s, f, At(v, level)));
    if level >= s.top then here else Both(Rights(s, r, v, level + 1), here)
  }

  lemma {:induction false} TablesGrantAll(s: Tables, r: nat, v: Indices, level: nat)
    requires Inv(s) && IsRoot(s, r) && 1 <= level < s.top && Table(s, r, v, level).Some?
    ensures Rights(s, r, v, level + 1) == PROT_ALL
    decreases s.top - level
  {
    TablePlace(s, r, v, level + 1);
    assert EntryOk(s, Table(s, r, v, level + 1).value, At(v, level + 1));
    if level + 1 < s.top {
      TablesGrantAll(s, r, v, level + 1);
    }
  }

  /** The rights along the walk to a page are those of its leaf. */
  lemma RightsOfLeaf(s: Tables, r: nat, v: Indices)
    requires Inv(s) && IsRoot(s, r) && Lookup(s, r, v).Mapped?
    ensures var m := Lookup(s, r, v); 1 <= m.level <= 3 && Rights(s, r, v, m.level) == ProtOf(m.entry)
  {
    var m := Lookup(s, r, v);
    assert LeafAt(s, r, v, m.level) == m;
    TablesGrantAll(s, r, v, m.level);
  }

  /** Mapping a page and looking it up gives back the frame and the rights. */
  lemma MapThenLookup(s: Tables, s': Tables, r: nat, v: Indices, paddr: Word, prot: Prot, flags: Flags)
    requires IsRoot(s, r) && InRange(v) && Addr(paddr) == paddr && prot.present
    requires Done(s, MapOp(r, v, TargetLevel(s.gib, flags), Decode(LeafEntry(paddr, prot, flags))), s')
    ensures var m := Lookup(s', r, v);
            && m.Mapped? && m.entry.addr == paddr as nat && ProtOf(m.entry) == prot
            && 1 <= m.level <= 3 && (m.level == 3 <==> flags.huge && s.gib) && (m.level >= 2 <==> flags.huge || flags.large)
            && (m.entry.large <==> m.level >= 2)
            && Rights(s', r, v, m.level) == prot
  {
    var op := MapOp(r, v, TargetLevel(s.gib, flags), Decode(LeafEntry(paddr, prot, flags)));
    DecodeLeaf(paddr, prot, flags);
    assert RootAfter(s, op, r);
    assert Lookup(s', r, v) == After(s, op, r, v);
    RightsOfLeaf(s', r, v);
  }
}
