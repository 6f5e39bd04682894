/** `struct pmm_module` and the loops of `pmm_module_alloc` and `pmm_module_free`. */
module PageAllocator {
  import opened Common
  import opened Physical

  class PmmModule {
    const base: nat
    const bitmap: array<bool>
    var lastFree: nat

    ghost predicate Valid()
      reads this
    {
      base % PAGE_SIZE == 0
    }

    ghost function State(): Memory
      reads this, bitmap
    {
      Memory(base / PAGE_SIZE, bitmap[..], lastFree)
    }

    /** `pmm_init_module`. */
    constructor (base: nat, pages: nat)
      requires base % PAGE_SIZE == 0
      ensures Valid() && this.base == base && fresh(bitmap)
      ensures State() == Memory(base / PAGE_SIZE, seq(pages, _ => false), 0)
    {
      this.base := base;
      bitmap := new bool[pages](_ => false);
      lastFree := 0;
      new;
      assert bitmap[..] == seq(pages, _ => false);
    }

    /** `BIT_SET` or `BIT_CLEAR` over a range of pages. */
    method Mark(i: nat, cnt: nat, v: bool)
      requires i + cnt <= bitmap.Length
      modifies bitmap
      ensures bitmap[..] == SetRange(old(bitmap[..]), i, cnt, v)
    {
      for z := 0 to cnt
        invariant bitmap[..] == SetRange(old(bitmap[..]), i, z, v)
      {
        bitmap[i + z] := v;
      }
    }

    /** The hint after an allocation that ended at page `j`. */
    method FindHint(j: nat)
      modifies this`lastFree
      ensures lastFree == NextFree(bitmap[..], j)
    {
      lastFree := 0;
      var z := j;
      while z < bitmap.Length
        invariant lastFree == 0 && NextFree(bitmap[..], j) == NextFree(bitmap[..], z)
      {
        if !bitmap[z] {
          lastFree := z;
          return;
        }
        z := z + 1;
      }
    }

    /** The inner loop: whether `cnt` pages from `i` on are free. */
    method Probe(i: nat, cnt: nat) returns (free: bool)
      requires i + cnt <= bitmap.Length
      ensures free <==> cnt > 0 && Free(bitmap[..], i, cnt)
    {
      var j, count := i, 0;
      while j < i + cnt
        invariant j == i + count && count <= cnt && (cnt > 0 ==> count < cnt) && Free(bitmap[..], i, count)
      {
        if bitmap[j] { return false; }
        count := count + 1;
        if count == cnt { return true; }
        j := j + 1;
      }
      return false;
    }

    method Claim(i: nat, cnt: nat)
      requires cnt > 0 && i + cnt <= bitmap.Length
      modifies this`lastFree, bitmap
      ensures var bits := SetRange(old(bitmap[..]), i, cnt, true);
              bitmap[..] == bits && lastFree == NextFree(bits, i + cnt - 1)
    {
      Mark(i, cnt, true);
      FindHint(i + cnt - 1);
    }

    /** The outer loop: an address counter runs along with the page index and stays in step with it. */
    method Hunt(start: nat, address: nat, cnt: nat, align: nat) returns (r: Option<nat>, allocBase: nat)
      requires align > 0 && address == base + start * PAGE_SIZE
      ensures r == Search(bitmap[..], start, cnt, align)
      ensures r.Some? ==> allocBase == base + r.value * PAGE_SIZE
    {
      allocBase := address;
      var i := start;
      while i < bitmap.Length
        invariant allocBase == base + i * PAGE_SIZE || cnt == 0
        invariant Search(bitmap[..], start, cnt, align) == Search(bitmap[..], i, cnt, align)
        decreases bitmap.Length - i
      {
        if bitmap.Length < i + cnt { return None, allocBase; }
        var free := Probe(i, cnt);
        if free { return Some(i), allocBase; }
        if cnt > 0 {
          allocBase := allocBase + align * PAGE_SIZE;
        }
        i := i + align;
      }
      r := None;
    }

    /** `pmm_module_alloc`: the address returned is that of the page found, aligned in bytes as asked. */
    method Allocate(cnt: nat, align: nat) returns (address: Option<nat>)
      requires Valid() && align > 0
      modifies this`lastFree, bitmap
      ensures Valid() && State() == Alloc(old(State()), cnt, align).1
      ensures var r := Alloc(old(State()), cnt, align).0;
              address == if r.None? then None else Some(base + r.value * PAGE_SIZE)
      ensures address.Some? ==> OnBoundary(address.value, align)
      ensures address.Some? ==> HintAfter(bitmap[..], (address.value - base) / PAGE_SIZE, cnt, lastFree)
      ensures address.None? ==> lastFree == old(lastFree) && bitmap[..] == old(bitmap[..])
    {
      ghost var m := State();
      FirstFit(m, cnt, align);
      StartAddress(m, base, align);
      var allocBase := AlignUp(base + lastFree * PAGE_SIZE, align * PAGE_SIZE);
      var r, found := Hunt((allocBase - base) / PAGE_SIZE, allocBase, cnt, align);
      if r.None? { return None; }
      Claim(r.value, cnt);
      Served(m, base, cnt, align, found);
      address := Some(found);
    }

    /** `pmm_module_free`, from an offset into the module. */
    method Discard(offset: nat, cnt: nat)
      requires Valid() && (offset + PAGE_SIZE - 1) / PAGE_SIZE + cnt <= bitmap.Length
      modifies bitmap
      ensures Valid() && State() == Release(old(State()), (offset + PAGE_SIZE - 1) / PAGE_SIZE, cnt)
    {
      Mark((offset + PAGE_SIZE - 1) / PAGE_SIZE, cnt, false);
    }
  }

  predicate OnBoundary(address: nat, align: nat)
    requires align > 0
  {
    address % (align * PAGE_SIZE) == 0
  }

  /** What an allocation returns and leaves behind. */
  lemma Served(m: Memory, base: nat, cnt: nat, align: nat, address: nat)
    requires align > 0 && base % PAGE_SIZE == 0 && m.first == base / PAGE_SIZE
    requires var r := Alloc(m, cnt, align).0; r.Some? && address == base + r.value * PAGE_SIZE
    ensures OnBoundary(address, align)
    ensures var m' := Alloc(m, cnt, align).1; HintAfter(m'.bits, (address - base) / PAGE_SIZE, cnt, m'.lastFree)
  {
    var i := Alloc(m, cnt, align).0.value;
    FirstFit(m, cnt, align);
    AllocHint(m, cnt, align);
    PageOf(base, i, address);
    AddressAligned(m.first, i, align, base);
  }

  lemma PageOf(base: nat, i: nat, address: nat)
    requires address == base + i * PAGE_SIZE
    ensures (address - base) / PAGE_SIZE == i
  {
  }

  /** Aligning a byte address to whole pages aligns the page number. */
  lemma AlignInPages(x: nat, a: nat)
    requires a > 0
    ensures a * PAGE_SIZE > 0 && AlignUp(x * PAGE_SIZE, a * PAGE_SIZE) == AlignUp(x, a) * PAGE_SIZE
  {
    AlignUpBounds(x, a);
    AlignUpBounds(x * PAGE_SIZE, a * PAGE_SIZE);
    var up, big := AlignUp(x, a), AlignUp(x * PAGE_SIZE, a * PAGE_SIZE);
    var q := up / a;
    assert up == a * q;
    assert up * PAGE_SIZE == q * (a * PAGE_SIZE);
    ModOfMultiple(q, a * PAGE_SIZE);
    assert (x + a) * PAGE_SIZE == x * PAGE_SIZE + a * PAGE_SIZE;
    if big < up * PAGE_SIZE {
      NoneBetween(big, up * PAGE_SIZE, a * PAGE_SIZE);
    } else if big > up * PAGE_SIZE {
      NoneBetween(up * PAGE_SIZE, big, a * PAGE_SIZE);
    }
  }

  /** The address counter and the page index start out in step. */
  lemma StartAddress(m: Memory, base: nat, align: nat)
    requires align > 0 && base % PAGE_SIZE == 0 && m.first == base / PAGE_SIZE
    ensures align * PAGE_SIZE > 0 && Start(m, align) >= 0
    ensures var address := AlignUp(base + m.lastFree * PAGE_SIZE, align * PAGE_SIZE);
            address == base + Start(m, align) * PAGE_SIZE && (address - base) / PAGE_SIZE == Start(m, align)
  {
    AlignInPages(m.first + m.lastFree, align);
    AlignUpBounds(m.first + m.lastFree, align);
  }

  lemma AddressAligned(first: nat, i: nat, align: nat, base: nat)
    requires align > 0 && base == first * PAGE_SIZE && Aligned(first, i, align)
    ensures OnBoundary(base + i * PAGE_SIZE, align)
  {
    var q := (first + i) / align;
    assert first + i == align * q;
    assert base + i * PAGE_SIZE == q * (align * PAGE_SIZE);
    ModOfMultiple(q, align * PAGE_SIZE);
  }
}
