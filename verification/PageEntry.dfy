/** Page-table entries and virtual addresses of `kernel/arch/amd64/paging.c`, bit by bit. */
module PageEntry {

  type Word = bv64

  const ADDR_MASK: Word := 0x000f_ffff_ffff_f000
  const FLAG_P: Word := 1
  const FLAG_RW: Word := 2
  const FLAG_US: Word := 4
  const FLAG_PS: Word := 0x80
  const FLAG_G: Word := 0x100
  const FLAG_NX: Word := 0x8000_0000_0000_0000

  /** `enum vm_prot` and `enum vm_flags`, one field per bit. */
  datatype Prot = Prot(present: bool, write: bool, execute: bool, user: bool)
  datatype Flags = Flags(large: bool, huge: bool, isGlobal: bool)

  const PROT_ALL := Prot(true, true, true, true)

  // ---------------------------------------------------------------------------
  // Entries
  // ---------------------------------------------------------------------------

  function Addr(e: Word): Word { e & ADDR_MASK }
  function FlagsOf(e: Word): Word { e & !ADDR_MASK }
  predicate Present(e: Word) { e & FLAG_P != 0 }
  predicate Writable(e: Word) { e & FLAG_RW != 0 }
  predicate UserOk(e: Word) { e & FLAG_US != 0 }
  predicate Large(e: Word) { e & FLAG_PS != 0 }
  predicate Global(e: Word) { e & FLAG_G != 0 }
  predicate NoExecute(e: Word) { e & FLAG_NX != 0 }

  function Bit(b: bool, w: Word): Word { if b then w else 0 }

  /** `vm_prot_to_x86`. */
  function ToX86(prot: Prot, flags: Flags): Word {
    Bit(prot.present, FLAG_P) | Bit(prot.write, FLAG_RW) | Bit(!prot.execute, FLAG_NX) |
    Bit(prot.user, FLAG_US) | Bit(flags.isGlobal, FLAG_G) | Bit(flags.large || flags.huge, FLAG_PS)
  }

  /** `x86_to_vm_prot`. */
  function FromX86(w: Word): Prot {
    Prot(Present(w), Writable(w), !NoExecute(w), UserOk(w))
  }

  /** The entry `pmap_map` writes for a page, and the one `descend_table` writes for a table. */
  function LeafEntry(paddr: Word, prot: Prot, flags: Flags): Word { paddr | ToX86(prot, flags) }
  function TableEntry(frame: Word): Word { frame | ToX86(PROT_ALL, Flags(false, false, false)) }

  lemma FlagsOutsideAddress(prot: Prot, flags: Flags)
    ensures ToX86(prot, flags) & ADDR_MASK == 0
  {
  }

  lemma OrMask(a: Word, b: Word, m: Word)
    ensures (a | b) & m == (a & m) | (b & m)
  {
  }

  lemma AlignedHasNoFlags(a: Word)
    requires Addr(a) == a
    ensures a & FLAG_P == 0 && a & FLAG_RW == 0 && a & FLAG_US == 0 && a & FLAG_PS == 0 && a & FLAG_NX == 0
  {
  }

  lemma FlagsOfKeepsFlags(e: Word)
    ensures FlagsOf(e) & FLAG_P == e & FLAG_P && FlagsOf(e) & FLAG_RW == e & FLAG_RW
    ensures FlagsOf(e) & FLAG_US == e & FLAG_US && FlagsOf(e) & FLAG_NX == e & FLAG_NX
  {
  }

  lemma ToX86Bits(prot: Prot, flags: Flags)
    ensures FromX86(ToX86(prot, flags)) == prot
    ensures Large(ToX86(prot, flags)) <==> flags.large || flags.huge
  {
  }

  /** The address of a frame and, if it is page-aligned, its protection survive the round trip
      through an entry. */
  lemma EntryRoundTrip(paddr: Word, prot: Prot, flags: Flags)
    ensures Addr(LeafEntry(paddr, prot, flags)) == Addr(paddr)
    ensures Addr(paddr) == paddr ==> FromX86(FlagsOf(LeafEntry(paddr, prot, flags))) == prot
    ensures flags.large || flags.huge ==> Large(LeafEntry(paddr, prot, flags))
  {
    var w := ToX86(prot, flags);
    FlagsOutsideAddress(prot, flags);
    OrMask(paddr, w, ADDR_MASK);
    ToX86Bits(prot, flags);
    LeafBits(paddr, w);
  }

  lemma LeafBits(paddr: Word, w: Word)
    ensures Addr(paddr) == paddr ==> FromX86(FlagsOf(paddr | w)) == FromX86(w)
    ensures Large(w) ==> Large(paddr | w)
  {
    FlagsOfKeepsFlags(paddr | w);
    OrMask(paddr, w, FLAG_P);
    OrMask(paddr, w, FLAG_RW);
    OrMask(paddr, w, FLAG_US);
    OrMask(paddr, w, FLAG_NX);
    OrMask(paddr, w, FLAG_PS);
    if Addr(paddr) == paddr {
      AlignedHasNoFlags(paddr);
    }
  }

  lemma LargeOr(a: Word, w: Word)
    ensures Addr(a) == a ==> (Large(a | w) <==> Large(w))
  {
    OrMask(a, w, FLAG_PS);
  }

  lemma GlobalOr(a: Word, w: Word)
    ensures Addr(a) == a ==> (Global(a | w) <==> Global(w))
  {
    OrMask(a, w, FLAG_G);
  }

  lemma GlobalBit(prot: Prot, flags: Flags)
    ensures Global(ToX86(prot, flags)) <==> flags.isGlobal
  {
  }

  /** PS is set exactly for a page of more than 4 KiB. */
  lemma EntryLarge(paddr: Word, prot: Prot, flags: Flags)
    requires Addr(paddr) == paddr
    ensures Large(LeafEntry(paddr, prot, flags)) <==> flags.large || flags.huge
  {
    LargeOr(paddr, ToX86(prot, flags));
    ToX86Bits(prot, flags);
  }

  /** G is set exactly for a global page. */
  lemma EntryGlobal(paddr: Word, prot: Prot, flags: Flags)
    requires Addr(paddr) == paddr
    ensures Global(LeafEntry(paddr, prot, flags)) <==> flags.isGlobal
  {
    GlobalOr(paddr, ToX86(prot, flags));
    GlobalBit(prot, flags);
  }

  lemma TableEntryBits(frame: Word)
    requires Addr(frame) == frame
    ensures Addr(TableEntry(frame)) == frame && Present(TableEntry(frame)) && !Large(TableEntry(frame))
    ensures Writable(TableEntry(frame)) && UserOk(TableEntry(frame)) && !NoExecute(TableEntry(frame))
  {
  }

  /** The fields of an entry that the code looks at. */
  datatype Entry = Entry(addr: nat, present: bool, writable: bool, user: bool, large: bool, noExecute: bool)

  function Decode(w: Word): Entry {
    Entry(Addr(w) as nat, Present(w), Writable(w), UserOk(w), Large(w), NoExecute(w))
  }

  /** `x86_to_vm_prot` of the flags of an entry. */
  function ProtOf(e: Entry): Prot {
    Prot(e.present, e.writable, !e.noExecute, e.user)
  }

  lemma ProtOfDecode(w: Word)
    ensures FromX86(FlagsOf(w)) == ProtOf(Decode(w))
  {
    FlagsOfKeepsFlags(w);
  }

  /** The entry written for a page has the page's address and, if that is page-aligned, exactly the
      requested rights. */
  lemma DecodeLeaf(paddr: Word, prot: Prot, flags: Flags)
    ensures var e := Decode(LeafEntry(paddr, prot, flags));
            && e.addr == Addr(paddr) as nat
            && (Addr(paddr) == paddr ==> ProtOf(e) == prot)
            && (flags.large || flags.huge ==> e.large)
            && (Addr(paddr) == paddr ==> (e.large <==> flags.large || flags.huge))
            && (prot.present ==> e.present)
  {
    EntryRoundTrip(paddr, prot, flags);
    if Addr(paddr) == paddr {
      EntryLarge(paddr, prot, flags);
    }
    ProtOfDecode(LeafEntry(paddr, prot, flags));
    OrMask(paddr, ToX86(prot, flags), FLAG_P);
    ToX86Bits(prot, flags);
  }

  lemma DecodeTable(frame: Word)
    requires Addr(frame) == frame
    ensures Decode(TableEntry(frame)) == Entry(frame as nat, true, true, true, false, false)
  {
    TableEntryBits(frame);
  }

  lemma DecodeZero()
    ensures Decode(0) == Entry(0, false, false, false, false, false)
  {
  }

  // ---------------------------------------------------------------------------
  // Addresses
  // ---------------------------------------------------------------------------

  /** Nine bits of an address, `(vaddr >> shift) & 0x1ff`. */
  function Field(v: Word, shift: nat): (i: nat)
    requires shift < 64
    ensures i < 512
  {
    var w := (v >> shift) & 0x1ff;
    assert w < 512;
    w as nat
  }

  /** `struct pml_indices`. */
  datatype Indices = Indices(pml5: nat, pml4: nat, pml3: nat, pml2: nat, pml1: nat)

  /** `compute_table_indices`. */
  function ComputeIndices(v: Word): (ix: Indices)
    ensures InRange(ix)
  {
    Indices(Field(v, 48), Field(v, 39), Field(v, 30), Field(v, 21), Field(v, 12))
  }

  function At(ix: Indices, level: nat): nat {
    match level
    case 1 => ix.pml1
    case 2 => ix.pml2
    case 3 => ix.pml3
    case 4 => ix.pml4
    case _ => ix.pml5
  }

  predicate InRange(ix: Indices) {
    ix.pml5 < 512 && ix.pml4 < 512 && ix.pml3 < 512 && ix.pml2 < 512 && ix.pml1 < 512
  }

  /** The two addresses use the same entries from the top down to `level`. */
  predicate SamePrefix(ix: Indices, jx: Indices, level: nat, top: nat) {
    forall k :: level <= k <= top ==> At(ix, k) == At(jx, k)
  }

  lemma SameWord(a: Word, b: Word)
    requires a < 512 && b < 512
    ensures a as nat == b as nat <==> a == b
  {
    assert (a as nat) as Word == a && (b as nat) as Word == b;
  }

  lemma SameIndex1(v: Word, w: Word)
    ensures Field(v, 12) == Field(w, 12) <==> (v ^ w) & 0x0000_0000_001f_f000 == 0
  {
    SameWord((v >> 12) & 0x1ff, (w >> 12) & 0x1ff);
  }

  lemma SameIndex2(v: Word, w: Word)
    ensures Field(v, 21) == Field(w, 21) <==> (v ^ w) & 0x0000_0000_3fe0_0000 == 0
  {
    SameWord((v >> 21) & 0x1ff, (w >> 21) & 0x1ff);
  }

  lemma SameIndex3(v: Word, w: Word)
    ensures Field(v, 30) == Field(w, 30) <==> (v ^ w) & 0x0000_007f_c000_0000 == 0
  {
    SameWord((v >> 30) & 0x1ff, (w >> 30) & 0x1ff);
  }

  lemma SameIndex4(v: Word, w: Word)
    ensures Field(v, 39) == Field(w, 39) <==> (v ^ w) & 0x0000_ff80_0000_0000 == 0
  {
    SameWord((v >> 39) & 0x1ff, (w >> 39) & 0x1ff);
  }

  lemma SameIndex5(v: Word, w: Word)
    ensures Field(v, 48) == Field(w, 48) <==> (v ^ w) & 0x01ff_0000_0000_0000 == 0
  {
    SameWord((v >> 48) & 0x1ff, (w >> 48) & 0x1ff);
  }

  lemma JoinMasks(x: Word)
    ensures x & 0x0000_ffff_c000_0000 == 0 <==> x & 0x0000_007f_c000_0000 == 0 && x & 0x0000_ff80_0000_0000 == 0
    ensures x & 0x0000_ffff_ffe0_0000 == 0 <==> x & 0x0000_0000_3fe0_0000 == 0 && x & 0x0000_ffff_c000_0000 == 0
    ensures x & 0x0000_ffff_ffff_f000 == 0 <==> x & 0x0000_0000_001f_f000 == 0 && x & 0x0000_ffff_ffe0_0000 == 0
  {
  }

  /** Two addresses share their 1 GiB, 2 MiB or 4 KiB page of the four-level address space exactly if
      they differ in no bit above the offset in that page. */
  lemma SameGib(v: Word, w: Word)
    ensures (v ^ w) & 0x0000_ffff_c000_0000 == 0 <==> Field(v, 39) == Field(w, 39) && Field(v, 30) == Field(w, 30)
  {
    SameIndex3(v, w);
    SameIndex4(v, w);
    JoinMasks(v ^ w);
  }

  lemma SameTwoMib(v: Word, w: Word)
    ensures (v ^ w) & 0x0000_ffff_ffe0_0000 == 0 <==>
            Field(v, 39) == Field(w, 39) && Field(v, 30) == Field(w, 30) && Field(v, 21) == Field(w, 21)
  {
    SameIndex2(v, w);
    SameGib(v, w);
    JoinMasks(v ^ w);
  }

  lemma SameFourKib(v: Word, w: Word)
    ensures (v ^ w) & 0x0000_ffff_ffff_f000 == 0 <==>
            Field(v, 39) == Field(w, 39) && Field(v, 30) == Field(w, 30) && Field(v, 21) == Field(w, 21) &&
            Field(v, 12) == Field(w, 12)
  {
    SameIndex1(v, w);
    SameTwoMib(v, w);
    JoinMasks(v ^ w);
  }

  lemma PrefixFields(v: Word, w: Word, level: nat)
    requires 1 <= level <= 3
    ensures SamePrefix(ComputeIndices(v), ComputeIndices(w), level, 4) <==>
            && Field(v, 39) == Field(w, 39) && Field(v, 30) == Field(w, 30)
            && (level <= 2 ==> Field(v, 21) == Field(w, 21))
            && (level == 1 ==> Field(v, 12) == Field(w, 12))
    ensures SamePrefix(ComputeIndices(v), ComputeIndices(w), level, 5) <==>
            Field(v, 48) == Field(w, 48) && SamePrefix(ComputeIndices(v), ComputeIndices(w), level, 4)
  {
    var a, b := ComputeIndices(v), ComputeIndices(w);
    assert At(a, 1) == At(b, 1) <==> Field(v, 12) == Field(w, 12);
    assert At(a, 2) == At(b, 2) <==> Field(v, 21) == Field(w, 21);
    assert At(a, 3) == At(b, 3) <==> Field(v, 30) == Field(w, 30);
    assert At(a, 4) == At(b, 4) <==> Field(v, 39) == Field(w, 39);
    assert At(a, 5) == At(b, 5) <==> Field(v, 48) == Field(w, 48);
  }

  /** The addresses differ in no bit of the mask. */
  predicate Agree(v: Word, w: Word, mask: Word) {
    (v ^ w) & mask == 0
  }

  /** The addresses lie in the same 1 GiB, 2 MiB or 4 KiB page: they agree in the bits above the offset, up
      to bit 47 with four levels of tables and up to bit 56 with five. */
  predicate SameGibPage(v: Word, w: Word, top: nat) {
    if top == 5 then Agree(v, w, 0x01ff_ffff_c000_0000) else Agree(v, w, 0x0000_ffff_c000_0000)
  }

  predicate SameMibPage(v: Word, w: Word, top: nat) {
    if top == 5 then Agree(v, w, 0x01ff_ffff_ffe0_0000) else Agree(v, w, 0x0000_ffff_ffe0_0000)
  }

  predicate SameKibPage(v: Word, w: Word, top: nat) {
    if top == 5 then Agree(v, w, 0x01ff_ffff_ffff_f000) else Agree(v, w, 0x0000_ffff_ffff_f000)
  }

  lemma AgreeTop(v: Word, w: Word)
    ensures Agree(v, w, 0x01ff_0000_0000_0000) <==> Field(v, 48) == Field(w, 48)
  {
    SameIndex5(v, w);
  }

  lemma SplitGib(v: Word, w: Word)
    ensures Agree(v, w, 0x01ff_ffff_c000_0000) <==> Agree(v, w, 0x01ff_0000_0000_0000) && Agree(v, w, 0x0000_ffff_c000_0000)
  {
  }

  lemma FourGib(v: Word, w: Word)
    ensures Agree(v, w, 0x0000_ffff_c000_0000) <==> SamePrefix(ComputeIndices(v), ComputeIndices(w), 3, 4)
  {
    SameGib(v, w);
    PrefixFields(v, w, 3);
  }

  lemma PrefixGib(v: Word, w: Word, top: nat)
    requires top == 4 || top == 5
    ensures SamePrefix(ComputeIndices(v), ComputeIndices(w), 3, top) <==> SameGibPage(v, w, top)
  {
    FourGib(v, w);
    PrefixFields(v, w, 3);
    AgreeTop(v, w);
    SplitGib(v, w);
  }

  lemma SplitMib(v: Word, w: Word)
    ensures Agree(v, w, 0x01ff_ffff_ffe0_0000) <==> Agree(v, w, 0x01ff_0000_0000_0000) && Agree(v, w, 0x0000_ffff_ffe0_0000)
  {
  }

  lemma FourMib(v: Word, w: Word)
    ensures Agree(v, w, 0x0000_ffff_ffe0_0000) <==> SamePrefix(ComputeIndices(v), ComputeIndices(w), 2, 4)
  {
    SameTwoMib(v, w);
    PrefixFields(v, w, 2);
  }

  lemma PrefixMib(v: Word, w: Word, top: nat)
    requires top == 4 || top == 5
    ensures SamePrefix(ComputeIndices(v), ComputeIndices(w), 2, top) <==> SameMibPage(v, w, top)
  {
    FourMib(v, w);
    PrefixFields(v, w, 2);
    AgreeTop(v, w);
    SplitMib(v, w);
  }

  lemma SplitKib(v: Word, w: Word)
    ensures Agree(v, w, 0x01ff_ffff_ffff_f000) <==> Agree(v, w, 0x01ff_0000_0000_0000) && Agree(v, w, 0x0000_ffff_ffff_f000)
  {
  }

  lemma FourKib(v: Word, w: Word)
    ensures Agree(v, w, 0x0000_ffff_ffff_f000) <==> SamePrefix(ComputeIndices(v), ComputeIndices(w), 1, 4)
  {
    SameFourKib(v, w);
    PrefixFields(v, w, 1);
  }

  lemma PrefixKib(v: Word, w: Word, top: nat)
    requires top == 4 || top == 5
    ensures SamePrefix(ComputeIndices(v), ComputeIndices(w), 1, top) <==> SameKibPage(v, w, top)
  {
    FourKib(v, w);
    PrefixFields(v, w, 1);
    AgreeTop(v, w);
    SplitKib(v, w);
  }

  predicate SamePageOf(v: Word, w: Word, level: nat, top: nat) {
    if level == 1 then SameKibPage(v, w, top) else if level == 2 then SameMibPage(v, w, top) else SameGibPage(v, w, top)
  }

  /** The addresses that share an entry of level 1, 2 or 3 are those of one 4 KiB, 2 MiB or 1 GiB
      page, with four levels and with five. */
  lemma SamePage(v: Word, w: Word, level: nat, top: nat)
    requires 1 <= level <= 3 && (top == 4 || top == 5)
    ensures SamePrefix(ComputeIndices(v), ComputeIndices(w), level, top) <==> SamePageOf(v, w, level, top)
  {
    if level == 1 {
      PrefixKib(v, w, top);
    } else if level == 2 {
      PrefixMib(v, w, top);
    } else {
      PrefixGib(v, w, top);
    }
  }

  /** The highest bit the tables look at is set. */
  predicate InUpperHalf(v: Word, top: nat) {
    if top == 5 then v & 0x0100_0000_0000_0000 != 0 else v & 0x0000_8000_0000_0000 != 0
  }

  lemma UpperField(x: Word)
    requires x < 512
    ensures x as nat >= 256 <==> x & 0x100 != 0
  {
    assert x & 0x100 != 0 <==> x >= 256;
  }

  /** An address belongs to the upper half of the root exactly if that bit is set. */
  lemma UpperHalf(v: Word, top: nat)
    requires top == 4 || top == 5
    ensures At(ComputeIndices(v), top) >= 256 <==> InUpperHalf(v, top)
  {
    UpperField((v >> 39) & 0x1ff);
    UpperField((v >> 48) & 0x1ff);
    HalfBits(v);
  }

  lemma HalfBits(v: Word)
    ensures ((v >> 39) & 0x1ff) & 0x100 != 0 <==> v & 0x0000_8000_0000_0000 != 0
    ensures ((v >> 48) & 0x1ff) & 0x100 != 0 <==> v & 0x0100_0000_0000_0000 != 0
  {
  }
}
