/** The address arithmetic of the small-memory allocator: how a group cuts its buffer into
    slots, where in a slot a block is placed, and which size class serves a request. */
module SlotLayout {

  /** min_alignment_size_ and buffer_zone_bytes_ */
  const UNIT: nat := 8
  const BUFFER_ZONE: nat := 1
  /** sizeof( memory_slot_group ) and sizeof( slot_link_info ) */
  const GROUP_HEADER: nat := 72
  const SLOT_HEADER: nat := 24
  /** offsets of link_to_memory_slot_group_ and data_ in slot_link_info */
  const LINK_OFFSET: nat := 8
  const DATA_OFFSET: nat := 16

  function Max(a: nat, b: nat): nat { if a < b then b else a }

  /** The least multiple of a at or above x. */
  function RoundUp(x: nat, a: nat): (r: nat)
    requires a > 0
  {
    (x + a - 1) / a * a
  }

  lemma Monotone(p: nat, q: nat, a: nat)
    ensures p <= q ==> p * a <= q * a
  {
  }

  lemma DivBetween(x: nat, q: nat, a: nat)
    requires a > 0 && q * a <= x < q * a + a
    ensures x / a == q
  {
    var r := x / a;
    assert r * a <= x < r * a + a;
    Monotone(r + 1, q, a);
    Monotone(q + 1, r, a);
    assert (r + 1) * a == r * a + a && (q + 1) * a == q * a + a;
  }

  lemma MultipleMod(q: nat, a: nat)
    requires a > 0
    ensures (q * a) % a == 0 && (q * a) / a == q
  {
    DivBetween(q * a, q, a);
    assert q * a == (q * a) / a * a + (q * a) % a;
  }

  lemma RoundUpIsLeast(x: nat, a: nat)
    requires a > 0
    ensures RoundUp(x, a) % a == 0 && x <= RoundUp(x, a) < x + a
  {
    var q := (x + a - 1) / a;
    assert x + a - 1 == q * a + (x + a - 1) % a;
    MultipleMod(q, a);
  }

  lemma RoundUpFixed(x: nat, a: nat)
    requires a > 0
    ensures RoundUp(x, a) == x <==> x % a == 0
  {
    RoundUpIsLeast(x, a);
    if x % a == 0 {
      var q := x / a;
      assert x == q * a;
      DivBetween(x + a - 1, q, a);
    }
  }

  lemma AtLeastOne(x: nat, a: nat)
    requires a > 0
    ensures x >= a ==> x / a >= 1
  {
    assert x == x / a * a + x % a;
    Monotone(x / a, 0, a);
  }

  // ---- slots ----

  function SlotSize(requested: nat): nat {
    (Max(requested, UNIT) + SLOT_HEADER + BUFFER_ZONE + UNIT - 1) / UNIT * UNIT
  }

  function MinimumBuffer(requested: nat): nat { GROUP_HEADER + SlotSize(requested) }

  lemma SlotSizeFits(requested: nat)
    ensures SlotSize(requested) % UNIT == 0
    ensures SlotSize(requested) >= requested + SLOT_HEADER + BUFFER_ZONE && SlotSize(requested) > 0
  {
  }

  /** memory_slot_group: where it lies and how large its slots are. */
  datatype Layout = Layout(base: nat, buffer: nat, slot: nat)

  predicate Proper(g: Layout) {
    g.base % UNIT == 0 && g.slot % UNIT == 0 && g.slot > 0 && g.buffer >= GROUP_HEADER + g.slot
  }

  function SlotCount(g: Layout): nat
    requires Proper(g)
  {
    (g.buffer - GROUP_HEADER) / RoundUp(g.slot, UNIT)
  }

  function Begin(g: Layout): nat { RoundUp(g.base + GROUP_HEADER, UNIT) }
  function End(g: Layout): nat
    requires Proper(g)
  {
    Begin(g) + SlotCount(g) * g.slot
  }

  function SlotAt(g: Layout, i: nat): nat { Begin(g) + i * g.slot }

  /** get_slot_idx */
  function SlotIndex(g: Layout, p: nat): int
    requires Proper(g)
  {
    if p < Begin(g) then -1
    else if End(g) <= p then -1
    else (p - Begin(g)) / g.slot
  }

  /** At least one slot exists, and all of them lie in the buffer behind the header. */
  lemma SlotsTile(g: Layout)
    requires Proper(g)
    ensures SlotCount(g) >= 1 && Begin(g) == g.base + GROUP_HEADER && Begin(g) % UNIT == 0
    ensures End(g) <= g.base + g.buffer && g.base + g.buffer - End(g) < g.slot
  {
    RoundUpFixed(g.slot, UNIT);
    RoundUpFixed(g.base + GROUP_HEADER, UNIT);
    var total := g.buffer - GROUP_HEADER;
    assert total == total / g.slot * g.slot + total % g.slot;
    AtLeastOne(total, g.slot);
  }

  lemma Associate(a: nat, b: nat, c: nat)
    ensures a * (b * c) == (a * b) * c
  {
  }

  lemma SlotAligned(g: Layout, i: nat)
    requires Proper(g)
    ensures SlotAt(g, i) % UNIT == 0
  {
    SlotsTile(g);
    Associate(i, g.slot / UNIT, UNIT);
    MultipleMod(i * (g.slot / UNIT), UNIT);
    assert g.slot == (g.slot / UNIT) * UNIT;
  }

  /** Slots are aligned and follow one another without overlap or gap. */
  lemma SlotsFollow(g: Layout, i: nat, j: nat)
    requires Proper(g) && i < j <= SlotCount(g)
    ensures SlotAt(g, i) % UNIT == 0 && SlotAt(g, i) + g.slot <= SlotAt(g, j) <= End(g)
    ensures j == i + 1 ==> SlotAt(g, i) + g.slot == SlotAt(g, j)
  {
    SlotAligned(g, i);
    Monotone(i + 1, j, g.slot);
    Monotone(j, SlotCount(g), g.slot);
    assert (i + 1) * g.slot == i * g.slot + g.slot;
  }

  lemma IndexOfByte(g: Layout, p: nat, i: nat)
    requires Proper(g) && i < SlotCount(g) && SlotAt(g, i) <= p < SlotAt(g, i) + g.slot
    ensures SlotIndex(g, p) == i
  {
    SlotsFollow(g, i, SlotCount(g));
    DivBetween(p - Begin(g), i, g.slot);
  }

  lemma ByteOfIndex(g: Layout, p: nat, i: nat)
    requires Proper(g) && SlotIndex(g, p) == i
    ensures i < SlotCount(g) && SlotAt(g, i) <= p < SlotAt(g, i) + g.slot
  {
    var d := p - Begin(g);
    assert d == d / g.slot * g.slot + d % g.slot;
    Monotone(SlotCount(g), i, g.slot);
  }

  /** Every byte of slot i is recognised as one of slot i, and no byte outside of a slot
      of the group is. */
  lemma IndexIsExact(g: Layout, p: nat, i: nat)
    requires Proper(g)
    ensures SlotIndex(g, p) == i <==> i < SlotCount(g) && SlotAt(g, i) <= p < SlotAt(g, i) + g.slot
  {
    if SlotIndex(g, p) == i { ByteOfIndex(g, p, i); }
    if i < SlotCount(g) && SlotAt(g, i) <= p < SlotAt(g, i) + g.slot { IndexOfByte(g, p, i); }
  }

  // ---- blocks ----

  const WORD: nat := 0x1_0000_0000_0000_0000

  /** needed_bytes, computed in 64 bits */
  function Needed(n: nat, align: nat): nat
    requires n < WORD && 0 < align < WORD
  {
    (n + 1 + if align > UNIT then align - 1 else 0) % WORD
  }

  /** The overflow test finds exactly the requests whose size does not fit a machine word. */
  lemma OverflowIsExact(n: nat, align: nat)
    requires n < WORD && 0 < align < WORD
    ensures Needed(n, align) < n <==> n + 1 + (if align > UNIT then align - 1 else 0) >= WORD
  {
  }

  /** get_aligned_allocated_mem_top: the address of the header of a block. */
  function HeaderAt(slot: nat, align: nat): nat
    requires align > 0
  {
    var top := RoundUp(slot + DATA_OFFSET, align);
    if top == slot + DATA_OFFSET then slot + LINK_OFFSET else top
  }

  /** The address handed out, right behind the header. */
  function BlockAt(slot: nat, align: nat): nat
    requires align > 0
  {
    HeaderAt(slot, align) + 8
  }

  /** is_power_of_2, and with it a multiple or a divisor of eight. */
  predicate IsAlignment(align: nat) {
    align > 0 && (align == 1 || (align % 2 == 0 && IsAlignment(align / 2)))
  }

  lemma {:induction false} AlignmentAndUnit(align: nat)
    requires IsAlignment(align)
    ensures align <= UNIT ==> UNIT % align == 0
    ensures align > UNIT ==> align % UNIT == 0 && align >= 2 * UNIT
    decreases align
  {
    if align > UNIT {
      AlignmentAndUnit(align / 2);
      if align / 2 <= UNIT { assert align / 2 in {5, 6, 7, 8}; }
    } else {
      assert align in {1, 2, 3, 4, 5, 6, 7, 8};
    }
  }

  lemma ModOfMultiple(x: nat, a: nat, u: nat)
    requires a > 0 && u > 0 && u % a == 0 && x % u == 0
    ensures x % a == 0
  {
    var k, l := x / u, u / a;
    assert x == (k * l) * a by { assert x == k * u && u == l * a; }
    MultipleMod(k * l, a);
  }

  /** Divisors and multiples of eight, which all powers of two are. */
  predicate FitsUnit(align: nat) {
    align > 0 && if align <= UNIT then UNIT % align == 0 else align % UNIT == 0
  }

  lemma SmallHeader(slot: nat, align: nat)
    requires slot % UNIT == 0 && FitsUnit(align) && align <= UNIT
    ensures HeaderAt(slot, align) == slot + LINK_OFFSET && (slot + DATA_OFFSET) % align == 0
  {
    ModOfMultiple(slot + DATA_OFFSET, align, UNIT);
    RoundUpFixed(slot + DATA_OFFSET, align);
  }

  lemma UnitGap(x: nat, y: nat, u: nat)
    requires u > 0 && x < y && x % u == 0 && y % u == 0
    ensures x + u <= y
  {
    Monotone(y / u, x / u, u);
    assert x == x / u * u && y == y / u * u;
    Monotone(x / u + 1, y / u, u);
    assert (x / u + 1) * u == x / u * u + u;
  }

  lemma TopBounds(d: nat, align: nat)
    requires d % UNIT == 0 && align % UNIT == 0 && align > UNIT
    ensures var top := RoundUp(d, align); top % align == 0 && top % UNIT == 0 && d <= top < d + align && (top == d <==> d % align == 0)
  {
    RoundUpFixed(d, align);
    RoundUpIsLeast(d, align);
    ModOfMultiple(RoundUp(d, align), UNIT, align);
  }

  lemma TopGap(d: nat, top: nat, align: nat)
    requires d % UNIT == 0 && align % UNIT == 0 && top % UNIT == 0 && d < top < d + align
    ensures d + UNIT <= top <= d + align - UNIT
  {
    UnitGap(d, top, UNIT);
    UnitGap(top, d + align, UNIT);
  }

  /** The header word is the slot's own, or a displaced one at the aligned address. */
  lemma LargeHeader(slot: nat, align: nat)
    requires slot % UNIT == 0 && FitsUnit(align) && align > UNIT
    ensures (slot + DATA_OFFSET) % align == 0 ==> HeaderAt(slot, align) == slot + LINK_OFFSET
    ensures (slot + DATA_OFFSET) % align != 0 ==>
              && slot + DATA_OFFSET + UNIT <= HeaderAt(slot, align) <= slot + DATA_OFFSET + align - UNIT
              && HeaderAt(slot, align) % UNIT == 0 && HeaderAt(slot, align) % align == 0
  {
    TopBounds(slot + DATA_OFFSET, align);
    var top := RoundUp(slot + DATA_OFFSET, align);
    if top != slot + DATA_OFFSET { TopGap(slot + DATA_OFFSET, top, align); }
  }

  lemma {:induction false} PowersFit(align: nat)
    requires IsAlignment(align)
    ensures FitsUnit(align)
  {
    AlignmentAndUnit(align);
  }

  /** A block and its header lie wholly in the slot, behind the slot's own header and
      before its last nine bytes, for every size and every power-of-two alignment. */
  lemma BlockInSlot(slot: nat, allocatable: nat, n: nat, align: nat)
    requires slot % UNIT == 0 && IsAlignment(align)
    requires n + 1 + (if align > UNIT then align - 1 else 0) <= allocatable
    ensures slot + LINK_OFFSET <= HeaderAt(slot, align) && HeaderAt(slot, align) != slot + DATA_OFFSET
    ensures slot + DATA_OFFSET <= BlockAt(slot, align) && BlockAt(slot, align) % UNIT == 0
    ensures BlockAt(slot, align) + n <= slot + SlotSize(allocatable) - SLOT_HEADER + DATA_OFFSET - BUFFER_ZONE
  {
    PowersFit(align);
    BlockFits(slot, allocatable, n, align);
  }

  lemma Enough(slot: nat, header: nat, allocatable: nat, n: nat, extra: nat)
    requires header + 8 <= slot + DATA_OFFSET + extra && n + extra <= allocatable
    ensures header + 8 + n <= slot + SlotSize(allocatable) - SLOT_HEADER + DATA_OFFSET - BUFFER_ZONE
  {
    SlotSizeFits(allocatable);
  }

  lemma NextUnit(x: nat)
    requires x % UNIT == 0
    ensures (x + 8) % UNIT == 0
  {
  }

  lemma BlockFits(slot: nat, allocatable: nat, n: nat, align: nat)
    requires slot % UNIT == 0 && FitsUnit(align)
    requires n + 1 + (if align > UNIT then align - 1 else 0) <= allocatable
    ensures slot + LINK_OFFSET <= HeaderAt(slot, align) && HeaderAt(slot, align) != slot + DATA_OFFSET
    ensures slot + DATA_OFFSET <= BlockAt(slot, align) && BlockAt(slot, align) % UNIT == 0
    ensures BlockAt(slot, align) + n <= slot + SlotSize(allocatable) - SLOT_HEADER + DATA_OFFSET - BUFFER_ZONE
  {
    if align <= UNIT {
      SmallHeader(slot, align);
      Enough(slot, slot + LINK_OFFSET, allocatable, n, 0);
    } else {
      LargeHeader(slot, align);
      NextUnit(HeaderAt(slot, align));
      Enough(slot, HeaderAt(slot, align), allocatable, n, align);
    }
  }

  /** The alignment of the block itself is the requested one if and only if the data area
      of the slot happens to have it; otherwise the block is eight bytes past it. */
  lemma AlignedExactly(slot: nat, align: nat)
    requires slot % UNIT == 0 && IsAlignment(align)
    ensures BlockAt(slot, align) % align == 0 <==> (slot + DATA_OFFSET) % align == 0
    ensures (slot + DATA_OFFSET) % align != 0 ==> BlockAt(slot, align) % align == 8
  {
    PowersFit(align);
    AlignedFor(slot, align);
  }

  lemma AlignedFor(slot: nat, align: nat)
    requires slot % UNIT == 0 && FitsUnit(align)
    ensures BlockAt(slot, align) % align == 0 <==> (slot + DATA_OFFSET) % align == 0
    ensures (slot + DATA_OFFSET) % align != 0 ==> BlockAt(slot, align) % align == 8
  {
    if align <= UNIT {
      SmallHeader(slot, align);
    } else {
      LargeHeader(slot, align);
      if (slot + DATA_OFFSET) % align != 0 { EightPast(HeaderAt(slot, align), align); }
    }
  }

  lemma EightPast(x: nat, a: nat)
    requires a > 8 && x % a == 0
    ensures (x + 8) % a == 8
  {
    var q := x / a;
    assert x + 8 == q * a + 8;
    DivBetween(x + 8, q, a);
  }
}
