/** allocate_by_mmap: more is mapped than asked for, so that an aligned piece can be kept;
    what lies in front of it and behind it is unmapped again. */
module MmapTrim {
  import opened Reclaim
  import opened SlotLayout
  import opened BumpChamber

  const PAGE: nat := 4096
  /** conf_max_mmap_alloc_size */
  const MAX_REQUEST: nat := (WORD - 1) / 2

  /** The alignment to keep, the bytes to keep, the bytes to map. */
  datatype Params = Params(align: nat, keep: nat, mapped: nat)

  /** calc_cur_system_alloc_params */
  function ParamsFor(n: nat, align: nat): Params {
    var a := if align <= PAGE then PAGE else align;
    Params(a, PAGE * ((n + (PAGE - 1)) / PAGE), PAGE * ((n + (a - 1)) / PAGE))
  }

  /** A range of addresses. */
  datatype Block = Block(start: nat, size: int)

  /** What is left of the mapping at address m. */
  datatype Trim = Trim(pre: Block, kept: Block, post: Block)

  /** addr_alloc_expected is at, alloc_block_remain is rest. */
  function TrimAt(m: nat, p: Params, rest: nat, at: nat): Trim {
    var pre := if rest == 0 then 0 else p.align - rest;
    Trim(Block(m, pre), Block(at, p.keep), Block(at + p.keep, p.mapped - (pre + p.keep)))
  }

  function TrimOf(m: nat, p: Params): Trim
    requires p.align > 0
  {
    TrimAt(m, p, m % p.align, AlignUp(m, p.align))
  }

  predicate IsPageAlignment(align: nat) { align <= PAGE || align % PAGE == 0 }

  /** The bytes to map are those to keep and all but one page of the alignment. */
  lemma MappedIs(n: nat, align: nat)
    requires IsPageAlignment(align)
    ensures var p := ParamsFor(n, align);
            && p.align >= PAGE && p.align % PAGE == 0 && p.keep % PAGE == 0 && n <= p.keep < n + PAGE
            && p.mapped == p.keep + (p.align - PAGE)
  {
    var p := ParamsFor(n, align);
    var q, k := (n + (PAGE - 1)) / PAGE, p.align / PAGE;
    assert p.align == k * PAGE;
    assert n + (p.align - 1) == (n + (PAGE - 1)) + (k - 1) * PAGE;
    assert (n + (p.align - 1)) / PAGE == q + (k - 1);
  }

  lemma PageGap(m: nat, a: nat)
    requires a >= PAGE && a % PAGE == 0 && m % PAGE == 0
    ensures m % a == 0 || PAGE <= m % a
  {
    var q, k := m / a, a / PAGE;
    assert m == q * a + m % a;
    assert a == k * PAGE;
    Associate(q, k, PAGE);
    assert (m % a) % PAGE == 0 by {
      assert m % a == (m / PAGE - q * k) * PAGE;
    }
  }

  lemma {:induction false} PowersDivide(a: nat, b: nat)
    requires IsAlignment(a) && IsAlignment(b) && a >= b
    ensures a % b == 0
    decreases b
  {
    if b > 1 {
      PowersDivide(a / 2, b / 2);
      var q := (a / 2) / (b / 2);
      assert a / 2 == q * (b / 2);
      assert a == q * b by { assert a == 2 * (a / 2) && b == 2 * (b / 2); }
      MultipleMod(q, b);
    }
  }

  lemma PageIsPower()
    ensures IsAlignment(PAGE)
  {
    assert IsAlignment(8) && IsAlignment(16) && IsAlignment(32);
    assert IsAlignment(64) && IsAlignment(128) && IsAlignment(256);
    assert IsAlignment(512) && IsAlignment(1024) && IsAlignment(2048);
  }

  lemma PowersArePage(align: nat)
    requires IsAlignment(align)
    ensures IsPageAlignment(align) && (align <= PAGE ==> PAGE % align == 0)
  {
    PageIsPower();
    if align <= PAGE { PowersDivide(PAGE, align); } else { PowersDivide(align, PAGE); }
  }

  lemma AlignUpIs(m: nat, a: nat)
    requires a > 0
    ensures AlignUp(m, a) == m + if m % a == 0 then 0 else a - m % a
  {
    assert m == m / a * a + m % a;
    assert (m / a + 1) * a == m / a * a + a;
  }

  /** The three pieces make up the mapping, and none has a negative size. */
  predicate Partitions(t: Trim, m: nat, mapped: nat) {
    && t.pre.start == m && t.pre.size >= 0 && t.kept.size >= 0 && t.kept.start == m + t.pre.size
    && t.post.start == t.kept.start + t.kept.size && t.post.size >= 0
    && t.post.start + t.post.size == m + mapped
  }

  lemma PiecesFit(m: nat, p: Params)
    requires p.align >= PAGE && p.align % PAGE == 0 && m % PAGE == 0 && p.mapped == p.keep + (p.align - PAGE)
    ensures Partitions(TrimOf(m, p), m, p.mapped) && TrimOf(m, p).kept.start % p.align == 0
    ensures TrimOf(m, p).kept.start < m + p.align
  {
    PageGap(m, p.align);
    AlignUpIs(m, p.align);
    AlignUpIsLeast(m, p.align);
    PiecesAdd(m, p, m % p.align, AlignUp(m, p.align));
  }

  lemma PiecesAdd(m: nat, p: Params, rest: nat, at: nat)
    requires (rest == 0 || PAGE <= rest) && rest <= p.align && p.align >= PAGE && p.mapped == p.keep + (p.align - PAGE)
    requires at == m + if rest == 0 then 0 else p.align - rest
    ensures Partitions(TrimAt(m, p, rest, at), m, p.mapped)
  {
  }

  lemma KeptAligned(x: nat, align: nat)
    requires IsAlignment(align) && x % (if align <= PAGE then PAGE else align) == 0
    ensures x % align == 0
  {
    if align <= PAGE {
      PowersArePage(align);
      hide IsAlignment;
      ModOfMultiple(x, align, PAGE);
    }
  }

  /** For every request, every power-of-two alignment and every page-aligned mapping the
      three pieces make up the mapping, and the one that is kept starts at the first aligned
      address and has the least number of pages.  No more is mapped than this can need. */
  lemma TrimPartitions(m: nat, n: nat, align: nat)
    requires IsAlignment(align) && m % PAGE == 0
    ensures var p := ParamsFor(n, align); p.align > 0 && var t := TrimOf(m, p);
            && Partitions(t, m, p.mapped)
            && t.kept.start % align == 0 && n <= t.kept.size < n + PAGE
            && p.mapped == t.kept.size + Max(align, PAGE) - PAGE
            && t.kept.start % Max(align, PAGE) == 0 && t.kept.start < m + Max(align, PAGE) && t.kept.size % PAGE == 0
  {
    PowersArePage(align);
    MappedIs(n, align);
    var p := ParamsFor(n, align);
    assert p.align == if align <= PAGE then PAGE else align;
    hide ParamsFor;
    PiecesFit(m, p);
    assert TrimOf(m, p).kept.size == p.keep;
    hide TrimOf;
    KeptAligned(TrimOf(m, p).kept.start, align);
  }

  function NonEmpty(b: Block): seq<Block> { if b.size != 0 then [b] else [] }

  predicate Covers(b: Block, a: int) { b.start <= a < b.start + b.size }

  /** Every byte of the mapping is either kept or unmapped, not both, and no other byte is
      touched. */
  lemma EveryByteOnce(t: Trim, m: nat, mapped: nat, a: int)
    requires Partitions(t, m, mapped)
    ensures var gone := NonEmpty(t.pre) + NonEmpty(t.post);
            && ((exists i :: 0 <= i < |gone| && Covers(gone[i], a)) <==> m <= a < m + mapped && !Covers(t.kept, a))
            && (Covers(t.kept, a) ==> m <= a < m + mapped)
  {
    var gone := NonEmpty(t.pre) + NonEmpty(t.post);
    assert forall i | 0 <= i < |gone| :: gone[i] == t.pre || gone[i] == t.post;
    if Covers(t.pre, a) { assert Covers(gone[0], a); }
    if Covers(t.post, a) { assert Covers(gone[|gone| - 1], a); }
    if m <= a < m + mapped && !Covers(t.kept, a) { assert Covers(t.pre, a) || Covers(t.post, a); }
  }

  /** allocate_by_mmap: mapping is what mmap returns for the bytes that are asked of it. */
  method AllocateByMmap(n: nat, align: nat, mapping: Option<nat>) returns (r: Option<Block>, unmapped: seq<Block>)
    requires IsAlignment(align) && (mapping.Some? ==> mapping.value % PAGE == 0)
    ensures r.None? <==> n > MAX_REQUEST || mapping.None?
    ensures r.None? ==> unmapped == []
    ensures r.Some? ==> r.value.start % align == 0 && n <= r.value.size < n + PAGE && r.value.size % PAGE == 0
    ensures r.Some? ==> r.value.start < mapping.value + Max(align, PAGE)
    ensures r.Some? ==> IsTrimmed(r.value, unmapped, mapping.value, r.value.size + Max(align, PAGE) - PAGE)
  {
    unmapped := [];
    if n > MAX_REQUEST { return None, unmapped; }
    if mapping.None? { return None, unmapped; }
    TrimPartitions(mapping.value, n, align);
    var p := ParamsFor(n, align);
    var t := TrimOf(mapping.value, p);
    hide ParamsFor, TrimOf, IsAlignment;
    if t.pre.size != 0 { unmapped := unmapped + [t.pre]; }
    if t.post.size != 0 { unmapped := unmapped + [t.post]; }
    r := Some(t.kept);
    assert unmapped == NonEmpty(t.pre) + NonEmpty(t.post);
    assert IsTrimmed(t.kept, unmapped, mapping.value, p.mapped);
  }

  ghost predicate IsTrimmed(kept: Block, unmapped: seq<Block>, m: nat, mapped: nat) {
    exists t: Trim :: t.kept == kept && unmapped == NonEmpty(t.pre) + NonEmpty(t.post) && Partitions(t, m, mapped)
  }
}
