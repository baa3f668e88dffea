/** The 128 size classes of the small-memory allocator and the index that a request for
    some number of bytes starts its search at. */
module SizeClasses {

  /** allocatable_bytes_ of g_memory_slot_group_list_array, eight entries at a time */
  function Row(k: nat): (r: seq<nat>)
    ensures |r| == 8
  {
    match k
    case 0 => [8, 16, 24, 32, 40, 48, 56, 64]
    case 1 => [72, 80, 88, 96, 104, 112, 120, 128]
    case 2 => [136, 144, 152, 160, 168, 176, 184, 192]
    case 3 => [200, 208, 216, 224, 232, 240, 248, 256]
    case 4 => [264, 272, 280, 288, 296, 304, 312, 320]
    case 5 => [328, 336, 344, 352, 360, 368, 376, 384]
    case 6 => [392, 400, 408, 416, 424, 432, 440, 448]
    case 7 => [456, 464, 472, 480, 488, 496, 504, 512]
    case 8 => [576, 640, 704, 768, 832, 896, 960, 1024]
    case 9 => [1152, 1280, 1408, 1536, 1664, 1792, 1920, 2048]
    case 10 => [2304, 2560, 2816, 3072, 3328, 3584, 3840, 4096]
    case 11 => [4608, 5120, 5632, 6144, 6656, 7168, 7680, 8192]
    case 12 => [9216, 10240, 11264, 12288, 13312, 14336, 15360, 16384]
    case 13 => [18432, 20480, 22528, 24576, 26624, 28672, 30720, 32768]
    case 14 => [36864, 40960, 45056, 49152, 53248, 57344, 61440, 65536]
    case _ => [73728, 81920, 90112, 98304, 106496, 114688, 122880, 131072]
  }

  function Allocatable(i: nat): nat { Row(i / 8)[i % 8] }

  const CLASSES: nat := 128

  /** The classes come in groups of equal distance: the sizes that a group of eight (the
      first group: of sixty-four) starts above, and their distance. */
  function GroupStart(i: nat): nat {
    if i < 64 then 0
    else if i < 72 then 512
    else if i < 80 then 1024
    else if i < 88 then 2048
    else if i < 96 then 4096
    else if i < 104 then 8192
    else if i < 112 then 16384
    else if i < 120 then 32768
    else 65536
  }

  function FirstOfGroup(i: nat): nat { if i < 64 then 0 else i / 8 * 8 }

  function Distance(i: nat): nat { if i < 64 then 8 else GroupStart(i) / 8 }

  function SizeOf(i: nat): nat {
    if i < FirstOfGroup(i) then 0 else GroupStart(i) + (i - FirstOfGroup(i) + 1) * Distance(i)
  }

  /** calc_init_slot_entry */
  function Entry(needed: nat): nat
    requires needed > 0
  {
    if needed <= 512 then (needed - 1) / 8
    else if needed <= 1024 then (needed - 513) / 64 + 64
    else if needed <= 2048 then (needed - 1025) / 128 + 72
    else if needed <= 4096 then (needed - 2049) / 256 + 80
    else if needed <= 8192 then (needed - 4097) / 512 + 88
    else if needed <= 16384 then (needed - 8193) / 1024 + 96
    else if needed <= 32768 then (needed - 16385) / 2048 + 104
    else if needed <= 65536 then (needed - 32769) / 4096 + 112
    else if needed <= 131072 then (needed - 65537) / 8192 + 120
    else 128
  }

  /** The table follows the pattern of its groups. */
  lemma TableIs(i: nat)
    requires i < CLASSES
    ensures Allocatable(i) == SizeOf(i)
  {
    if i < 64 { RowIs(i / 8, i % 8); } else { GroupRowIs(i / 8, i % 8); }
  }

  lemma RowIs(k: nat, j: nat)
    requires k < 8 && j < 8
    ensures Row(k)[j] == SizeOf(8 * k + j)
  {
  }

  lemma GroupRowIs(k: nat, j: nat)
    requires 8 <= k < 16 && j < 8
    ensures Row(k)[j] == SizeOf(8 * k + j)
  {
  }

  lemma Step(i: nat)
    requires i + 1 < CLASSES
    ensures SizeOf(i) < SizeOf(i + 1)
  {
  }

  lemma {:induction false} Increasing(i: nat, j: nat)
    requires i < j < CLASSES
    ensures SizeOf(i) < SizeOf(j)
    decreases j - i
  {
    Step(j - 1);
    if i < j - 1 { Increasing(i, j - 1); }
  }

  lemma SmallEntry(needed: nat)
    requires 0 < needed <= 4096
    ensures var e := Entry(needed); e < CLASSES && needed <= SizeOf(e) && (e > 0 ==> SizeOf(e - 1) < needed)
  {
  }

  lemma LargeEntry(needed: nat)
    requires 4096 < needed <= 16384
    ensures var e := Entry(needed); 0 < e < CLASSES && needed <= SizeOf(e) && SizeOf(e - 1) < needed
  {
  }

  lemma LargestEntry(needed: nat)
    requires 16384 < needed <= 131072
    ensures var e := Entry(needed); 0 < e < CLASSES && needed <= SizeOf(e) && SizeOf(e - 1) < needed
  {
  }

  lemma Exact(needed: nat, e: nat, i: nat)
    requires i < CLASSES && e < CLASSES && needed <= SizeOf(e) && (e > 0 ==> SizeOf(e - 1) < needed)
    ensures needed <= SizeOf(i) <==> e <= i
  {
    if e < i { Increasing(e, i); }
    if i < e - 1 { Increasing(i, e - 1); }
  }

  /** The search starts at the first class that is large enough: class i serves a request
      if and only if it does not come before the entry.  Requests beyond the last class
      have no entry. */
  lemma EntryIsExact(needed: nat, i: nat)
    requires needed > 0 && i < CLASSES
    ensures needed <= Allocatable(i) <==> Entry(needed) <= i
    ensures Entry(needed) == CLASSES <==> needed > Allocatable(CLASSES - 1)
  {
    TableIs(i);
    TableIs(CLASSES - 1);
    if needed <= 131072 {
      if needed <= 4096 { SmallEntry(needed); }
      else if needed <= 16384 { LargeEntry(needed); }
      else { LargestEntry(needed); }
      Exact(needed, Entry(needed), i);
    } else if i < CLASSES - 1 {
      Increasing(i, CLASSES - 1);
    }
  }
}
