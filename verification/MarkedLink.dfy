/** A link word that packs a successor and a deletion mark into one machine word. */
module MarkedLink {
  import opened Reclaim

  /** The unpacked word. */
  datatype Word = Word(p: Ref, mark: bool)

  const MARK: bv64 := 1

  /** zip_tuple_to_addr_markable */
  function Zip(p: bv64, mark: bool): bv64 { if mark then p | MARK else p }

  /** unzip_addr_markable_to_tuple */
  function Unzip(addr: bv64): (bv64, bool) { (Pointer(addr), HasMark(addr)) }

  function Pointer(addr: bv64): bv64 { addr & !MARK }
  predicate HasMark(addr: bv64) { addr & MARK != 0 }

  lemma EvenAddress(p: bv64)
    requires p & MARK == 0
    ensures Pointer(p | MARK) == p && Pointer(p) == p && HasMark(p | MARK) && !HasMark(p)
  {
  }

  lemma OddAddress(p: bv64)
    requires p & MARK != 0
    ensures p | MARK == p && p & !MARK != p
  {
  }

  lemma EvenRoundTrip(p: bv64, mark: bool)
    requires p & MARK == 0
    ensures Unzip(Zip(p, mark)) == (p, mark)
  {
    EvenAddress(p);
  }

  lemma OddRoundTrip(p: bv64, mark: bool)
    requires p & MARK != 0
    ensures Unzip(Zip(p, mark)) == (p & !MARK, true) && p & !MARK != p
  {
    OddAddress(p);
  }

  /** What is packed comes out again exactly for an address that leaves the mark bit
      clear; otherwise the address loses its lowest bit, and the link reads as marked. */
  lemma RoundTrip(p: bv64, mark: bool)
    ensures Unzip(Zip(p, mark)) == (p, mark) <==> p & MARK == 0
    ensures p & MARK != 0 ==> Unzip(Zip(p, mark)) == (p & !MARK, true)
  {
    if p & MARK == 0 { EvenRoundTrip(p, mark); } else { OddRoundTrip(p, mark); }
  }

  /** Distinct links have distinct words, so a compare-and-exchange on the word compares
      the successor and the mark together. */
  lemma ZipIsInjective(p: bv64, m: bool, q: bv64, n: bool)
    requires p & MARK == 0 && q & MARK == 0
    ensures Zip(p, m) == Zip(q, n) <==> p == q && m == n
  {
    RoundTrip(p, m);
    RoundTrip(q, n);
  }
}
