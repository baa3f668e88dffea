/** The word in front of every allocated block: the manager's address, the memory type in
    the two lowest bits, and the used flag in the third. */
module PackedWord {

  const ALL_FLAGS: bv64 := 7
  const TYPE_BITS: bv64 := 3
  const USED_BIT: bv64 := 4

  /** zip_allocation_info */
  function Zip(manager: bv64, memType: bv64, used: bool): bv64 {
    manager | memType | if used then USED_BIT else 0
  }

  function Manager(word: bv64): bv64 { word & !ALL_FLAGS }
  function MemType(word: bv64): bv64 { word & TYPE_BITS }
  predicate IsUsed(word: bv64) { word & USED_BIT != 0 }

  function SetUsed(word: bv64, used: bool): bv64 { if used then word | USED_BIT else word & !USED_BIT }

  /** For an aligned manager and a memory type of two bits nothing gets lost. */
  lemma ZipUsed(manager: bv64, memType: bv64)
    requires manager & ALL_FLAGS == 0 && memType & !TYPE_BITS == 0
    ensures Manager(Zip(manager, memType, true)) == manager && MemType(Zip(manager, memType, true)) == memType
    ensures IsUsed(Zip(manager, memType, true))
  {
  }

  lemma ZipUnused(manager: bv64, memType: bv64)
    requires manager & ALL_FLAGS == 0 && memType & !TYPE_BITS == 0
    ensures Manager(Zip(manager, memType, false)) == manager && MemType(Zip(manager, memType, false)) == memType
    ensures !IsUsed(Zip(manager, memType, false))
  {
  }

  lemma RoundTrip(manager: bv64, memType: bv64, used: bool)
    requires manager & ALL_FLAGS == 0 && memType & !TYPE_BITS == 0
    ensures Manager(Zip(manager, memType, used)) == manager && MemType(Zip(manager, memType, used)) == memType
    ensures IsUsed(Zip(manager, memType, used)) == used
  {
    if used { ZipUsed(manager, memType); } else { ZipUnused(manager, memType); }
  }

  /** The word as it is in memory. */
  class Word {
    var word: bv64

    constructor (manager: bv64, memType: bv64, used: bool)
      requires manager & ALL_FLAGS == 0 && memType & !TYPE_BITS == 0
      ensures Manager(word) == manager && MemType(word) == memType && IsUsed(word) == used
    {
      word := Zip(manager, memType, used);
      RoundTrip(manager, memType, used);
    }

    /** fetch_set, with nobody else writing. */
    method FetchSet(used: bool) returns (was: bool)
      modifies this
      ensures was == IsUsed(old(word)) && IsUsed(word) == used
      ensures Manager(word) == Manager(old(word)) && MemType(word) == MemType(old(word))
    {
      was := IsUsed(word);
      FlagOnly(word, used);
      word := SetUsed(word, used);
    }

    /** compare_and_exchange_used_flag: succeeds exactly when the flag is as expected. */
    method CompareAndExchangeUsed(was: bool, desired: bool) returns (ok: bool, seen: bool)
      modifies this
      ensures ok <==> IsUsed(old(word)) == was
      ensures IsUsed(word) == if ok then desired else IsUsed(old(word))
      ensures Manager(word) == Manager(old(word)) && MemType(word) == MemType(old(word))
      ensures seen == IsUsed(old(word))
    {
      FlagOnly(word, desired);
      SameFlag(word, was);
      seen := IsUsed(word);
      ok := word == SetUsed(word, was);
      if ok { word := SetUsed(word, desired); }
    }

    /** store_addr */
    method StoreAddr(manager: bv64)
      requires manager & ALL_FLAGS == 0
      modifies this
      ensures Manager(word) == manager && MemType(word) == MemType(old(word)) && IsUsed(word) == IsUsed(old(word))
    {
      AddressOfNew(word, manager);
      TypeOfNew(word, manager);
      FlagOfNew(word, manager);
      word := WithManager(word, manager);
    }
  }

  lemma FlagSet(word: bv64)
    ensures Manager(word | USED_BIT) == Manager(word) && MemType(word | USED_BIT) == MemType(word)
    ensures IsUsed(word | USED_BIT)
  {
  }

  lemma FlagCleared(word: bv64)
    ensures Manager(word & !USED_BIT) == Manager(word) && MemType(word & !USED_BIT) == MemType(word)
    ensures !IsUsed(word & !USED_BIT)
  {
  }

  lemma FlagOnly(word: bv64, used: bool)
    ensures Manager(SetUsed(word, used)) == Manager(word) && MemType(SetUsed(word, used)) == MemType(word)
    ensures IsUsed(SetUsed(word, used)) == used
  {
    if used { FlagSet(word); } else { FlagCleared(word); }
  }

  lemma SameFlag(word: bv64, used: bool)
    ensures SetUsed(word, used) == word <==> IsUsed(word) == used
  {
  }

  function WithManager(word: bv64, manager: bv64): bv64 { manager | (word & ALL_FLAGS) }

  lemma AddressOfNew(word: bv64, manager: bv64)
    requires manager & ALL_FLAGS == 0
    ensures Manager(WithManager(word, manager)) == manager
  {
  }

  lemma TypeOfNew(word: bv64, manager: bv64)
    requires manager & ALL_FLAGS == 0
    ensures MemType(WithManager(word, manager)) == MemType(word)
  {
  }

  lemma FlagOfNew(word: bv64, manager: bv64)
    requires manager & ALL_FLAGS == 0
    ensures (WithManager(word, manager) & USED_BIT) == word & USED_BIT
  {
  }
}
