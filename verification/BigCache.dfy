/** Blocks that are too large for the size classes: each has a mapping of its own, and a
    bounded number of bytes of mappings that were given back is kept for reuse.  One thread
    at a time. */
module BigCache {
  import opened Reclaim
  import opened SimpleList
  import opened SlotLayout
  import opened RetrievedSlots

  /** sizeof( big_memory_slot ) without the temporary link; the bytes in front of data_ */
  const BIG_HEADER: nat := 32
  /** defualt_limit_bytes_of_unused_retrieved_memory_ */
  const DEFAULT_LIMIT: nat := 4 * 1024 * 1024

  function MinimumSize(requested: nat): nat { requested + BIG_HEADER + 1 }

  /** big_memory_slot_list; a slot is in used while its memory is mapped. */
  class Cache {
    /** limit_bytes_of_unused_retrieved_memory_, too_big_memory_slot_buffer_size_threshold_ */
    const limit: nat
    const threshold: nat
    const stacks: Manager
    /** unused_retrieved_memory_bytes_ */
    var bytes: int
    var used: map<Ref, bool>
    /** buffer_size_, and whether the type is OVER_BIG_MEM */
    var size: map<Ref, nat>
    var over: map<Ref, bool>

    /** The stacks hold exactly the mapped slots that nobody uses, once each. */
    ghost predicate Cached(used: map<Ref, bool>)
      reads stacks
    {
      forall m: Ref {:trigger stacks.Copies(m)} :: stacks.Copies(m) == if m in used && !used[m] then 1 else 0
    }

    ghost predicate Known()
      reads this
    {
      && NULL !in used
      && (forall m | m in used :: m in size && m in over && size[m] > BIG_HEADER)
      && (forall m | m in used && !used[m] :: !over[m])
    }

    ghost predicate Valid()
      reads this, stacks
    {
      Cached(used) && Known() && stacks.Sorted() && bytes == stacks.Bytes(size) && 0 <= bytes <= limit
    }

    constructor (limit: nat, threshold: nat)
      ensures Valid() && used == map[] && this.limit == limit && this.threshold == threshold
    {
      this.limit, this.threshold := limit, threshold;
      stacks := new Manager();
      bytes, used, size, over := 0, map[], map[], map[];
    }

    /** allocate_newly: mapping is the address and the size of a new mapping. */
    method AllocateNewly(requested: nat, mapping: Option<(Ref, nat)>) returns (r: Option<Ref>)
      requires Valid() && (mapping.Some? ==> mapping.value.0 != NULL && mapping.value.0 !in used && mapping.value.1 >= MinimumSize(requested))
      modifies this
      ensures Valid() && bytes == old(bytes)
      ensures r.None? <==> mapping.None?
      ensures r.None? ==> used == old(used) && size == old(size)
      ensures r.None? ==> over == old(over)
      ensures r.Some? ==> r.value == mapping.value.0 && r.value !in old(used) && used == old(used)[r.value := true]
      ensures r.Some? ==> size == old(size)[r.value := mapping.value.1] && requested < size[r.value] - BIG_HEADER
      ensures r.Some? ==> over == old(over)[r.value := size[r.value] >= threshold]
    {
      if mapping.None? { return None; }
      var (p, bytesOf) := mapping.value;
      SizesStay(stacks, used, size, p, bytesOf);
      size, over := size[p := bytesOf], over[p := bytesOf >= threshold];
      used := used[p := true];
      r := Some(p);
    }

    /** deallocate: false exactly for null and a slot that is not in use.  The memory is unmapped if
        it is very large or would take the cache over its limit; otherwise it is kept. */
    method Deallocate(p: Ref) returns (ok: bool)
      requires Valid() && (p != NULL ==> p in used)
      modifies this, stacks
      ensures Valid() && ok == (p != NULL && old(used)[p]) && size == old(size)
      ensures !ok ==> used == old(used) && bytes == old(bytes)
      ensures ok && (old(over)[p] || old(bytes) + size[p] > limit) ==> used == old(used) - {p} && bytes == old(bytes)
      ensures ok && !(old(over)[p] || old(bytes) + size[p] > limit) ==> used == old(used)[p := false] && bytes == old(bytes) + size[p]
    {
      hide Count, Sum;
      if p == NULL { return false; }
      ok := used[p];
      if !ok { return; }
      if over[p] || bytes + size[p] > limit {
        used := used - {p};
      } else {
        bytes := bytes + size[p];
        used := used[p := false];
        var hazards: set<Ref>, pushed: bool := *, *;
        stacks.Retrieve(p, hazards, pushed, size);
      }
    }

    /** A slot of the thread's own stack is large enough. */
    ghost predicate HasFit(requested: nat)
      reads this, stacks
    {
      exists p :: p in stacks.clean && requested + BIG_HEADER <= Weight(size, p)
    }

    /** The first loop of reuse_allocate: candidates that are too small are chained up; seen
        is what the hazard slots held when the last one was asked for. */
    method FindCandidate(requested: nat) returns (r: Option<Ref>, chain: seq<Ref>, ghost seen: set<Ref>)
      requires Valid()
      modifies stacks
      ensures forall m: Ref :: stacks.Copies(m) + Count(chain, m) + (if r == Some(m) then 1 else 0) == old(stacks.Copies(m))
      ensures stacks.Bytes(size) + Sum(chain, size) + (if r.Some? then Weight(size, r.value) else 0) == bytes
      ensures r.Some? ==> r.value in used && !used[r.value] && requested <= size[r.value] - BIG_HEADER
      ensures stacks.Sorted() && (r.Some? ==> SeenFree(old(stacks.history), r.value) || r.value !in seen)
      ensures old(HasFit(requested)) ==> r.Some?
    {
      hide SeenFree;
      chain, seen := [], {};
      Emptied(size);
      while true
        invariant forall m :: stacks.Copies(m) + Count(chain, m) == old(stacks.Copies(m))
        invariant stacks.Bytes(size) + Sum(chain, size) == bytes
        invariant stacks.Sorted() && stacks.history == old(stacks.history)
        invariant forall p | p in old(stacks.clean) :: p in stacks.clean || requested + BIG_HEADER > Weight(size, p)
        decreases stacks.Number()
      {
        var hazards: set<Ref>, popped: bool, owned: bool := *, *, *;
        label L:
        r := stacks.RequestReuse(hazards, popped, owned, size);
        seen := hazards;
        if r.None? { return; }
        var p := r.value;
        TakenOne(p, old@L(stacks.Copies(p)), stacks.Copies(p));
        assert old(stacks.Copies(p)) >= 1;
        if requested <= size[p] - BIG_HEADER { return; }
        Pushed(p, chain, size);
        chain := [p] + chain;
      }
    }

    /** The second loop: the chained candidates go back. */
    method PutBack(candidates: seq<Ref>)
      requires stacks.Sorted() && forall m :: stacks.Copies(m) + Count(candidates, m) <= 1
      modifies stacks
      ensures forall m :: stacks.Copies(m) == old(stacks.Copies(m)) + Count(candidates, m)
      ensures stacks.Bytes(size) == old(stacks.Bytes(size)) + Sum(candidates, size)
      ensures stacks.Sorted()
    {
      hide Count, Sum, Weight, SeenFree;
      var chain := candidates;
      Emptied(size);
      while chain != []
        invariant forall m :: stacks.Copies(m) + Count(chain, m) == old(stacks.Copies(m)) + Count(candidates, m)
        invariant stacks.Bytes(size) + Sum(chain, size) == old(stacks.Bytes(size)) + Sum(candidates, size)
        invariant stacks.Sorted()
        decreases |chain|
      {
        Popped(chain, size);
        var p := chain[0];
        assert Count(chain, p) == Count(chain[1..], p) + 1;
        var hazards: set<Ref>, pushed: bool := *, *;
        chain := chain[1..];
        stacks.Retrieve(p, hazards, pushed, size);
      }
    }

    /** reuse_allocate: a cached slot that is large enough, or none; every other candidate is
        cached as before.  There is one if the thread's own stack has one. */
    method ReuseAllocate(requested: nat) returns (r: Option<Ref>, ghost seen: set<Ref>)
      requires Valid()
      modifies this`bytes, this`used, stacks
      ensures Valid()
      ensures r.None? ==> used == old(used) && bytes == old(bytes)
      ensures r.Some? ==> r.value in old(used) && !old(used)[r.value] && requested <= size[r.value] - BIG_HEADER
      ensures r.Some? ==> used == old(used)[r.value := true] && bytes == old(bytes) - size[r.value]
      ensures r.Some? ==> SeenFree(old(stacks.history), r.value) || r.value !in seen
      ensures old(HasFit(requested)) ==> r.Some?
    {
      var chain;
      r, chain, seen := FindCandidate(requested);
      hide SeenFree;
      PutBack(chain);
      if r.Some? {
        bytes := bytes - size[r.value];
        used := used[r.value := true];
      }
    }
  }

  lemma TakenOne(p: Ref, before: nat, after: nat)
    requires after == before - One(p, p)
    ensures before >= 1
  {
  }

  lemma CountIn(s: seq<Ref>, n: Ref)
    requires n in s
    ensures Count(s, n) >= 1
  {
  }

  /** A new mapping does not change what the cached slots weigh. */
  lemma SizesStay(stacks: Manager, used: map<Ref, bool>, size: map<Ref, nat>, p: Ref, bytesOf: nat)
    requires p !in used && stacks.Copies(p) == 0
    ensures stacks.Bytes(size[p := bytesOf]) == stacks.Bytes(size)
  {
    forall s | s == stacks.clean || s == stacks.held || s == stacks.shared || s == stacks.locked
      ensures Sum(s, size[p := bytesOf]) == Sum(s, size)
    {
      if p in s { CountIn(s, p); }
      SumSame(s, size[p := bytesOf], size);
    }
  }

  /** The block lies in its slot, behind the slot's header. */
  lemma BlockInBigSlot(p: nat, n: nat, align: nat, size: nat)
    requires p % UNIT == 0 && IsAlignment(align)
    requires n + 1 + (if align > UNIT then align - 1 else 0) <= size - BIG_HEADER
    ensures var slot := p + BIG_HEADER - DATA_OFFSET;
            p + BIG_HEADER <= BlockAt(slot, align) && BlockAt(slot, align) + n <= p + size
  {
    PowersFit(align);
    var slot := p + BIG_HEADER - DATA_OFFSET;
    if align <= UNIT { SmallHeader(slot, align); } else { LargeHeader(slot, align); }
  }
}
