/** The node pool as one thread sees it: four lists, a lock-free stack, and the hazard
    scan that decides which nodes may be reused.  What the hazard slots hold and whether a
    lock can be taken are parameters of each call.  The lists are taken as the sequences
    that SimpleList.List proves them to be. */
module NodePool {
  import opened Reclaim
  import opened SimpleList

  /** scan_check_trial_threshold and aggressive_aggregation_threshold */
  const SCAN_THRESHOLD: nat := 50
  const AGGREGATION_THRESHOLD: nat := 20

  /** The nodes of s that no hazard slot holds, in their order. */
  function Without(s: seq<Ref>, published: seq<Ref>): seq<Ref> {
    if s == [] then []
    else if s[0] in published then Without(s[1..], published)
    else [s[0]] + Without(s[1..], published)
  }

  lemma {:induction false} WithoutNothing(s: seq<Ref>)
    ensures Without(s, []) == s
  {
    if s != [] {
      WithoutNothing(s[1..]);
      assert s == [s[0]] + s[1..];
    }
  }

  /** The callback of a scan for one pointer. */
  function Is(p: Ref): Ref -> bool { (n: Ref) => n == p }

  lemma {:induction false} WithoutOneMore(s: seq<Ref>, published: seq<Ref>, p: Ref)
    ensures Keep(Without(s, published), Is(p), false) == Without(s, published + [p])
  {
    if s != [] {
      WithoutOneMore(s[1..], published, p);
      var rest := Without(s[1..], published);
      assert s[0] in published + [p] <==> s[0] in published || s[0] == p;
      if s[0] !in published { assert ([s[0]] + rest)[1..] == rest; }
    }
  }

  /** What a scan puts aside, in the order in which it meets the pointers. */
  function Held(s: seq<Ref>, published: seq<Ref>): seq<Ref> {
    if published == [] then []
    else
      var before := published[..|published| - 1];
      Held(s, before) + Keep(Without(s, before), Is(published[|published| - 1]), true)
  }

  /** A scan loses no node, and what it puts aside is what a slot holds. */
  lemma {:induction false} ScanSplits(s: seq<Ref>, published: seq<Ref>, n: Ref)
    ensures multiset(s) == multiset(Without(s, published)) + multiset(Held(s, published))
    ensures n in Held(s, published) ==> n in published
    decreases |published|
  {
    if published == [] {
      WithoutNothing(s);
    } else {
      var before, p := published[..|published| - 1], published[|published| - 1];
      ScanSplits(s, before, n);
      assert published == before + [p];
      WithoutOneMore(s, before, p);
      KeepSplits(Without(s, before), Is(p));
      KeepMembers(Without(s, before), Is(p), true, n);
      Regroup(multiset(s), multiset(Without(s, before)), multiset(Without(s, published)),
              multiset(Keep(Without(s, before), Is(p), true)), multiset(Held(s, before)));
    }
  }

  lemma Regroup(all: multiset<Ref>, before: multiset<Ref>, free: multiset<Ref>, out: multiset<Ref>, held: multiset<Ref>)
    requires all == before + held && before == free + out
    ensures all == free + (held + out)
  {
  }

  lemma {:induction false} WithoutMembers(s: seq<Ref>, published: seq<Ref>, n: Ref)
    ensures n in Without(s, published) <==> n in s && n !in published
  {
    if s != [] { WithoutMembers(s[1..], published, n); }
  }

  class Pool {
    /** tl_odn_list_no_in_hazard and tl_odn_list_still_in_hazard */
    var tlClean: seq<Ref>
    var tlHazard: seq<Ref>
    /** g_odn_list_no_in_hazard_ and g_odn_list_still_in_hazard_ */
    var gClean: seq<Ref>
    var gHazard: seq<Ref>
    /** g_odn_lockfree_list_no_in_hazard_, from the top; LockfreeStack is about its steps. */
    var stack: seq<Ref>

    /** How often the pool can give the node away without a scan. */
    ghost function Reusable(m: Ref): nat
      reads this
    {
      multiset(tlClean)[m] + multiset(gClean)[m] + multiset(stack)[m]
    }

    /** How often the pool holds the node. */
    ghost function Copies(m: Ref): nat
      reads this
    {
      Reusable(m) + multiset(tlHazard)[m] + multiset(gHazard)[m]
    }

    constructor ()
      ensures forall m: Ref :: Copies(m) == 0
    {
      tlClean, tlHazard, gClean, gHazard, stack := [], [], [], [], [];
    }

    /** ScanHazardPtrs with split_if: published is what the scan reports, in order. */
    static method Scan(nodes: seq<Ref>, published: seq<Ref>) returns (free: seq<Ref>, held: seq<Ref>)
      ensures free == Without(nodes, published) && held == Held(nodes, published)
    {
      free, held := nodes, [];
      WithoutNothing(nodes);
      for i := 0 to |published|
        invariant free == Without(nodes, published[..i]) && held == Held(nodes, published[..i])
      {
        assert published[..i + 1][..i] == published[..i] && published[..i + 1] == published[..i] + [published[i]];
        WithoutOneMore(nodes, published[..i], published[i]);
        held := held + Keep(free, Is(published[i]), true);
        free := Keep(free, Is(published[i]), false);
      }
      assert published[..|published|] == published;
    }

    /** A list of one node is only asked about; a longer one is scanned. */
    static method Sort(nodes: seq<Ref>, published: seq<Ref>) returns (free: seq<Ref>, held: seq<Ref>)
      ensures free == Without(nodes, published) && multiset(held) == multiset(Held(nodes, published))
    {
      if |nodes| == 1 {
        OneSplits(nodes, published);
        if nodes[0] in published { return [], nodes; } else { return nodes, []; }
      }
      free, held := Scan(nodes, published);
    }

    /** try_pop_from_still_in_hazard_list for the thread's own list or, with the lock, for
        the global one: the first node without hazard is the result, the other ones go to
        the clean list of the thread in their order, and the rest stays. */
    method TryPopStill(global: bool, published: seq<Ref>) returns (ans: Option<Ref>)
      modifies this
      ensures var free := Without(old(if global then gHazard else tlHazard), published);
              && ans == (if free == [] then None else Some(free[0]))
              && tlClean == old(tlClean) + (if free == [] then [] else free[1..])
      ensures multiset(if global then gHazard else tlHazard) == multiset(Held(old(if global then gHazard else tlHazard), published))
      ensures gClean == old(gClean) && stack == old(stack)
      ensures if global then tlHazard == old(tlHazard) else gHazard == old(gHazard)
    {
      var free, held := Sort(if global then gHazard else tlHazard, published);
      if global { gHazard := held; } else { tlHazard := held; }
      if free == [] { return None; }
      ans := Some(free[0]);
      tlClean := tlClean + free[1..];
    }

    /** The clean list after a drain of nodes, without the first free node. */
    static function Drained(nodes: seq<Ref>, published: seq<Ref>, clean: seq<Ref>): seq<Ref> {
      clean + var free := Without(nodes, published); if free == [] then [] else free[1..]
    }

    lemma FirstOf(free: seq<Ref>, clean: seq<Ref>, m: Ref)
      ensures free != [] ==> multiset(clean + free[1..])[m] + (if free[0] == m then 1 else 0) == multiset(clean)[m] + multiset(free)[m]
      ensures free == [] ==> multiset(clean + [])[m] == multiset(clean)[m]
    {
      if free != [] { assert free == [free[0]] + free[1..]; }
    }

    lemma FreeOrHeld(nodes: seq<Ref>, published: seq<Ref>, left: seq<Ref>, m: Ref)
      requires multiset(left) == multiset(Held(nodes, published))
      ensures multiset(left)[m] + multiset(Without(nodes, published))[m] == multiset(nodes)[m]
      ensures (m in left ==> m in published) && (m in Without(nodes, published) ==> m !in published)
    {
      ScanSplits(nodes, published, m);
      WithoutMembers(nodes, published, m);
      assert m in left <==> m in multiset(left);
    }

    /** The drain neither loses a node nor takes one that a slot holds. */
    lemma DrainBalances(nodes: seq<Ref>, published: seq<Ref>, left: seq<Ref>, clean: seq<Ref>, m: Ref)
      requires multiset(left) == multiset(Held(nodes, published))
      ensures var free, after := Without(nodes, published), Drained(nodes, published, clean);
              && (multiset(left)[m] + multiset(after)[m] + (if free != [] && free[0] == m then 1 else 0)
                    == multiset(nodes)[m] + multiset(clean)[m])
              && (multiset(after)[m] > multiset(clean)[m] ==> m !in published)
              && (free != [] ==> free[0] !in published)
    {
      var free := Without(nodes, published);
      FreeOrHeld(nodes, published, left, m);
      if free != [] { FreeOrHeld(nodes, published, left, free[0]); }
      FirstOf(free, clean, m);
      assert m in free <==> multiset(free)[m] > 0;
    }

    /** The result of a drain goes to the caller. */
    method PopStill(global: bool, published: seq<Ref>) returns (ans: Option<Ref>)
      modifies this
      ensures var free := Without(old(if global then gHazard else tlHazard), published); ans == if free == [] then None else Some(free[0])
      ensures forall m: Ref :: Copies(m) + (if ans == Some(m) then 1 else 0) == old(Copies(m))
      ensures forall m | Reusable(m) > old(Reusable(m)) :: m !in published
      ensures ans.Some? ==> ans.value !in published
      ensures gClean == old(gClean) && if global then tlHazard == old(tlHazard) else gHazard == old(gHazard)
    {
      ghost var nodes, clean := if global then gHazard else tlHazard, tlClean;
      ans := TryPopStill(global, published);
      assert tlClean == Drained(nodes, published, clean);
      forall m { DrainBalances(nodes, published, if global then gHazard else tlHazard, clean, m); }
    }

    /** push: a node in a hazard slot is put aside, any other is kept close at hand. */
    method Push(n: Ref, published: seq<Ref>, gotLock: bool)
      modifies this
      ensures forall m: Ref :: Copies(m) == old(Copies(m)) + (if n != NULL && m == n then 1 else 0)
      ensures forall m | Reusable(m) > old(Reusable(m)) :: m !in published
      ensures n != NULL && n in published ==> n in tlHazard
      ensures gHazard == old(gHazard) && (!gotLock ==> gClean == old(gClean))
    {
      if n == NULL { return; }
      if n in published { PutAside(n, published); } else { PutAtHand(n, gotLock); }
    }

    method PutAtHand(n: Ref, gotLock: bool)
      modifies this
      ensures tlHazard == old(tlHazard) && gHazard == old(gHazard) && (!gotLock ==> gClean == old(gClean))
      ensures forall m: Ref :: Reusable(m) == old(Reusable(m)) + (if m == n then 1 else 0)
    {
      if |tlClean| <= 1 {
        tlClean := tlClean + [n];
      } else if gotLock {
        gClean := gClean + [n];
      } else if |tlClean| >= AGGREGATION_THRESHOLD {
        assert tlClean == [tlClean[0]] + tlClean[1..];
        stack := [n] + stack;
        stack := [tlClean[0]] + stack;
        tlClean := tlClean[1..];
      } else {
        tlClean := tlClean + [n];
      }
    }

    method PutAside(n: Ref, published: seq<Ref>)
      requires n in published
      modifies this
      ensures forall m: Ref :: Copies(m) == old(Copies(m)) + (if m == n then 1 else 0)
      ensures forall m | Reusable(m) > old(Reusable(m)) :: m !in published
      ensures n in tlHazard && gHazard == old(gHazard) && gClean == old(gClean)
    {
      if |tlHazard| >= SCAN_THRESHOLD { Drain(published); }
      tlHazard := tlHazard + [n];
    }

    method Drain(published: seq<Ref>)
      modifies this
      ensures forall m: Ref :: Copies(m) == old(Copies(m))
      ensures forall m | Reusable(m) > old(Reusable(m)) :: m !in published
      ensures gHazard == old(gHazard) && gClean == old(gClean)
    {
      var ans := PopStill(false, published);
      if ans.Some? { tlClean := tlClean + [ans.value]; }
    }

    /** The front of the locked list, and up to twenty more of its nodes for the stack. */
    method PopLocked() returns (ans: Option<Ref>)
      modifies this
      ensures ans == if old(gClean) == [] then None else Some(old(gClean)[0])
      ensures tlClean == old(tlClean) && tlHazard == old(tlHazard) && gHazard == old(gHazard)
      ensures ans.None? ==> stack == old(stack)
      ensures forall m: Ref :: Reusable(m) + (if ans == Some(m) then 1 else 0) == old(Reusable(m))
    {
      if gClean == [] { return None; }
      ans := Some(gClean[0]);
      assert gClean == [gClean[0]] + gClean[1..];
      gClean := gClean[1..];
      if |gClean| >= AGGREGATION_THRESHOLD {
        ghost var g, k := gClean, stack;
        for i := 0 to AGGREGATION_THRESHOLD
          invariant |gClean| == |g| - i && tlClean == old(tlClean) && tlHazard == old(tlHazard) && gHazard == old(gHazard)
          invariant forall m :: multiset(gClean)[m] + multiset(stack)[m] == multiset(g)[m] + multiset(k)[m]
        {
          assert gClean == [gClean[0]] + gClean[1..];
          stack := [gClean[0]] + stack;
          gClean := gClean[1..];
        }
      }
    }

    /** What can be given away without a scan. */
    method PopClean(gotLock: bool) returns (ans: Option<Ref>)
      modifies this
      ensures tlHazard == old(tlHazard) && gHazard == old(gHazard)
      ensures forall m: Ref :: Reusable(m) + (if ans == Some(m) then 1 else 0) == old(Reusable(m))
      ensures ans.None? ==> old(tlClean) == [] && old(stack) == [] && (gotLock ==> old(gClean) == [])
      ensures !gotLock ==> gClean == old(gClean)
    {
      if tlClean != [] {
        assert tlClean == [tlClean[0]] + tlClean[1..];
        ans := Some(tlClean[0]);
        tlClean := tlClean[1..];
        return;
      }
      if gotLock {
        ans := PopLocked();
        if ans.Some? { return; }
      }
      if stack == [] { return None; }
      assert stack == [stack[0]] + stack[1..];
      ans := Some(stack[0]);
      stack := stack[1..];
    }

    /** pop: what is clean goes first, then what a new scan finds free; gotLock and gotLock2
        say which locks could be taken, published and published2 what the scans report. */
    method Pop(gotLock: bool, published: seq<Ref>, gotLock2: bool, published2: seq<Ref>) returns (ans: Option<Ref>)
      modifies this
      ensures forall m: Ref :: Copies(m) + (if ans == Some(m) then 1 else 0) == old(Copies(m))
      ensures forall m | Reusable(m) > old(Reusable(m)) :: m !in published || m !in published2
      ensures ans.Some? && old(Reusable(ans.value)) == 0 ==> ans.value !in published || ans.value !in published2
      ensures ans.None? ==> old(tlClean) == [] && old(stack) == [] && (gotLock ==> old(gClean) == [])
      ensures (!gotLock ==> gClean == old(gClean)) && (!gotLock2 ==> gHazard == old(gHazard))
      ensures ans.None? ==> Without(old(tlHazard), published) == [] && (gotLock2 ==> Without(old(gHazard), published2) == [])
    {
      ans := PopClean(gotLock);
      if ans.Some? { return; }
      ans := PopStill(false, published);
      if ans.None? && gotLock2 { ans := PopStill(true, published2); }
    }
  }

  /** A single node is either free or held. */
  lemma OneSplits(s: seq<Ref>, published: seq<Ref>)
    requires |s| == 1
    ensures Without(s, published) == (if s[0] in published then [] else s)
    ensures multiset(Held(s, published)) == multiset(if s[0] in published then s else [])
  {
    assert Without(s[1..], published) == [];
    ScanSplits(s, published, s[0]);
  }
}
