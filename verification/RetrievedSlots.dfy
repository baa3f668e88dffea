/** The slots that were given back: an intrusive stack with a head and a count, and the four
    stacks from which a slot is taken again.  What the hazard slots hold and which attempts
    succeed are parameters of each call. */
module RetrievedSlots {
  import opened Reclaim
  import opened SimpleList

  /** retrieved_slots_stack */
  class Stack {
    const mem: Memory
    var head: Ref
    var count: nat
    ghost var nodes: seq<Ref>

    ghost predicate Valid()
      reads this, mem
    {
      Hangs(mem.next, nodes) && head == Head(nodes) && count == |nodes|
    }

    constructor (mem: Memory)
      ensures this.mem == mem && Valid() && nodes == []
    {
      this.mem := mem;
      head, count, nodes := NULL, 0, [];
    }

    method Push(n: Ref)
      requires Valid() && n !in nodes
      modifies this, mem
      ensures Valid() && nodes == if n == NULL then old(nodes) else [n] + old(nodes)
      ensures forall m | m != n :: NextOf(mem.next, m) == NextOf(old(mem.next), m)
    {
      if n == NULL { return; }
      var next := mem.next[n := head];
      HangsPushed(mem.next, next, n, nodes);
      mem.next := next;
      head := n;
      count := count + 1;
      nodes := [n] + nodes;
    }

    method Pop() returns (n: Ref)
      requires Valid()
      modifies this
      ensures Valid() && n == Head(old(nodes)) && nodes == if n == NULL then [] else old(nodes)[1..]
      ensures old(nodes) != [] ==> n != NULL
    {
      n := head;
      assert [] + nodes == nodes;
      HeadNull(mem.next, [], nodes);
      if n == NULL { return; }
      HangsTail(mem.next, nodes);
      head := NextOf(mem.next, n);
      count := count - 1;
      nodes := nodes[1..];
    }

    /** The stack takes over all of src: the links are walked to its last node. */
    method Merge(src: Stack)
      requires Valid() && src.Valid() && src != this && src.mem == mem && forall n | n in src.nodes :: n !in nodes
      modifies this, src, mem
      ensures Valid() && src.Valid() && nodes == old(src.nodes) + old(nodes) && src.nodes == []
    {
      var p := src.head;
      assert [] + src.nodes == src.nodes;
      HeadNull(mem.next, [], src.nodes);
      if p == NULL {
        assert nodes == src.nodes + nodes;
        return;
      }
      src.head := NULL;
      count := count + src.count;
      src.count := 0;
      var last := LastOf(mem, p, src.nodes);
      var next := mem.next[last := head];
      HangsBehind(mem.next, next, src.nodes, nodes);
      assert Head(src.nodes + nodes) == Head(src.nodes);
      hide Hangs, NextOf;
      nodes, src.nodes := src.nodes + nodes, [];
      HangsNothing(next);
      mem.next := next;
      head := p;
    }
  }

  /** The walk of merge to the node with a null link. */
  method LastOf(mem: Memory, p: Ref, ghost s: seq<Ref>) returns (last: Ref)
    requires Hangs(mem.next, s) && s != [] && p == Head(s)
    ensures last == Tail(s)
  {
    last := p;
    ghost var i := 0;
    while NextOf(mem.next, last) != NULL
      invariant 0 <= i < |s| && last == s[i]
      decreases |s| - i
    {
      last := NextOf(mem.next, last);
      i := i + 1;
    }
    assert s[..i + 1] + s[i + 1..] == s;
    HeadNull(mem.next, s[..i + 1], s[i + 1..]);
  }

  lemma HangsNothing(m: Links)
    ensures Hangs(m, [])
  {
  }

  lemma HangsBehind(m: Links, next: Links, a: seq<Ref>, b: seq<Ref>)
    requires Hangs(m, a) && Hangs(m, b) && a != [] && (forall n | n in a :: n !in b) && next == m[Tail(a) := Head(b)]
    ensures Hangs(next, a + b)
  {
    if b == [] {
      assert a[|a| - 1..][1..] == [] && a + b == a && NextOf(m, Tail(a)) == NULL;
      HangsFrame(m, next, a);
    } else {
      HangsConcat(m, next, a, b);
    }
  }

  // ---- the four stacks ----

  function Weight(size: map<Ref, nat>, n: Ref): nat { Get(size, n, 0) }

  function Sum(s: seq<Ref>, size: map<Ref, nat>): nat {
    if s == [] then 0 else Weight(size, s[0]) + Sum(s[1..], size)
  }

  lemma {:induction false} SumSame(s: seq<Ref>, a: map<Ref, nat>, b: map<Ref, nat>)
    requires forall n | n in s :: Weight(a, n) == Weight(b, n)
    ensures Sum(s, a) == Sum(s, b)
  {
    if s != [] { SumSame(s[1..], a, b); }
  }

  lemma {:induction false} SumConcat(a: seq<Ref>, b: seq<Ref>, size: map<Ref, nat>)
    ensures Sum(a + b, size) == Sum(a, size) + Sum(b, size)
  {
    if a == [] {
      assert a + b == b;
    } else {
      SumConcat(a[1..], b, size);
      assert (a + b)[1..] == a[1..] + b;
    }
  }

  function One(p: Ref, m: Ref): nat { if m == p then 1 else 0 }

  /** How often a node is in s. */
  function Count(s: seq<Ref>, m: Ref): nat { multiset(s)[m] }

  lemma Pushed(p: Ref, s: seq<Ref>, size: map<Ref, nat>)
    ensures forall m :: Count([p] + s, m) == Count(s, m) + One(p, m)
    ensures Sum([p] + s, size) == Sum(s, size) + Weight(size, p)
  {
    assert ([p] + s)[1..] == s;
  }

  lemma Popped(s: seq<Ref>, size: map<Ref, nat>)
    requires s != []
    ensures forall m :: Count(s, m) == Count(s[1..], m) + One(s[0], m)
    ensures Sum(s, size) == Sum(s[1..], size) + Weight(size, s[0])
  {
    assert s == [s[0]] + s[1..];
  }

  lemma Emptied(size: map<Ref, nat>)
    ensures Sum([], size) == 0 && forall m :: Count([], m) == 0
  {
  }

  lemma Joined(a: seq<Ref>, b: seq<Ref>, size: map<Ref, nat>)
    ensures forall m :: Count(a + b, m) == Count(a, m) + Count(b, m)
    ensures Sum(a + b, size) == Sum(a, size) + Sum(b, size)
  {
    SumConcat(a, b, size);
  }

  lemma NotCounted(s: seq<Ref>, m: Ref)
    requires Count(s, m) == 0
    ensures m !in s
  {
  }

  function Reversed(s: seq<Ref>): seq<Ref> { if s == [] then [] else Reversed(s[1..]) + [s[0]] }

  lemma {:induction false} ReversedMembers(s: seq<Ref>, m: Ref)
    ensures m in Reversed(s) <==> m in s
  {
    if s != [] { ReversedMembers(s[1..], m); }
  }

  /** A slot that was given back, and what the hazard slots held at that time. */
  datatype Return = Return(p: Ref, hazards: set<Ref>)

  /** When p was given back last, no hazard slot held it. */
  predicate SeenFree(history: seq<Return>, p: Ref) {
    if history == [] then false
    else
      var last := history[|history| - 1];
      if last.p == p then p !in last.hazards else SeenFree(history[..|history| - 1], p)
  }

  lemma OneMoreReturn(history: seq<Return>, r: Return, p: Ref)
    ensures SeenFree(history + [r], p) == if r.p == p then p !in r.hazards else SeenFree(history, p)
  {
    assert (history + [r])[..|history|] == history;
  }

  /** One index of retrieved_slots_stack_array_mgr, as one thread sees it. */
  class Manager {
    /** the stacks of the thread */
    var clean: seq<Ref>
    var held: seq<Ref>
    /** the lock-free stack and the one behind a lock */
    var shared: seq<Ref>
    var locked: seq<Ref>
    /** every slot that was given back, the newest last */
    ghost var history: seq<Return>

    ghost function Copies(m: Ref): nat
      reads this
    {
      Count(clean, m) + Count(held, m) + Count(shared, m) + Count(locked, m)
    }

    ghost function Bytes(size: map<Ref, nat>): nat
      reads this
    {
      Sum(clean, size) + Sum(held, size) + Sum(shared, size) + Sum(locked, size)
    }

    ghost function Number(): nat
      reads this
    {
      |clean| + |held| + |shared| + |locked|
    }

    /** What can be handed out without a look at the hazard slots was in none of them when it
        was given back. */
    ghost predicate Sorted()
      reads this
    {
      forall p | p in clean || p in shared :: SeenFree(history, p)
    }

    constructor ()
      ensures Number() == 0 && Sorted() && forall m :: Copies(m) == 0
      ensures forall size :: Bytes(size) == 0
    {
      clean, held, shared, locked := [], [], [], [];
      history := [];
    }

    /** retrieve: hazards is what the hazard slots hold, pushed whether the one attempt on the
        lock-free stack succeeds. */
    method Retrieve(p: Ref, hazards: set<Ref>, pushed: bool, ghost size: map<Ref, nat>)
      modifies this
      ensures forall m :: Copies(m) == old(Copies(m)) + One(p, m)
      ensures Bytes(size) == old(Bytes(size)) + Weight(size, p) && Number() == old(Number()) + 1
      ensures locked == old(locked) && held == if p in hazards then [p] + old(held) else old(held)
      ensures clean == if p !in hazards && (old(clean) == [] || !pushed) then [p] + old(clean) else old(clean)
      ensures shared == if p !in hazards && old(clean) != [] && pushed then [p] + old(shared) else old(shared)
      ensures history == old(history) + [Return(p, hazards)]
      ensures old(Sorted()) && old(Copies(p)) == 0 ==> Sorted()
    {
      var stack := if p in hazards then held else if clean == [] || !pushed then clean else shared;
      Pushed(p, stack, size);
      ReturnKeeps(p, hazards);
      hide Count, Sum, One, Weight, SeenFree;
      if p in hazards {
        held := [p] + held;
      } else if clean == [] {
        clean := [p] + clean;
      } else if pushed {
        shared := [p] + shared;
      } else {
        clean := [p] + clean;
      }
      history := history + [Return(p, hazards)];
    }

    lemma ReturnKeeps(p: Ref, hazards: set<Ref>)
      ensures p !in hazards ==> SeenFree(history + [Return(p, hazards)], p)
      ensures Sorted() && Copies(p) == 0 ==> forall q | q in clean || q in shared :: SeenFree(history + [Return(p, hazards)], q)
    {
      OneMoreReturn(history, Return(p, hazards), p);
      if Copies(p) == 0 {
        NotCounted(clean, p);
        NotCounted(shared, p);
        forall q | q in clean || q in shared { OneMoreReturn(history, Return(p, hazards), q); }
      }
    }

    /** request_reuse: hazards is what the hazard slots hold, popped whether the one attempt
        on the lock-free stack succeeds, owned whether the lock is free.  What comes back was
        in no hazard slot when it was given back, or is in none now; without an answer no
        slot is lost. */
    method RequestReuse(hazards: set<Ref>, popped: bool, owned: bool, ghost size: map<Ref, nat>) returns (r: Option<Ref>)
      modifies this
      ensures old(clean) != [] ==> r == Some(old(clean)[0]) && clean == old(clean)[1..] && unchanged(`held, `shared, `locked)
      ensures old(clean) == [] && popped && old(shared) != [] ==>
                r == Some(old(shared)[0]) && shared == old(shared)[1..] && unchanged(`clean, `held, `locked)
      ensures old(clean) == [] && !(popped && old(shared) != []) ==>
                unchanged(`clean, `shared) && IsTaken(old(held), old(locked), hazards, owned, r, held, locked)
      ensures r.None? ==> Bytes(size) == old(Bytes(size)) && forall m :: Copies(m) == old(Copies(m))
      ensures r.Some? ==> forall m :: Copies(m) == old(Copies(m)) - One(r.value, m)
      ensures r.Some? ==> Bytes(size) == old(Bytes(size)) - Weight(size, r.value) && Number() == old(Number()) - 1
      ensures history == old(history)
      ensures old(Sorted()) ==> Sorted() && (r.Some? ==> SeenFree(history, r.value) || r.value !in hazards)
    {
      hide Count, Sum, One, Weight, SeenFree;
      if clean != [] { Popped(clean, size); }
      if clean != [] {
        r := Some(clean[0]);
        clean := clean[1..];
        return;
      }
      if shared != [] { Popped(shared, size); }
      if popped && shared != [] {
        r := Some(shared[0]);
        shared := shared[1..];
        return;
      }
      r := FromHeld(hazards, owned, size);
    }

    /** The last two attempts of request_reuse. */
    method FromHeld(hazards: set<Ref>, owned: bool, ghost size: map<Ref, nat>) returns (r: Option<Ref>)
      modifies this`held, this`locked
      ensures IsTaken(old(held), old(locked), hazards, owned, r, held, locked)
      ensures r.None? ==> Bytes(size) == old(Bytes(size)) && forall m :: Copies(m) == old(Copies(m))
      ensures r.Some? ==> forall m :: Copies(m) == old(Copies(m)) - One(r.value, m)
      ensures r.Some? ==> Bytes(size) == old(Bytes(size)) - Weight(size, r.value) && Number() == old(Number()) - 1
    {
      hide Count, Sum, One, Weight;
      if held != [] { Popped(held, size); }
      if held != [] {
        var p := held[0];
        held := held[1..];
        if p !in hazards { return Some(p); }
        held := [p] + held;
        assert held == old(held);
      }
      if locked != [] { Popped(locked, size); }
      if owned && locked != [] {
        var p := locked[0];
        locked := locked[1..];
        if p !in hazards { return Some(p); }
        Pushed(p, held, size);
        held := [p] + held;
      }
      r := None;
    }

    /** The end of the thread: its clean slots go one by one to the lock-free stack, the held
        ones as a whole to the locked one. */
    method Exit(ghost size: map<Ref, nat>)
      modifies this
      ensures clean == [] && held == [] && Bytes(size) == old(Bytes(size)) && forall m :: Copies(m) == old(Copies(m))
      ensures locked == old(held) + old(locked) && shared == Reversed(old(clean)) + old(shared)
      ensures history == old(history) && (old(Sorted()) ==> Sorted())
    {
      hide Count, Sum, One, Weight, SeenFree;
      ghost var was := clean;
      while clean != []
        invariant Bytes(size) == old(Bytes(size)) && held == old(held) && locked == old(locked) && history == old(history)
        invariant forall m :: Copies(m) == old(Copies(m))
        invariant Reversed(clean) + shared == Reversed(was) + old(shared)
        decreases |clean|
      {
        var p, rest := clean[0], clean[1..];
        Popped(clean, size);
        Pushed(p, shared, size);
        assert Reversed(rest) + ([p] + shared) == Reversed(clean) + shared;
        clean, shared := rest, [p] + shared;
      }
      assert shared == Reversed(was) + old(shared);
      forall p ensures p in shared <==> p in was || p in old(shared) { ReversedMembers(was, p); }
      Joined(held, locked, size);
      Emptied(size);
      locked, held := held + locked, [];
    }
  }

  /** Of the slots that were put aside the newest of the thread goes first, then the newest
      of the locked ones, which the thread puts aside itself if a hazard slot holds it. */
  predicate IsTaken(held: seq<Ref>, locked: seq<Ref>, hazards: set<Ref>, owned: bool, r: Option<Ref>, held2: seq<Ref>, locked2: seq<Ref>) {
    if held != [] && held[0] !in hazards then r == Some(held[0]) && held2 == held[1..] && locked2 == locked
    else if !owned || locked == [] then r == None && held2 == held && locked2 == locked
    else
      && locked2 == locked[1..]
      && if locked[0] in hazards then r == None && held2 == [locked[0]] + held else r == Some(locked[0]) && held2 == held
  }
}
