/** gmem_allocate and gmem_deallocate for small requests over a whole run without
    interference: which blocks are live, where they lie, and what a pointer that comes back
    resolves to. */
module Gmem {
  import opened Reclaim
  import opened SizeClasses
  import opened SlotLayout
  import opened SlotList

  /** What a header names: the group a slot belongs to, and the size class of the group. */
  datatype Home = Home(list: nat, group: Layout)

  /** The block that was placed in a slot last, and whether it is still in use. */
  datatype Issue = Issue(home: Home, n: nat, align: nat, live: bool)

  function Extra(align: nat): nat { if align > UNIT then align - 1 else 0 }

  predicate IsSlot(g: Layout, s: nat)
    requires Proper(g)
  {
    SlotIndex(g, s) >= 0 && s == SlotAt(g, SlotIndex(g, s))
  }

  predicate HomeOk(h: Home) {
    h.list < CLASSES && Proper(h.group) && h.group.slot == SlotSize(Allocatable(h.list))
  }

  /** The groups obtained so far lie apart from one another. */
  ghost predicate HomesOk(homes: seq<Home>) {
    && (forall i | 0 <= i < |homes| :: HomeOk(homes[i]))
    && (forall i, j | 0 <= i < |homes| && 0 <= j < |homes| && i != j :: !Overlap(homes[i].group, homes[j].group))
  }

  /** The block fits its slot, and the word in front of it names the slot's group. */
  ghost predicate IssueOk(homes: seq<Home>, words: map<nat, Home>, s: nat, b: Issue) {
    && b.home in homes && HomeOk(b.home) && IsSlot(b.home.group, s)
    && IsAlignment(b.align) && b.n + 1 + Extra(b.align) <= Allocatable(b.home.list)
    && HeaderAt(s, b.align) in words && words[HeaderAt(s, b.align)] == b.home
  }

  ghost predicate IssuesOk(homes: seq<Home>, words: map<nat, Home>, issues: map<nat, Issue>) {
    forall s | s in issues :: IssueOk(homes, words, s, issues[s])
  }

  ghost predicate GroupsKnown(groups: seq<Group>, i: nat, homes: seq<Home>) {
    forall k | 0 <= k < |groups| :: Home(i, groups[k].layout) in homes
  }

  /** The headers of a size class tell the same as the issues do. */
  ghost predicate Agree(slots: map<nat, Header>, i: nat, issues: map<nat, Issue>) {
    forall s | s in slots :: s in issues && issues[s].home == Home(i, slots[s].group) && issues[s].live == slots[s].used
  }

  /** The new group lies apart from all that was obtained before. */
  ghost predicate IsFresh(base: Option<nat>, bytes: nat, homes: seq<Home>) {
    base.Some? ==> base.value % UNIT == 0 && forall k | 0 <= k < |homes| :: !Overlap(Layout(base.value, bytes, 0), homes[k].group)
  }

  /** What a size class gets from outside during a request: the memory for a new group, and
      the slots that the manager of the slots given back offers at the two attempts. */
  datatype Supply = Supply(base: Option<nat>, first: Option<nat>, second: Option<nat>)

  ghost predicate CanOffer(l: List, w: Supply)
    reads l
  {
    (w.first.Some? ==> w.first.value in l.retrieved) && (w.second.Some? ==> w.second.value in l.retrieved)
  }

  /** The class has nothing to give: no slot is offered, every slot of every group has been
      assigned, and there is no memory for a new group. */
  ghost predicate Exhausted(l: List, w: Supply)
    reads l
  {
    w.base.None? && w.first.None? && w.second.None? && AllFull(l.groups)
  }

  class Allocator {
    const lists: seq<List>
    /** the header words in memory */
    var words: map<nat, Home>
    ghost var homes: seq<Home>
    ghost var issues: map<nat, Issue>

    ghost predicate Apart() {
      |lists| == CLASSES && forall i, j | 0 <= i < |lists| && 0 <= j < |lists| && i != j :: lists[i] != lists[j]
    }

    ghost predicate ListOk(i: nat, homes: seq<Home>, issues: map<nat, Issue>)
      requires i < |lists|
      reads lists[i]
    {
      && lists[i].Valid() && lists[i].allocatable == Allocatable(i)
      && GroupsKnown(lists[i].groups, i, homes) && Agree(lists[i].slots, i, issues)
    }

    ghost predicate InList(s: nat, issues: map<nat, Issue>)
      requires s in issues
      reads lists
    {
      issues[s].home.list < |lists| && s in lists[issues[s].home.list].slots
    }

    constructor (lists: seq<List>)
      requires |lists| == CLASSES && forall i, j | 0 <= i < |lists| && 0 <= j < |lists| && i != j :: lists[i] != lists[j]
      requires forall i | 0 <= i < |lists| :: lists[i].Valid() && lists[i].allocatable == Allocatable(i)
      requires forall i | 0 <= i < |lists| :: lists[i].groups == [] && lists[i].slots == map[]
      ensures Valid() && this.lists == lists && issues == map[] && homes == []
    {
      this.lists, words, homes, issues := lists, map[], [], map[];
    }

    ghost predicate Valid()
      reads this, lists
    {
      && Apart() && HomesOk(homes) && IssuesOk(homes, words, issues)
      && (forall i | 0 <= i < |lists| :: ListOk(i, homes, issues))
      && (forall s | s in issues :: InList(s, issues))
    }

    /** A slot of class i, from a new group if there is none. */
    method Obtain(i: nat, w: Supply) returns (got: Option<nat>)
      requires Valid() && i < CLASSES && IsFresh(w.base, lists[i].nextBytes, homes) && CanOffer(lists[i], w)
      modifies this`homes, lists[i]
      ensures HomesOk(homes) && IssuesOk(homes, words, issues)
      ensures forall j | 0 <= j < |lists| && j != i :: ListOk(j, homes, issues)
      ensures lists[i].Valid() && GroupsKnown(lists[i].groups, i, homes)
      ensures got.None? <==> old(Exhausted(lists[i], w))
      ensures got.None? ==> homes == old(homes) && lists[i].slots == old(lists[i].slots)
      ensures got.Some? ==> IsServed(old(lists[i].slots), lists[i].slots, got.value)
    {
      hide HomesOk, IssuesOk, GroupsKnown, Shaped, Headed, OnlyHeadOpen, AllWait, Agree, IsServed;
      var l := lists[i];
      assert ListOk(i, homes, issues);
      ghost var before := l.groups;
      ApartFromOwn(l, i, w.base, homes);
      var grown;
      got, grown := Serve(l, w);
      if grown {
        SlotSizeFits(l.allocatable);
        ghost var h := Home(i, l.groups[0].layout);
        AddHome(homes, h, words, issues);
        GroupsGrow(before, l.groups, i, homes);
        forall j | 0 <= j < |lists| && j != i ensures ListOk(j, homes + [h], issues) {
          assert ListOk(j, homes, issues);
          StillKnown(lists[j].groups, j, homes, h);
        }
        homes := homes + [h];
      } else {
        SameGroups(before, l.groups, i, homes);
      }
    }

    /** A block of n bytes from class i: the slot it lies in held no live block. */
    method AllocateFrom(i: nat, n: nat, align: nat, w: Supply) returns (r: Option<nat>, ghost s: nat)
      requires Valid() && i < CLASSES && IsFresh(w.base, lists[i].nextBytes, homes) && CanOffer(lists[i], w)
      requires IsAlignment(align) && Total(n, align) <= Allocatable(i)
      modifies this, lists[i]
      ensures Valid()
      ensures r.None? <==> old(Exhausted(lists[i], w))
      ensures r.None? ==> issues == old(issues) && homes == old(homes)
      ensures r.Some? ==> r.value == BlockAt(s, align) && IsPlaced(old(issues), issues, s, n, align)
      ensures r.Some? ==> s in issues && issues[s].home.list == i
    {
      hide HomesOk, IssuesOk, GroupsKnown, Shaped, Headed, OnlyHeadOpen, AllWait, Agree, Allocatable, BlockAt, HeaderAt, IsPlaced;
      var l := lists[i];
      ghost var was, before := l.slots, issues;
      assert ListOk(i, homes, issues);
      var got := Obtain(i, w);
      s := 0;
      if got.None? {
        forall t | t in issues ensures InList(t, issues) { assert t in before; }
        return None, s;
      }
      var slot := got.value;
      s := slot;
      var h := Home(i, l.slots[slot].group);
      OwnerIsHome(l.groups, l.slots, l.allocatable, i, homes, s);
      PlaceKeeps(homes, words, issues, h, s, n, align);
      ghost var next := issues[s := Issue(h, n, align, true)];
      forall j | 0 <= j < |lists| && j != i ensures ListOk(j, homes, next) {
        assert ListOk(j, homes, issues);
        OtherAgrees(homes, words, issues, lists[j].slots, h, s, n, align, j);
      }
      if s in issues { assert InList(s, issues); }
      ServedAgrees(homes, words, was, l.slots, issues, h, s, n, align);
      words := words[slot + LINK_OFFSET := h][HeaderAt(slot, align) := h];
      r := Some(BlockAt(slot, align));
      issues := next;
      forall t | t in issues ensures InList(t, issues) {
        if t != s { assert t in before; }
      }
    }

    /** What comes from outside during a request fits the state of the classes. */
    ghost predicate Suits(ws: seq<Supply>)
      reads this, lists
    {
      |ws| == |lists| && forall i | 0 <= i < |lists| :: IsFresh(ws[i].base, lists[i].nextBytes, homes) && CanOffer(lists[i], ws[i])
    }

    /** The classes that are exhausted. */
    ghost function EmptyClasses(ws: seq<Supply>): set<nat>
      reads lists
    {
      set i | 0 <= i < |lists| && i < |ws| && Exhausted(lists[i], ws[i])
    }

    /** The loop over the size classes; k is the one that the block comes from. */
    method Search(n: nat, align: nat, needed: nat, ws: seq<Supply>) returns (r: Outcome, ghost s: nat, ghost k: nat)
      requires Valid() && 0 < align && IsAlignment(align) && needed == Total(n, align) > 0 && Entry(needed) <= CLASSES && Suits(ws)
      modifies this, lists
      ensures Valid() && !r.BadAlignment?
      ensures r.Block? ==> r.p == BlockAt(s, align) && IsPlaced(old(issues), issues, s, n, align)
      ensures r.Block? ==> s in issues && issues[s].home.list == k && IsFirstOf(needed, k, old(EmptyClasses(ws)))
      ensures r.NoMemory? ==> issues == old(issues) && homes == old(homes)
      ensures r.NoMemory? ==> forall i | 0 <= i < CLASSES && needed <= Allocatable(i) :: i in old(EmptyClasses(ws))
    {
      assert Apart();
      hide Valid, IsFresh, Allocatable, BlockAt, IsPlaced, IsAlignment, Entry, Total, Exhausted, CanOffer;
      r, s, k := NoMemory, 0, 0;
      BeforeEntry(needed);
      var i := Entry(needed);
      while i < CLASSES
        invariant Valid() && i <= CLASSES && issues == old(issues) && homes == old(homes)
        invariant forall j | i <= j < CLASSES :: unchanged(lists[j])
        invariant forall j | 0 <= j < i && needed <= Allocatable(j) :: j in old(EmptyClasses(ws))
      {
        if needed <= Allocatable(i) {
          var got;
          got, s := AllocateFrom(i, n, align, ws[i]);
          if got.Some? {
            return Block(got.value), s, i;
          }
        }
        i := i + 1;
      }
    }

    /** gmem_allocate for requests that the size classes can serve; ws[i] is what class i gets
        from outside.  The block comes from the first class that is large enough and not
        exhausted; a request fails exactly when its size overflows or there is no such class. */
    method Allocate(n: nat, align: nat, ws: seq<Supply>) returns (r: Outcome, ghost s: nat, ghost k: nat)
      requires Valid() && n < WORD && align < WORD && Suits(ws)
      modifies this, lists
      ensures Valid()
      ensures r.BadAlignment? <==> !IsAlignment(align)
      ensures r.Block? ==> r.p == BlockAt(s, align) && IsPlaced(old(issues), issues, s, n, align)
      ensures r.Block? ==> Total(n, align) < WORD && s in issues && issues[s].home.list == k && IsFirstOf(Total(n, align), k, old(EmptyClasses(ws)))
      ensures !r.Block? ==> issues == old(issues) && homes == old(homes)
      ensures r.NoMemory? ==> Total(n, align) >= WORD || forall i | 0 <= i < CLASSES && Total(n, align) <= Allocatable(i) :: i in old(EmptyClasses(ws))
    {
      hide Valid, Suits, EmptyClasses, Allocatable, BlockAt, IsPlaced, Needed, Entry, Total, IsFirstOf;
      s, k := 0, 0;
      if !IsAlignment(align) { return BadAlignment, s, k; }
      var needed := Needed(n, align);
      NeededIs(n, align);
      if needed < n { return NoMemory, s, k; }
      r, s, k := Search(n, align, needed, ws);
    }

    /** The word in front of a block and the block's address lead back to its slot. */
    lemma LeadsBack(p: nat, s: nat)
      requires Valid() && IsBlock(p, s, issues)
      ensures p >= 8 && p - 8 in words && words[p - 8] == issues[s].home
      ensures PointsTo(issues[s].home.group, p, s) && p + issues[s].n < s + issues[s].home.group.slot
    {
      hide SlotIndex, SlotAt, HeaderAt, SlotSize, SlotCount, Begin, End, List.Valid, HomesOk, Allocatable, IsSlot;
      assert IssueOk(homes, words, s, issues[s]);
      LeadsToSlot(issues[s].home, s, issues[s].n, issues[s].align);
    }

    /** The slot that a pointer belongs to, by the word in front of it. */
    method Locate(p: nat, ghost s: nat) returns (list: int, slot: int)
      requires Valid() && IsBlock(p, s, issues)
      ensures list == issues[s].home.list && slot == s
    {
      hide Valid, IsBlock, SlotIndex, SlotAt;
      LeadsBack(p, s);
      var w := words[p - 8];
      var idx := SlotIndex(w.group, p);
      if idx < 0 { return -1, 0; }
      return w.list, SlotAt(w.group, idx);
    }

    /** The slot of a block goes back to its size class. */
    method Release(i: nat, s: nat) returns (ok: bool)
      requires Valid() && s in issues && issues[s].home.list == i
      modifies this`issues, lists
      ensures Valid()
      ensures ok == old(issues)[s].live && issues == old(issues)[s := old(issues)[s].(live := false)]
    {
      hide HomesOk, IssuesOk, GroupsKnown, Agree, Shaped, Headed, OnlyHeadOpen, AllWait, Allocatable;
      ghost var was := issues;
      assert InList(s, issues) && ListOk(i, homes, issues);
      FreeAgrees(issues, lists[i].slots, i, s);
      ok := lists[i].Deallocate(s);
      ghost var next := issues[s := issues[s].(live := false)];
      forall j | 0 <= j < |lists| && j != i ensures ListOk(j, homes, next) {
        assert ListOk(j, homes, issues);
        FreeElsewhere(issues, lists[j].slots, j, s);
      }
      FreeKeeps(homes, words, issues, s);
      issues := next;
      forall t | t in issues ensures InList(t, issues) { assert t in was; }
    }

    /** gmem_deallocate of null or of the block that slot s holds or held last: the pointer
        leads back to that slot, and the answer is true exactly if the block is live.  So a
        second call before the slot is used again returns false. */
    method Deallocate(p: nat, ghost s: nat) returns (ok: bool)
      requires Valid() && (p != 0 ==> IsBlock(p, s, issues))
      modifies this`issues, lists
      ensures Valid()
      ensures ok == (p != 0 && old(issues)[s].live)
      ensures issues == if p == 0 then old(issues) else old(issues)[s := old(issues)[s].(live := false)]
    {
      if p == 0 { return false; }
      hide Valid, BlockAt;
      var list, slot := Locate(p, s);
      if list < 0 { return false; }
      ok := Release(list, slot);
    }

    /** get_max_allocatable_size: from the block to the next slot, and no less than what
        was asked for. */
    method MaxAllocatable(p: nat, ghost s: nat) returns (m: int)
      requires Valid() && (p != 0 ==> IsBlock(p, s, issues))
      ensures p == 0 ==> m == 0
      ensures p != 0 ==> m > issues[s].n && p + m == s + issues[s].home.group.slot
    {
      if p == 0 { return 0; }
      hide Valid, IsBlock, SlotIndex, SlotAt;
      LeadsBack(p, s);
      var w := words[p - 8];
      var idx := SlotIndex(w.group, p);
      if idx < 0 { return 0; }
      m := SlotAt(w.group, idx + 1) - p;
    }

    /** The blocks of two slots, with the headers in front of them, share no byte, and
        they start at multiples of eight. */
    lemma BlocksDiffer(s: nat, t: nat)
      requires Valid() && s in issues && t in issues && s != t
      ensures var a, b := issues[s], issues[t];
              || BlockAt(s, a.align) + a.n <= HeaderAt(t, b.align)
              || BlockAt(t, b.align) + b.n <= HeaderAt(s, a.align)
      ensures BlockAt(s, issues[s].align) != BlockAt(t, issues[t].align) && BlockAt(s, issues[s].align) % UNIT == 0
    {
      assert IssueOk(homes, words, s, issues[s]) && IssueOk(homes, words, t, issues[t]);
      BlocksApart(homes, words, s, issues[s], t, issues[t]);
    }
  }

  /** The index of p is that of slot s, and the next slot follows s. */
  predicate PointsTo(g: Layout, p: nat, s: nat) {
    && Proper(g) && SlotIndex(g, p) >= 0
    && SlotAt(g, SlotIndex(g, p)) == s && SlotAt(g, SlotIndex(g, p) + 1) == s + g.slot
  }

  /** p is the address of the block that slot s holds or held last. */
  ghost predicate IsBlock(p: nat, s: nat, issues: map<nat, Issue>) {
    s in issues && issues[s].align > 0 && p == BlockAt(s, issues[s].align)
  }

  /** Class k is the first one that is large enough and not empty. */
  ghost predicate IsFirstOf(needed: nat, k: nat, empty: set<nat>) {
    && k < CLASSES && needed <= Allocatable(k) && k !in empty
    && forall i | 0 <= i < k && needed <= Allocatable(i) :: i in empty
  }

  datatype Outcome = Block(p: nat) | NoMemory | BadAlignment

  function Total(n: nat, align: nat): nat { n + 1 + Extra(align) }

  /** Slot s now holds the block, and it held no live one before. */
  ghost predicate IsPlaced(was: map<nat, Issue>, issues: map<nat, Issue>, s: nat, n: nat, align: nat) {
    && s in issues && issues == was[s := Issue(issues[s].home, n, align, true)]
    && (s in was ==> !was[s].live && was[s].home == issues[s].home)
  }

  lemma ApartFromOwn(l: List, i: nat, base: Option<nat>, homes: seq<Home>)
    requires GroupsKnown(l.groups, i, homes) && IsFresh(base, l.nextBytes, homes)
    ensures FreshFor(l, base)
  {
    forall k | base.Some? && 0 <= k < |l.groups| ensures !Overlap(Layout(base.value, l.nextBytes, 0), l.groups[k].layout) {
      assert Home(i, l.groups[k].layout) in homes;
    }
  }

  lemma AddHome(homes: seq<Home>, h: Home, words: map<nat, Home>, issues: map<nat, Issue>)
    requires HomesOk(homes) && IssuesOk(homes, words, issues) && HomeOk(h)
    requires forall k | 0 <= k < |homes| :: !Overlap(h.group, homes[k].group)
    ensures HomesOk(homes + [h]) && IssuesOk(homes + [h], words, issues)
  {
    hide Allocatable, IsSlot, HeaderAt;
  }

  lemma GroupsGrow(was: seq<Group>, groups: seq<Group>, i: nat, homes: seq<Home>)
    requires |groups| == |was| + 1 && forall k | 1 <= k < |groups| :: groups[k].layout == was[k - 1].layout
    requires GroupsKnown(was, i, homes)
    ensures GroupsKnown(groups, i, homes + [Home(i, groups[0].layout)])
  {
    forall k | 0 <= k < |groups| ensures Home(i, groups[k].layout) in homes + [Home(i, groups[0].layout)] {
      if k > 0 { assert Home(i, was[k - 1].layout) in homes; }
    }
  }

  lemma SameGroups(was: seq<Group>, groups: seq<Group>, i: nat, homes: seq<Home>)
    requires SameLayouts(groups, was) && GroupsKnown(was, i, homes)
    ensures GroupsKnown(groups, i, homes)
  {
  }

  lemma StillKnown(groups: seq<Group>, i: nat, homes: seq<Home>, h: Home)
    requires GroupsKnown(groups, i, homes)
    ensures GroupsKnown(groups, i, homes + [h])
  {
  }

  /** Slot s is now in use; it was not before, and every other slot is as it was. */
  ghost predicate IsServed(was: map<nat, Header>, slots: map<nat, Header>, s: nat) {
    && s in slots && slots == was[s := Header(slots[s].group, true)]
    && (s in was ==> !was[s].used && slots[s].group == was[s].group)
  }

  ghost predicate FreshFor(l: List, base: Option<nat>)
    reads l
  {
    base.Some? ==> base.value % UNIT == 0 && forall k | 0 <= k < |l.groups| :: !Overlap(Layout(base.value, l.nextBytes, 0), l.groups[k].layout)
  }

  /** One round of the loop of gmem_allocate_impl: a new group is asked for only when the
      class has no slot to give. */
  method Serve(l: List, w: Supply) returns (got: Option<nat>, grown: bool)
    requires l.Valid() && FreshFor(l, w.base) && CanOffer(l, w)
    modifies l
    ensures l.Valid()
    ensures got.None? <==> old(Exhausted(l, w))
    ensures got.None? ==> l.slots == old(l.slots)
    ensures got.Some? ==> IsServed(old(l.slots), l.slots, got.value)
    ensures w.first.Some? ==> got == w.first
    ensures grown <==> w.base.Some? && w.first.None? && old(AllFull(l.groups))
    ensures !grown ==> SameLayouts(l.groups, old(l.groups))
    ensures grown ==> |l.groups| == |old(l.groups)| + 1
    ensures grown ==> l.groups[0].layout == Layout(w.base.value, old(l.nextBytes), SlotSize(l.allocatable))
    ensures grown ==> forall k | 1 <= k < |l.groups| :: l.groups[k].layout == old(l.groups)[k - 1].layout
  {
    hide Shaped, Headed, OnlyHeadOpen, AllWait;
    grown := false;
    got := l.Allocate(w.first);
    if got.None? {
      l.RequestGroup(w.base);
      grown := w.base.Some?;
      got := l.Allocate(w.second);
    }
  }

  // ---- slots and blocks ----

  lemma IndexOfSlot(g: Layout, s: nat)
    requires Proper(g) && IsSlot(g, s)
    ensures var k := SlotIndex(g, s); 0 <= k < SlotCount(g) && s == SlotAt(g, k) && s % UNIT == 0
    ensures g.base <= s && s + g.slot <= g.base + g.buffer
  {
    var k := SlotIndex(g, s);
    ByteOfIndex(g, s, k);
    SlotAligned(g, k);
    SlotInBuffer(g, k);
  }

  lemma SlotHasIndex(g: Layout, k: nat)
    requires Proper(g) && k < SlotCount(g)
    ensures IsSlot(g, SlotAt(g, k))
  {
    IndexOfByte(g, SlotAt(g, k), k);
  }

  lemma SlotsOfOne(g: Layout, s: nat, t: nat)
    requires Proper(g) && IsSlot(g, s) && IsSlot(g, t) && s != t
    ensures s + g.slot <= t || t + g.slot <= s
  {
    IndexOfSlot(g, s);
    IndexOfSlot(g, t);
    var j, k := SlotIndex(g, s), SlotIndex(g, t);
    if j < k { SlotsFollow(g, j, k); } else { SlotsFollow(g, k, j); }
  }

  /** Two slots, of whatever groups, do not overlap. */
  lemma SlotsApart(homes: seq<Home>, h: Home, k: Home, s: nat, t: nat)
    requires HomesOk(homes) && h in homes && k in homes && IsSlot(h.group, s) && IsSlot(k.group, t) && (s != t || h != k)
    ensures s + h.group.slot <= t || t + k.group.slot <= s
  {
    if h == k {
      SlotsOfOne(h.group, s, t);
    } else {
      IndexOfSlot(h.group, s);
      IndexOfSlot(k.group, t);
    }
  }

  lemma BlockInHome(h: Home, s: nat, n: nat, align: nat)
    requires HomeOk(h) && IsSlot(h.group, s) && IsAlignment(align) && n + 1 + Extra(align) <= Allocatable(h.list)
    ensures s + LINK_OFFSET <= HeaderAt(s, align) && s + DATA_OFFSET <= BlockAt(s, align)
    ensures BlockAt(s, align) + n < s + h.group.slot && BlockAt(s, align) % UNIT == 0
  {
    IndexOfSlot(h.group, s);
    BlockInSlot(s, Allocatable(h.list), n, align);
  }

  // ---- what a call keeps ----

  lemma OwnerIsHome(groups: seq<Group>, slots: map<nat, Header>, allocatable: nat, i: nat, homes: seq<Home>, s: nat)
    requires Shaped(groups, allocatable) && Headed(groups, slots) && GroupsKnown(groups, i, homes) && HomesOk(homes) && s in slots
    ensures Home(i, slots[s].group) in homes && HomeOk(Home(i, slots[s].group)) && IsSlot(slots[s].group, s)
  {
    var j: nat, k: nat :| Owns(groups, slots[s].group, s, j, k);
    assert Sound(groups[j]);
    SlotHasIndex(groups[j].layout, k);
  }

  /** Placing a block in a slot leaves the headers of all other slots alone. */
  lemma PlaceKeeps(homes: seq<Home>, words: map<nat, Home>, issues: map<nat, Issue>, h: Home, s: nat, n: nat, align: nat)
    requires HomesOk(homes) && IssuesOk(homes, words, issues)
    requires h in homes && IsSlot(h.group, s) && IsAlignment(align) && n + 1 + Extra(align) <= Allocatable(h.list)
    ensures IssuesOk(homes, words[s + LINK_OFFSET := h][HeaderAt(s, align) := h], issues[s := Issue(h, n, align, true)])
  {
    var after := words[s + LINK_OFFSET := h][HeaderAt(s, align) := h];
    forall t | t in issues && t != s ensures IssueOk(homes, after, t, issues[t]) {
      OtherHeader(homes, h, s, n, align, t, issues[t], words);
    }
  }

  lemma OtherHeader(homes: seq<Home>, h: Home, s: nat, n: nat, align: nat, t: nat, b: Issue, words: map<nat, Home>)
    requires HomesOk(homes) && IssueOk(homes, words, t, b) && t != s
    requires h in homes && IsSlot(h.group, s) && IsAlignment(align) && n + 1 + Extra(align) <= Allocatable(h.list)
    ensures HeaderAt(t, b.align) != s + LINK_OFFSET && HeaderAt(t, b.align) != HeaderAt(s, align)
  {
    SlotsApart(homes, h, b.home, s, t);
    BlockInHome(h, s, n, align);
    BlockInHome(b.home, t, b.n, b.align);
  }

  /** A slot is in one group only. */
  lemma OneHome(homes: seq<Home>, h: Home, k: Home, s: nat)
    requires HomesOk(homes) && h in homes && k in homes && IsSlot(h.group, s) && IsSlot(k.group, s)
    ensures h == k
  {
    if h != k { SlotsApart(homes, h, k, s, s); }
  }

  lemma OtherAgrees(homes: seq<Home>, words: map<nat, Home>, issues: map<nat, Issue>, slots: map<nat, Header>,
                    h: Home, s: nat, n: nat, align: nat, j: nat)
    requires HomesOk(homes) && IssuesOk(homes, words, issues) && Agree(slots, j, issues)
    requires h in homes && IsSlot(h.group, s) && h.list != j
    ensures Agree(slots, j, issues[s := Issue(h, n, align, true)])
  {
    if s in slots {
      assert IssueOk(homes, words, s, issues[s]);
      OneHome(homes, h, issues[s].home, s);
    }
  }

  lemma ServedAgrees(homes: seq<Home>, words: map<nat, Home>, was: map<nat, Header>, slots: map<nat, Header>,
                     issues: map<nat, Issue>, h: Home, s: nat, n: nat, align: nat)
    requires HomesOk(homes) && IssuesOk(homes, words, issues) && Agree(was, h.list, issues)
    requires IsServed(was, slots, s) && h.group == slots[s].group && h in homes && IsSlot(h.group, s)
    requires s in issues && issues[s].home.list == h.list ==> s in was
    ensures Agree(slots, h.list, issues[s := Issue(h, n, align, true)])
    ensures IsPlaced(issues, issues[s := Issue(h, n, align, true)], s, n, align)
  {
    if s in issues {
      assert IssueOk(homes, words, s, issues[s]);
      OneHome(homes, h, issues[s].home, s);
    }
  }

  lemma BlocksApart(homes: seq<Home>, words: map<nat, Home>, s: nat, a: Issue, t: nat, b: Issue)
    requires HomesOk(homes) && IssueOk(homes, words, s, a) && IssueOk(homes, words, t, b) && s != t
    ensures BlockAt(s, a.align) + a.n <= HeaderAt(t, b.align) || BlockAt(t, b.align) + b.n <= HeaderAt(s, a.align)
    ensures BlockAt(s, a.align) != BlockAt(t, b.align) && BlockAt(s, a.align) % UNIT == 0
  {
    SlotsApart(homes, a.home, b.home, s, t);
    BlockInHome(a.home, s, a.n, a.align);
    BlockInHome(b.home, t, b.n, b.align);
  }

  lemma BeforeEntry(needed: nat)
    requires needed > 0
    ensures forall j | 0 <= j < CLASSES && j < Entry(needed) :: needed > Allocatable(j)
  {
    forall j | 0 <= j < CLASSES && j < Entry(needed) ensures needed > Allocatable(j) { EntryIsExact(needed, j); }
  }

  lemma NeededIs(n: nat, align: nat)
    requires n < WORD && 0 < align < WORD
    ensures Needed(n, align) < n <==> Total(n, align) >= WORD
    ensures Total(n, align) < WORD ==> Needed(n, align) == Total(n, align) > 0 && Entry(Total(n, align)) <= CLASSES
  {
    OverflowIsExact(n, align);
    EntryIsExact(Total(n, align), CLASSES - 1);
  }

  lemma LeadsToSlot(h: Home, s: nat, n: nat, align: nat)
    requires HomeOk(h) && IsSlot(h.group, s) && IsAlignment(align) && n + 1 + Extra(align) <= Allocatable(h.list)
    ensures PointsTo(h.group, BlockAt(s, align), s) && BlockAt(s, align) + n < s + h.group.slot
  {
    hide Allocatable, HeaderAt, SlotSize;
    var g, k := h.group, SlotIndex(h.group, s);
    BlockInHome(h, s, n, align);
    IndexOfSlot(g, s);
    IndexOfByte(g, BlockAt(s, align), k);
    SlotsFollow(g, k, k + 1);
  }

  lemma FreeKeeps(homes: seq<Home>, words: map<nat, Home>, issues: map<nat, Issue>, s: nat)
    requires IssuesOk(homes, words, issues) && s in issues
    ensures IssuesOk(homes, words, issues[s := issues[s].(live := false)])
  {
    hide Allocatable, IsSlot, HeaderAt;
    assert IssueOk(homes, words, s, issues[s]);
  }

  lemma FreeAgrees(issues: map<nat, Issue>, slots: map<nat, Header>, i: nat, s: nat)
    requires Agree(slots, i, issues) && s in slots
    ensures Agree(slots[s := Header(slots[s].group, false)], i, issues[s := issues[s].(live := false)])
    ensures issues[s].live == slots[s].used
  {
  }

  lemma FreeElsewhere(issues: map<nat, Issue>, slots: map<nat, Header>, j: nat, s: nat)
    requires Agree(slots, j, issues) && s in issues && issues[s].home.list != j
    ensures Agree(slots, j, issues[s := issues[s].(live := false)])
  {
  }
}
