/** One size class of the small-memory allocator, without interference: a list of slot
    groups with a cursor that says where unassigned slots were last found, the slots that
    were given back, and the search for a slot. */
module SlotList {
  import opened Reclaim
  import opened SlotLayout

  /** A slot group and how many of its slots have been assigned; ap_unassigned_slot_ is
      the address of the slot behind them. */
  datatype Group = Group(layout: Layout, taken: nat)

  predicate Sound(g: Group) { Proper(g.layout) && g.taken <= SlotCount(g.layout) }

  /** is_assigned_all_slots */
  predicate IsFull(g: Group)
    requires Proper(g.layout)
  {
    End(g.layout) <= SlotAt(g.layout, g.taken)
  }

  lemma FullIsAll(g: Group)
    requires Sound(g)
    ensures IsFull(g) <==> g.taken == SlotCount(g.layout)
  {
    if g.taken < SlotCount(g.layout) { SlotsFollow(g.layout, g.taken, SlotCount(g.layout)); }
  }

  /** Slot k of group i is s, and the group lies where the layout says. */
  ghost predicate Owns(groups: seq<Group>, l: Layout, s: nat, i: nat, k: nat) {
    i < |groups| && k < groups[i].taken && s == SlotAt(groups[i].layout, k) && groups[i].layout == l
  }

  ghost predicate OwnedBy(groups: seq<Group>, l: Layout, s: nat) {
    exists i: nat, k: nat :: Owns(groups, l, s, i, k)
  }

  /** The header of an assigned slot: its group and the used flag. */
  datatype Header = Header(group: Layout, used: bool)

  /** The assigned slots of the groups are the slots that have a header. */
  ghost predicate Headed(groups: seq<Group>, slots: map<nat, Header>) {
    && (forall s | s in slots :: OwnedBy(groups, slots[s].group, s))
    && (forall i: nat, k: nat | i < |groups| && k < groups[i].taken :: SlotAt(groups[i].layout, k) in slots)
  }

  ghost predicate SameLayouts(a: seq<Group>, b: seq<Group>) {
    |a| == |b| && forall i | 0 <= i < |a| :: a[i].layout == b[i].layout
  }

  ghost predicate Shaped(groups: seq<Group>, allocatable: nat) {
    && (forall i | 0 <= i < |groups| :: Sound(groups[i]) && groups[i].layout.slot == SlotSize(allocatable))
    && (forall i, j | 0 <= i < |groups| && 0 <= j < |groups| && i != j :: !Overlap(groups[i].layout, groups[j].layout))
  }

  /** Only the head group can have unassigned slots. */
  ghost predicate OnlyHeadOpen(groups: seq<Group>) {
    forall i | 1 <= i < |groups| :: Sound(groups[i]) && IsFull(groups[i])
  }

  /** Every slot of every group has been assigned. */
  ghost predicate AllFull(groups: seq<Group>) {
    forall i | 0 <= i < |groups| :: Sound(groups[i]) && IsFull(groups[i])
  }

  /** Exactly the slots that are not in use wait. */
  ghost predicate AllWait(retrieved: set<nat>, slots: map<nat, Header>) {
    forall s: nat :: s in retrieved <==> s in slots && !slots[s].used
  }

  predicate Overlap(a: Layout, b: Layout) { a.base < b.base + b.buffer && b.base < a.base + a.buffer }

  /** How far the search over n groups may still go, when it looks at group p and the shared
      cursor is at cur. */
  function Left(headFull: bool, n: nat, cur: nat, p: nat): nat
    requires cur < n
  {
    if headFull then 2 * (if cur == 0 then n else n - cur) + (if p == cur then 0 else 1)
    else if p == 0 then 0
    else if cur == 0 then 1
    else 2 + 2 * (n - cur) + (if p == cur then 0 else 1)
  }

  /** memory_slot_group_list; the groups from the head on, cur the index of the group that
      ap_cur_assigning_memory_slot_group_ names. */
  class List {
    const allocatable: nat
    const limit: nat
    var nextBytes: nat
    var groups: seq<Group>
    var cur: nat
    var slots: map<nat, Header>
    /** the slots that wait in the retrieved-slots manager */
    var retrieved: set<nat>

    ghost predicate Valid()
      reads this
    {
      && Shaped(groups, allocatable) && OnlyHeadOpen(groups) && Headed(groups, slots)
      && (groups != [] ==> cur < |groups|)
      && nextBytes >= MinimumBuffer(allocatable) && limit >= MinimumBuffer(allocatable)
      && AllWait(retrieved, slots)
    }

    constructor (allocatable: nat, firstBytes: nat, limit: nat)
      requires limit >= MinimumBuffer(allocatable)
      ensures Valid() && groups == [] && slots == map[] && this.allocatable == allocatable
    {
      this.allocatable, this.limit := allocatable, limit;
      nextBytes := Max(MinimumBuffer(allocatable), firstBytes);
      groups, cur, slots, retrieved := [], 0, map[], {};
    }

    /** The loop of allocate_impl over the groups: p is p_cur_memory_slot_group_target.  The
        search ends; it finds the group with unassigned slots if there is one. */
    method FindOpen() returns (found: bool)
      requires Valid() && groups != []
      modifies this`cur
      ensures Valid()
      ensures found <==> !IsFull(groups[0])
      ensures found <==> !AllFull(groups)
    {
      var p: nat := cur;
      while true
        invariant p < |groups| && cur < |groups| && Valid()
        decreases Left(IsFull(groups[0]), |groups|, cur, p)
      {
        if IsFull(groups[p]) {
          var next := if p + 1 < |groups| then p + 1 else 0;
          if cur != p {
            p := cur;
            continue;
          }
          cur := next;
          if IsFull(groups[next]) {
            if next == 0 { return false; }
            p := 0;
            continue;
          }
        }
        if !IsFull(groups[p]) {
          assert p == 0;
          return true;
        }
      }
    }

    /** A slot that was given back is used again; it keeps its group. */
    method Reuse(s: nat)
      requires Valid() && s in retrieved
      modifies this`slots, this`retrieved
      ensures Valid() && slots == old(slots)[s := Header(old(slots)[s].group, true)] && retrieved == old(retrieved) - {s}
    {
      FlagKeeps(groups, slots, s, true);
      slots := slots[s := slots[s].(used := true)];
      retrieved := retrieved - {s};
    }

    /** assign_new_slot of the head group: the slot has never been assigned. */
    method AssignNewSlot() returns (s: nat)
      requires Valid() && groups != [] && !IsFull(groups[0])
      modifies this`groups, this`slots
      ensures Valid() && SameLayouts(groups, old(groups))
      ensures s !in old(slots) && slots == old(slots)[s := Header(groups[0].layout, true)]
    {
      var g := groups[0];
      s := SlotAt(g.layout, g.taken);
      AssignOne(groups, slots, allocatable);
      StillWait(retrieved, slots, s, g.layout);
      var next := groups[0 := g.(taken := g.taken + 1)];
      slots := slots[s := Header(g.layout, true)];
      groups := next;
    }

    /** allocate_impl: offer is the slot that the manager of the slots given back answers
        with, if any; without one it is the next unassigned slot of the open group.  It fails
        exactly when there is no offer and every slot of every group has been assigned. */
    method Allocate(offer: Option<nat>) returns (r: Option<nat>)
      requires Valid() && (offer.Some? ==> offer.value in retrieved)
      modifies this`cur, this`groups, this`slots, this`retrieved
      ensures Valid() && SameLayouts(groups, old(groups))
      ensures r.None? <==> offer.None? && AllFull(old(groups))
      ensures r.None? || offer.Some? ==> groups == old(groups)
      ensures r.None? ==> slots == old(slots)
      ensures offer.Some? ==> r == offer && r.value in old(slots) && !old(slots)[r.value].used
      ensures offer.None? && r.Some? ==> r.value !in old(slots)
      ensures r.Some? ==> r.value in slots && slots == old(slots)[r.value := Header(slots[r.value].group, true)]
      ensures offer.Some? ==> slots[r.value].group == old(slots)[r.value].group
      ensures retrieved == if offer.Some? then old(retrieved) - {offer.value} else old(retrieved)
    {
      if offer.Some? {
        Reuse(offer.value);
        return offer;
      }
      if groups == [] { return None; }
      var found := FindOpen();
      if !found { return None; }
      var s := AssignNewSlot();
      r := Some(s);
    }

    /** deallocate: true exactly for a slot in use, which then waits for its next user; a
        second call before it is used again returns false and changes nothing. */
    method Deallocate(s: nat) returns (ok: bool)
      requires Valid() && s in slots
      modifies this`slots, this`retrieved
      ensures Valid() && ok == old(slots)[s].used
      ensures slots == old(slots)[s := Header(old(slots)[s].group, false)]
    {
      ok := slots[s].used;
      if !ok { return; }
      FlagKeeps(groups, slots, s, false);
      slots := slots[s := slots[s].(used := false)];
      retrieved := retrieved + {s};
    }

    /** request_allocate_memory_slot_group: base is what the allocator underneath returns;
        it is called after an allocation that has failed. */
    method RequestGroup(base: Option<nat>)
      requires Valid() && AllFull(groups)
      requires base.Some? ==> base.value % UNIT == 0
      requires base.Some? ==> forall i | 0 <= i < |groups| :: !Overlap(Layout(base.value, nextBytes, SlotSize(allocatable)), groups[i].layout)
      modifies this`groups, this`cur, this`nextBytes
      ensures Valid()
      ensures base.None? ==> groups == old(groups) && nextBytes == old(nextBytes)
      ensures base.Some? ==> nextBytes <= limit && (nextBytes == limit || nextBytes == 2 * old(nextBytes)) && nextBytes <= 2 * old(nextBytes)
      ensures base.Some? ==> groups == [Group(Layout(base.value, old(nextBytes), SlotSize(allocatable)), 0)] + old(groups)
      ensures base.Some? ==> !IsFull(groups[0])
    {
      if base.None? { return; }
      var g := Group(Layout(base.value, nextBytes, SlotSize(allocatable)), 0);
      NewGroupIsOpen(g, allocatable);
      AddGroup(g, groups, slots, allocatable);
      cur := if groups == [] then 0 else cur + 1;
      groups := [g] + groups;
      nextBytes := if limit < nextBytes * 2 then limit else nextBytes * 2;
    }
  }

  lemma FlagKeeps(groups: seq<Group>, slots: map<nat, Header>, s: nat, used: bool)
    requires Headed(groups, slots) && s in slots
    ensures Headed(groups, slots[s := slots[s].(used := used)])
  {
  }

  lemma NewGroupIsOpen(g: Group, allocatable: nat)
    requires g.layout.base % UNIT == 0 && g.layout.slot == SlotSize(allocatable)
    requires g.layout.buffer >= MinimumBuffer(allocatable) && g.taken == 0
    ensures Sound(g) && !IsFull(g)
  {
    SlotSizeFits(allocatable);
    SlotsTile(g.layout);
    FullIsAll(g);
  }

  lemma AddGroupHeaded(g: Group, groups: seq<Group>, slots: map<nat, Header>)
    requires g.taken == 0 && Headed(groups, slots)
    ensures Headed([g] + groups, slots)
  {
    var all := [g] + groups;
    forall s | s in slots ensures OwnedBy(all, slots[s].group, s) {
      var i: nat, k: nat :| Owns(groups, slots[s].group, s, i, k);
      assert Owns(all, slots[s].group, s, i + 1, k);
    }
    forall i: nat, k: nat | i < |all| && k < all[i].taken ensures SlotAt(all[i].layout, k) in slots {
      assert all[i] == groups[i - 1];
    }
  }

  /** A group in front of groups that are full. */
  lemma AddGroup(g: Group, groups: seq<Group>, slots: map<nat, Header>, allocatable: nat)
    requires Sound(g) && g.taken == 0 && g.layout.slot == SlotSize(allocatable)
    requires Shaped(groups, allocatable) && Headed(groups, slots)
    requires forall i | 0 <= i < |groups| :: IsFull(groups[i]) && !Overlap(g.layout, groups[i].layout)
    ensures Shaped([g] + groups, allocatable) && OnlyHeadOpen([g] + groups) && Headed([g] + groups, slots)
  {
    AddGroupHeaded(g, groups, slots);
  }

  lemma StillWait(retrieved: set<nat>, slots: map<nat, Header>, s: nat, l: Layout)
    requires AllWait(retrieved, slots) && s !in slots
    ensures AllWait(retrieved, slots[s := Header(l, true)])
  {
  }

  /** The head group assigns its next slot. */
  lemma AssignOne(groups: seq<Group>, slots: map<nat, Header>, allocatable: nat)
    requires groups != [] && Shaped(groups, allocatable) && OnlyHeadOpen(groups) && Headed(groups, slots)
    requires !IsFull(groups[0])
    ensures var g := groups[0];
            var s, next := SlotAt(g.layout, g.taken), groups[0 := g.(taken := g.taken + 1)];
            && s !in slots && SameLayouts(next, groups) && next[0].layout == g.layout
            && Shaped(next, allocatable) && OnlyHeadOpen(next) && Headed(next, slots[s := Header(g.layout, true)])
  {
    var g := groups[0];
    var s, next := SlotAt(g.layout, g.taken), groups[0 := g.(taken := g.taken + 1)];
    FullIsAll(g);
    NewIsUnassigned(groups, slots, allocatable);
    assert Owns(next, g.layout, s, 0, g.taken);
    forall t | t in slots ensures OwnedBy(next, slots[t].group, t) {
      var i: nat, k: nat :| Owns(groups, slots[t].group, t, i, k);
      assert Owns(next, slots[t].group, t, i, k);
    }
  }

  /** The slot behind the assigned ones of the head is in no group an assigned one. */
  lemma NewIsUnassigned(groups: seq<Group>, slots: map<nat, Header>, allocatable: nat)
    requires groups != [] && Shaped(groups, allocatable) && Headed(groups, slots)
    requires groups[0].taken < SlotCount(groups[0].layout)
    ensures SlotAt(groups[0].layout, groups[0].taken) !in slots
  {
    var g := groups[0];
    var s := SlotAt(g.layout, g.taken);
    SlotInBuffer(g.layout, g.taken);
    if s in slots {
      var i: nat, k: nat :| Owns(groups, slots[s].group, s, i, k);
      if i == 0 { SlotsFollow(g.layout, k, g.taken); } else { SlotInBuffer(groups[i].layout, k); }
      assert false;
    }
  }

  lemma SlotInBuffer(l: Layout, k: nat)
    requires Proper(l) && k < SlotCount(l)
    ensures l.base + GROUP_HEADER <= SlotAt(l, k) && SlotAt(l, k) + l.slot <= l.base + l.buffer
  {
    SlotsTile(l);
    SlotsFollow(l, k, SlotCount(l));
    Monotone(0, k, l.slot);
  }
}
