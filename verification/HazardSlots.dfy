/** The hazard slots of one thread: a list of groups of seven slots each, assigned by a
    ring search that starts at a hint. */
module HazardSlots {
  import opened Reclaim

  /** kArraySize */
  const GROUP_SIZE: nat := 7

  /** What slot_assign publishes instead of a null pointer. */
  const NULL_MARK: Ref := 1

  function Stored(p: Ref): Ref { if p == NULL then NULL_MARK else p }

  /** k is the first free slot at or after the hint, going round. */
  ghost predicate FirstFree(s: seq<Ref>, hint: nat, k: nat)
    requires hint < |s|
  {
    && k < |s| && s[k] == NULL
    && forall j | 0 <= j < |s| && s[j] == NULL :: if hint <= k then (j >= k || j < hint) else k <= j < hint
  }

  predicate IsFull(s: seq<Ref>) {
    forall j | 0 <= j < |s| :: s[j] != NULL
  }

  /** The pointers of a group in slot order, without the free slots. */
  function Published(s: seq<Ref>): seq<Ref> {
    if s == [] then [] else (if s[0] == NULL then [] else [s[0]]) + Published(s[1..])
  }

  lemma {:induction false} PublishedSnoc(s: seq<Ref>, p: Ref)
    ensures Published(s + [p]) == Published(s) + (if p == NULL then [] else [p])
  {
    if s == [] {
      assert Published([p]) == (if p == NULL then [] else [p]) + Published([p][1..]);
    } else {
      PublishedSnoc(s[1..], p);
      assert (s + [p])[1..] == s[1..] + [p];
    }
  }

  /** A scan reports exactly the pointers that are published. */
  lemma {:induction false} PublishedMembers(s: seq<Ref>, p: Ref)
    ensures p in Published(s) <==> p in s && p != NULL
  {
    if s != [] { PublishedMembers(s[1..], p); }
  }

  /** hazard_ptr_group: the slots and the hint where to look for a free one. */
  class Group {
    const slots: array<Ref>
    var hint: nat

    ghost predicate Valid()
      reads this
    {
      slots.Length == GROUP_SIZE && hint < GROUP_SIZE
    }

    constructor ()
      ensures Valid() && fresh(slots) && hint == 0
      ensures forall j | 0 <= j < GROUP_SIZE :: slots[j] == NULL
    {
      slots := new Ref[GROUP_SIZE](_ => NULL);
      hint := 0;
    }

    /** Slot k takes p, and the hint moves behind it. */
    method Take(k: nat, p: Ref)
      requires Valid() && k < GROUP_SIZE
      modifies this`hint, slots
      ensures Valid() && slots[..] == old(slots[..])[k := p] && hint == (k + 1) % GROUP_SIZE
    {
      slots[k] := p;
      hint := k + 1;
      if hint == slots.Length { hint := 0; }
    }

    /** try_assign: takes the first free slot at or after the hint, going round, and fails
        exactly when there is none. */
    method TryAssign(p: Ref) returns (k: Option<nat>)
      requires Valid() && p != NULL
      modifies this`hint, slots
      ensures Valid()
      ensures k.Some? ==> FirstFree(old(slots[..]), old(hint), k.value)
      ensures k.Some? ==> slots[..] == old(slots[..])[k.value := p] && hint == (k.value + 1) % GROUP_SIZE
      ensures k.None? <==> IsFull(old(slots[..]))
      ensures k.None? ==> slots[..] == old(slots[..]) && hint == old(hint)
    {
      if slots[hint] == NULL {
        k := Some(hint);
        Take(hint, p);
        return;
      }
      for i := hint + 1 to slots.Length
        invariant slots[..] == old(slots[..]) && hint == old(hint)
        invariant forall j | hint <= j < i :: slots[j] != NULL
      {
        if slots[i] == NULL {
          Take(i, p);
          return Some(i);
        }
      }
      for i := 0 to hint
        invariant slots[..] == old(slots[..]) && hint == old(hint)
        invariant forall j | hint <= j < slots.Length :: slots[j] != NULL
        invariant forall j | 0 <= j < i :: slots[j] != NULL
      {
        if slots[i] == NULL {
          Take(i, p);
          return Some(i);
        }
      }
      return None;
    }

    /** scan_hazard_pointers: the pointers handed to the callback, in order. */
    method Scan() returns (seen: seq<Ref>)
      requires Valid()
      ensures seen == Published(slots[..])
    {
      seen := [];
      for i := 0 to slots.Length
        invariant seen == Published(slots[..i])
      {
        assert slots[..i + 1] == slots[..i] + [slots[i]];
        PublishedSnoc(slots[..i], slots[i]);
        if slots[i] != NULL { seen := seen + [slots[i]]; }
      }
      assert slots[..slots.Length] == slots[..];
    }

    /** check_pointer_is_hazard_pointer */
    method Holds(p: Ref) returns (found: bool)
      requires Valid()
      ensures found <==> p != NULL && p in slots[..]
    {
      if p == NULL { return false; }
      for i := 0 to slots.Length
        invariant forall j | 0 <= j < i :: slots[j] != p
      {
        if slots[i] == p { return true; }
      }
      return false;
    }
  }

  /** bind_hazard_ptr_list: the groups of a thread, in the order of ap_list_next_. */
  class BindList {
    var groups: seq<Group>

    ghost predicate Valid()
      reads this, groups
    {
      && (forall i | 0 <= i < |groups| :: groups[i].Valid())
      && (forall i, j | 0 <= i < j < |groups| :: groups[i] != groups[j] && groups[i].slots != groups[j].slots)
    }

    /** The slots of the groups, one after the other. */
    ghost function Contents(): seq<seq<Ref>>
      requires Valid()
      reads this, groups, set g | g in groups :: g.slots
    {
      seq(|groups|, i requires 0 <= i < |groups| reads this, groups, set g | g in groups :: g.slots => groups[i].slots[..])
    }

    /** slot_assign: the pointer goes to the first group that has a free slot; a group is
        added only when every slot of every group is taken.  A null pointer is published
        as a mark, so that its slot counts as taken. */
    method SlotAssign(p: Ref) returns (i: nat, k: nat)
      requires Valid()
      modifies this, groups, set g | g in groups :: g.slots
      ensures Valid() && i <= |old(groups)| && i < |groups| && k < GROUP_SIZE
      ensures forall j | 0 <= j < i :: IsFull(old(Contents())[j])
      ensures i < |old(groups)| ==> groups == old(groups) && old(Contents())[i][k] == NULL
      ensures i >= |old(groups)| ==> i == |old(groups)| && groups[..i] == old(groups) && |groups| == i + 1 && fresh(groups[i])
      ensures i >= |old(groups)| ==> groups[i].slots[..] == seq(GROUP_SIZE, _ => NULL)[k := Stored(p)]
      ensures i < |old(groups)| ==> groups[i].slots[..] == old(Contents())[i][k := Stored(p)]
      ensures forall j | 0 <= j < |old(groups)| && j != i :: groups[j].slots[..] == old(Contents())[j]
    {
      var store := Stored(p);
      i := 0;
      while i < |groups|
        invariant i <= |groups| && groups == old(groups) && Valid()
        invariant forall j | 0 <= j < |groups| :: groups[j].slots[..] == old(Contents())[j]
        invariant forall j | 0 <= j < i :: IsFull(old(Contents())[j])
      {
        var r := groups[i].TryAssign(store);
        if r.Some? {
          k := r.value;
          return;
        }
        i := i + 1;
      }
      var g := new Group();
      assert g.slots[..] == seq(GROUP_SIZE, _ => NULL);
      groups := groups + [g];
      assert g.slots[..][0] == NULL;
      var r := g.TryAssign(store);
      k := r.value;
    }
  }
}
