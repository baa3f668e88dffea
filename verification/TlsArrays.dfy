/** Where keys and cells live: key arrays with a ring search for a free key, and content
    arrays that a thread adds when it first touches a key of their range. */
module TlsArrays {
  import opened Reclaim
  import opened TlsModel

  /** ALCONCURRENT_CONF_DYNAMIC_TLS_ARRAY_SIZE */
  const ARRAY_SIZE: nat := 2048

  /** k is the first unused key at or after the hint, going round. */
  ghost predicate FirstUnused(s: seq<KeyStat>, hint: nat, k: nat)
    requires hint < |s|
  {
    && k < |s| && s[k].NOT_USED?
    && forall j | 0 <= j < |s| && s[j].NOT_USED? :: if hint <= k then (j >= k || j < hint) else k <= j < hint
  }

  function CountUnused(s: seq<KeyStat>): nat {
    if s == [] then 0 else (if s[0].NOT_USED? then 1 else 0) + CountUnused(s[1..])
  }

  lemma {:induction false} CountUpdate(s: seq<KeyStat>, k: nat, v: KeyStat)
    requires k < |s|
    ensures CountUnused(s[k := v]) + (if s[k].NOT_USED? then 1 else 0) == CountUnused(s) + (if v.NOT_USED? then 1 else 0)
  {
    if k > 0 {
      CountUpdate(s[1..], k - 1, v);
      assert s[k := v][1..] == s[1..][k - 1 := v];
    } else {
      assert s[k := v][1..] == s[1..];
    }
  }

  lemma {:induction false} CountZero(s: seq<KeyStat>)
    ensures CountUnused(s) == 0 <==> forall j | 0 <= j < |s| :: !s[j].NOT_USED?
  {
    if s != [] {
      CountZero(s[1..]);
      if forall j | 0 <= j < |s| :: !s[j].NOT_USED? {
        assert forall j | 0 <= j < |s[1..]| :: s[1..][j] == s[j + 1];
      } else {
        var j :| 0 <= j < |s| && s[j].NOT_USED?;
        assert j > 0 ==> s[1..][j - 1] == s[j];
      }
    }
  }

  lemma {:induction false} CountAll(s: seq<KeyStat>)
    requires forall j | 0 <= j < |s| :: s[j].NOT_USED?
    ensures CountUnused(s) == |s|
  {
    if s != [] { CountAll(s[1..]); }
  }

  /** dynamic_tls_key_array */
  class KeyArray {
    const base: nat
    const stats: array<KeyStat>
    var free: int
    var hint: nat

    ghost predicate Valid()
      reads this, stats
    {
      stats.Length == ARRAY_SIZE && hint < ARRAY_SIZE && free == CountUnused(stats[..]) && base % ARRAY_SIZE == 0
    }

    constructor (base: nat)
      requires base % ARRAY_SIZE == 0
      ensures Valid() && fresh(stats) && this.base == base
      ensures forall j | 0 <= j < ARRAY_SIZE :: stats[j].NOT_USED?
    {
      this.base := base;
      stats := new KeyStat[ARRAY_SIZE](_ => NOT_USED);
      free := ARRAY_SIZE;
      hint := 0;
      new;
      CountAll(stats[..]);
    }

    /** allocate_key of one array: the first unused key at or after the hint, going round;
        none only if every key is used. */
    method AllocateKey() returns (k: Option<nat>)
      requires Valid()
      modifies this`free, this`hint, stats
      ensures Valid()
      ensures k.Some? ==> FirstUnused(old(stats[..]), old(hint), k.value)
      ensures k.Some? ==> stats[..] == old(stats[..])[k.value := USED] && hint == (k.value + 1) % ARRAY_SIZE
      ensures k.None? ==> stats[..] == old(stats[..])
      ensures k.None? <==> CountUnused(old(stats[..])) == 0
    {
      CountZero(stats[..]);
      if free <= 0 { return None; }
      var newHint := hint;
      for i := 0 to ARRAY_SIZE
        invariant newHint == (hint + i) % ARRAY_SIZE && Valid()
        invariant stats[..] == old(stats[..]) && hint == old(hint)
        invariant forall j | hint <= j < ARRAY_SIZE && j < hint + i :: !stats[j].NOT_USED?
        invariant forall j | 0 <= j < hint + i - ARRAY_SIZE :: !stats[j].NOT_USED?
      {
        var cur := newHint;
        newHint := newHint + 1;
        if newHint >= ARRAY_SIZE { newHint := 0; }
        if stats[cur].NOT_USED? {
          CountUpdate(stats[..], cur, USED);
          free := free - 1;
          stats[cur] := USED;
          hint := newHint;
          assert stats[..] == old(stats[..])[cur := USED];
          return Some(cur);
        }
      }
      return None;
    }

    /** release_key of one array once the cells are destroyed: succeeds exactly for a used
        key of this array, and a second release of it fails. */
    method ReleaseKey(idx: nat) returns (ok: bool)
      requires Valid()
      modifies this`free, stats
      ensures Valid()
      ensures ok <==> base <= idx < base + ARRAY_SIZE && old(stats[..])[idx - base].USED?
      ensures stats[..] == if ok then old(stats[..])[idx - base := NOT_USED] else old(stats[..])
    {
      if idx < base || base + ARRAY_SIZE <= idx || !stats[idx - base].USED? { return false; }
      CountUpdate(stats[..], idx - base, NOT_USED);
      stats[idx - base] := RELEASING;
      free := free + 1;
      stats[idx - base] := NOT_USED;
      assert stats[..] == old(stats[..])[idx - base := NOT_USED];
      return true;
    }
  }

  /** The list of key arrays, newest first. */
  class KeyManager {
    var arrays: seq<KeyArray>
    var nextBase: nat

    ghost predicate Valid()
      reads this, arrays, set a | a in arrays :: a.stats
    {
      && nextBase % ARRAY_SIZE == 0
      && (forall i | 0 <= i < |arrays| :: arrays[i].Valid() && arrays[i].base < nextBase)
      && (forall i, j | 0 <= i < |arrays| && 0 <= j < |arrays| && i != j ::
            arrays[i] != arrays[j] && arrays[i].stats != arrays[j].stats && arrays[i].base != arrays[j].base)
    }

    /** search_key: the arrays are asked one after the other. */
    method SearchKey() returns (found: bool, a: nat, k: nat)
      requires Valid()
      modifies arrays, set a | a in arrays :: a.stats
      ensures Valid()
      ensures found ==>
                && a < |arrays| && k < ARRAY_SIZE && old(arrays[a].stats[..])[k].NOT_USED?
                && arrays[a].stats[..] == old(arrays[a].stats[..])[k := USED]
      ensures forall i | 0 <= i < |arrays| && (!found || i != a) :: arrays[i].stats[..] == old(arrays[i].stats[..])
      ensures !found ==> forall i | 0 <= i < |arrays| :: CountUnused(arrays[i].stats[..]) == 0
    {
      for i := 0 to |arrays|
        invariant Valid()
        invariant forall j | 0 <= j < |arrays| :: arrays[j].stats[..] == old(arrays[j].stats[..])
        invariant forall j | 0 <= j < i :: CountUnused(arrays[j].stats[..]) == 0
      {
        var r := arrays[i].AllocateKey();
        if r.Some? { return true, i, r.value; }
      }
      return false, 0, 0;
    }

    /** push_front_dynamic_tls_key_array */
    method Grow()
      requires Valid()
      modifies this
      ensures Valid() && |arrays| == |old(arrays)| + 1 && arrays[1..] == old(arrays)
      ensures fresh(arrays[0]) && fresh(arrays[0].stats) && forall j | 0 <= j < ARRAY_SIZE :: arrays[0].stats[j].NOT_USED?
    {
      var newest := new KeyArray(nextBase);
      nextBase := nextBase + ARRAY_SIZE;
      arrays := [newest] + arrays;
    }

    /** allocate_key: a key that was unused, and a new array only when all are full. */
    method AllocateKey() returns (idx: nat, ghost a: nat)
      requires Valid()
      modifies this, arrays, set a | a in arrays :: a.stats
      ensures Valid() && a < |arrays| && arrays[a].base <= idx < arrays[a].base + ARRAY_SIZE
      ensures arrays[a].stats[idx - arrays[a].base].USED?
      ensures forall b | b in old(arrays) && b != arrays[a] :: b.stats[..] == old(b.stats[..])
      ensures arrays == old(arrays) ==>
                && old(arrays[a].stats[..])[idx - arrays[a].base].NOT_USED?
                && arrays[a].stats[..] == old(arrays[a].stats[..])[idx - arrays[a].base := USED]
      ensures arrays != old(arrays) ==>
                a == 0 && arrays[1..] == old(arrays) && forall b | b in old(arrays) :: CountUnused(b.stats[..]) == 0
    {
      var found, i, k := SearchKey();
      if found { return arrays[i].base + k, i; }
      Grow();
      CountZero(arrays[0].stats[..]);
      assert arrays[0].stats[..][0].NOT_USED?;
      var r := arrays[0].AllocateKey();
      idx, a := arrays[0].base + r.value, 0;
    }
  }

  /** dynamic_tls_content_array; the cells themselves are those of TlsModel. */
  datatype ContentArray = ContentArray(base: nat)

  /** dynamic_tls_content_head: its content arrays, newest first. */
  class ContentHead {
    var arrays: seq<ContentArray>

    ghost predicate Valid()
      reads this
    {
      && (forall i | 0 <= i < |arrays| :: arrays[i].base % ARRAY_SIZE == 0)
      && (forall i, j | 0 <= i < j < |arrays| :: arrays[i].base != arrays[j].base)
    }

    constructor ()
      ensures Valid() && arrays == []
    {
      arrays := [];
    }

    /** search_tls_unchk_key: the cell of a key is the one at its distance from the base of
        the array that covers it; an array is added only when none covers it. */
    method Search(idx: nat) returns (a: nat, off: nat)
      requires Valid()
      modifies this
      ensures Valid() && a < |arrays| && off < ARRAY_SIZE && arrays[a].base + off == idx
      ensures arrays == old(arrays) || (arrays[1..] == old(arrays) && a == 0)
      ensures (exists i | 0 <= i < |old(arrays)| :: Covers(old(arrays)[i], idx)) ==> arrays == old(arrays)
    {
      for i := 0 to |arrays|
        invariant forall j | 0 <= j < i :: !Covers(arrays[j], idx)
      {
        if arrays[i].base <= idx && idx - arrays[i].base < ARRAY_SIZE {
          return i, idx - arrays[i].base;
        }
      }
      var base := (idx / ARRAY_SIZE) * ARRAY_SIZE;
      arrays := [ContentArray(base)] + arrays;
      return 0, idx - base;
    }
  }

  predicate Covers(a: ContentArray, idx: nat) { a.base <= idx < a.base + ARRAY_SIZE }

  /** Two keys never share a cell, and one key always finds the same cell. */
  lemma OneCellPerKey(arrays: seq<ContentArray>, a: nat, b: nat, i: nat, j: nat)
    requires forall k | 0 <= k < |arrays| :: arrays[k].base % ARRAY_SIZE == 0
    requires forall k, l | 0 <= k < l < |arrays| :: arrays[k].base != arrays[l].base
    requires a < |arrays| && b < |arrays| && i < ARRAY_SIZE && j < ARRAY_SIZE
    ensures arrays[a].base + i == arrays[b].base + j <==> a == b && i == j
  {
    assert a == b || arrays[a].base != arrays[b].base;
  }
}
