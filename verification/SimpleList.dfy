/** The singly linked list with head, tail and count that the node pool is made of.  The
    raw links of all nodes are one memory, which the lists of the pool share. */
module SimpleList {
  import opened Reclaim

  type Links = map<Ref, Ref>

  function NextOf(m: Links, n: Ref): Ref { Get(m, n, NULL) }
  function Head(s: seq<Ref>): Ref { if s == [] then NULL else s[0] }
  function Tail(s: seq<Ref>): Ref { if s == [] then NULL else s[|s| - 1] }

  /** The nodes of s hang together and end with a null link. */
  ghost predicate Hangs(m: Links, s: seq<Ref>) {
    && (forall i | 0 <= i < |s| :: s[i] != NULL && NextOf(m, s[i]) == Head(s[i + 1..]))
    && Distinct(s)
  }

  lemma DistinctConcat(a: seq<Ref>, b: seq<Ref>)
    requires Distinct(a) && Distinct(b) && (forall n | n in a :: n !in b)
    ensures Distinct(a + b)
  {
    var s := a + b;
    forall i, j | 0 <= i < j < |s| ensures s[i] != s[j] {
      if i < |a| <= j { assert s[i] in a && s[j] in b; }
    }
  }

  /** Two lists that share no node hang together behind one another once the link of the
      first tail is written. */
  lemma HangsConcat(m: Links, m2: Links, a: seq<Ref>, b: seq<Ref>)
    requires Hangs(m, a) && Hangs(m, b) && (forall n | n in a :: n !in b)
    requires m2 == if a == [] || b == [] then m else m[Tail(a) := Head(b)]
    ensures Hangs(m2, a + b)
  {
    var s := a + b;
    DistinctConcat(a, b);
    forall i | 0 <= i < |s| ensures s[i] != NULL && NextOf(m2, s[i]) == Head(s[i + 1..]) {
      if i < |a| {
        assert s[i] == a[i] && a[i] in a;
        if i + 1 < |a| {
          assert s[i + 1] == a[i + 1];
        } else {
          assert s[i + 1..] == b && a[i + 1..] == [];
        }
      } else {
        assert s[i] == b[i - |a|] && s[i + 1..] == b[i - |a| + 1..];
        assert s[i] in b;
      }
    }
  }

  lemma HangsFrame(m: Links, m2: Links, s: seq<Ref>)
    requires Hangs(m, s) && forall n | n in s :: NextOf(m2, n) == NextOf(m, n)
    ensures Hangs(m2, s)
  {
  }

  lemma HangsTail(m: Links, s: seq<Ref>)
    requires Hangs(m, s) && s != []
    ensures Hangs(m, s[1..]) && NextOf(m, s[0]) == Head(s[1..]) && s[0] !in s[1..] && s[0] != NULL
  {
    assert forall i | 0 <= i < |s| - 1 :: s[1..][i] == s[i + 1] && s[1..][i + 1..] == s[i + 2..];
  }

  lemma HangsOne(m: Links, n: Ref)
    requires n != NULL && NextOf(m, n) == NULL
    ensures Hangs(m, [n])
  {
  }

  lemma HeadNull(m: Links, keep: seq<Ref>, rest: seq<Ref>)
    requires Hangs(m, keep + rest)
    ensures Head(rest) == NULL <==> rest == []
  {
    assert rest != [] ==> (keep + rest)[|keep|] == rest[0];
  }

  lemma DistinctDrop(keep: seq<Ref>, rest: seq<Ref>)
    requires rest != [] && Distinct(keep + rest)
    ensures Distinct(keep + rest[1..]) && rest[0] !in keep + rest[1..]
    ensures forall i | 0 <= i < |keep| - 1 :: keep[i] != Tail(keep)
    ensures keep != [] ==> Tail(keep) !in rest
  {
    var s, s2, n := keep + rest, keep + rest[1..], |keep|;
    assert forall i | 0 <= i < |s2| :: s2[i] == s[if i < n then i else i + 1];
    assert forall i | 0 <= i < |rest| :: rest[i] == s[n + i];
    assert forall i | 0 <= i < |keep| :: keep[i] == s[i];
  }

  /** One node is taken out of the middle. */
  lemma HangsDrop(m: Links, m2: Links, keep: seq<Ref>, rest: seq<Ref>)
    requires rest != [] && Hangs(m, keep + rest)
    requires m2 == (if keep == [] then m else m[Tail(keep) := Head(rest[1..])])[rest[0] := NULL]
    ensures Hangs(m2, keep + rest[1..]) && rest[0] !in keep + rest[1..] && rest[0] != NULL
    ensures NextOf(m, rest[0]) == Head(rest[1..])
  {
    DistinctDrop(keep, rest);
    hide Distinct;
    var s, s2, n := keep + rest, keep + rest[1..], |keep|;
    assert s[n] == rest[0] && s[n + 1..] == rest[1..];
    assert forall i | 0 <= i < n :: s2[i] == s[i] == keep[i];
    assert forall i | n <= i < |s2| :: s2[i] == s[i + 1];
    forall i | 0 <= i < |s2| ensures s2[i] != NULL && NextOf(m2, s2[i]) == Head(s2[i + 1..]) {
      if i >= n { assert s2[i + 1..] == s[i + 2..]; }
      else if i == n - 1 { assert s2[i + 1..] == rest[1..]; }
    }
  }

  lemma DropEnds(m: Links, keep: seq<Ref>, rest: seq<Ref>)
    requires rest != [] && Hangs(m, keep + rest)
    ensures Tail(keep) == NULL <==> keep == []
    ensures Head(rest[1..]) == NULL <==> rest[1..] == []
    ensures keep != [] ==> Tail(keep) in keep + rest && Head(keep + rest[1..]) == Head(keep + rest)
    ensures keep == [] ==> Head(keep + rest[1..]) == Head(rest[1..])
    ensures Tail(keep + rest[1..]) == if rest[1..] == [] then Tail(keep) else Tail(keep + rest)
    ensures rest[0] in keep + rest && |keep + rest[1..]| == |keep + rest| - 1
  {
    var s := keep + rest;
    assert rest[0] == s[|keep|];
    if keep != [] { assert Tail(keep) == s[|keep| - 1]; }
    if rest[1..] != [] { assert rest[1] == s[|keep| + 1]; }
  }

  lemma Dropped(m: Links, m2: Links, s: seq<Ref>, keep: seq<Ref>, rest: seq<Ref>, after: seq<Ref>)
    requires rest != [] && Hangs(m, s) && s == keep + rest && after == keep + rest[1..]
    requires m2 == (if keep == [] then m else m[Tail(keep) := Head(rest[1..])])[rest[0] := NULL]
    ensures Hangs(m2, after) && rest[0] !in after && rest[0] != NULL && NextOf(m, rest[0]) == Head(rest[1..])
    ensures NextOf(m2, rest[0]) == NULL && forall n | n !in s :: NextOf(m2, n) == NextOf(m, n)
    ensures Tail(keep) == NULL <==> keep == []
    ensures Head(after) == if Tail(keep) == NULL then Head(rest[1..]) else Head(s)
    ensures Tail(after) == if Head(rest[1..]) == NULL then Tail(keep) else Tail(s)
    ensures |after| == |s| - 1 && (Head(rest[1..]) == NULL && Tail(keep) == NULL ==> Tail(after) == NULL)
  {
    HangsDrop(m, m2, keep, rest);
    DropEnds(m, keep, rest);
    DropFrame(m, m2, keep, rest);
  }

  lemma DropFrame(m: Links, m2: Links, keep: seq<Ref>, rest: seq<Ref>)
    requires rest != []
    requires m2 == (if keep == [] then m else m[Tail(keep) := Head(rest[1..])])[rest[0] := NULL]
    ensures NextOf(m2, rest[0]) == NULL && forall n | n !in keep + rest :: NextOf(m2, n) == NextOf(m, n)
  {
    if keep != [] { assert Tail(keep) == (keep + rest)[|keep| - 1]; }
    assert rest[0] == (keep + rest)[|keep|];
  }

  lemma HangsPushed(m: Links, next: Links, n: Ref, s: seq<Ref>)
    requires Hangs(m, s) && n != NULL && n !in s && next == m[n := Head(s)]
    ensures Hangs(next, [n] + s)
  {
    var all := [n] + s;
    HangsFrame(m, next, s);
    DistinctConcat([n], s);
    hide Distinct;
    forall i | 0 <= i < |all| ensures all[i] != NULL && NextOf(next, all[i]) == Head(all[i + 1..]) {
      if i == 0 { assert all[1..] == s; } else { assert all[i + 1..] == s[i..]; }
    }
  }

  /** The nodes for which the predicate has the given result, in their order. */
  function Keep(s: seq<Ref>, pred: Ref -> bool, result: bool): seq<Ref> {
    if s == [] then []
    else if pred(s[0]) == result then [s[0]] + Keep(s[1..], pred, result)
    else Keep(s[1..], pred, result)
  }

  lemma {:induction false} KeepSnoc(s: seq<Ref>, n: Ref, pred: Ref -> bool, result: bool)
    ensures Keep(s + [n], pred, result) == Keep(s, pred, result) + if pred(n) == result then [n] else []
  {
    if s == [] {
      assert [n][1..] == [];
    } else {
      KeepSnoc(s[1..], n, pred, result);
      assert (s + [n])[1..] == s[1..] + [n] && (s + [n])[0] == s[0];
    }
  }

  lemma {:induction false} KeepMembers(s: seq<Ref>, pred: Ref -> bool, result: bool, n: Ref)
    ensures n in Keep(s, pred, result) <==> n in s && pred(n) == result
  {
    if s != [] { KeepMembers(s[1..], pred, result, n); }
  }

  /** The nodes split into those that satisfy the predicate and the others. */
  lemma {:induction false} KeepSplits(s: seq<Ref>, pred: Ref -> bool)
    ensures multiset(Keep(s, pred, true)) + multiset(Keep(s, pred, false)) == multiset(s)
  {
    if s != [] {
      KeepSplits(s[1..], pred);
      assert s == [s[0]] + s[1..];
    }
  }

  /** The raw links of the nodes. */
  class Memory {
    var next: Links

    constructor ()
      ensures next == map[]
    {
      next := map[];
    }
  }

  /** od_simple_list */
  class List {
    const mem: Memory
    var head: Ref
    var tail: Ref
    var count: nat
    ghost var nodes: seq<Ref>

    ghost predicate Valid()
      reads this, mem
    {
      Hangs(mem.next, nodes) && head == Head(nodes) && tail == Tail(nodes) && count == |nodes|
    }

    constructor (mem: Memory)
      ensures this.mem == mem && Valid() && nodes == []
    {
      this.mem := mem;
      head, tail, count := NULL, NULL, 0;
      nodes := [];
    }

    method PushFront(n: Ref)
      requires Valid() && n !in nodes
      modifies this, mem
      ensures Valid() && nodes == if n == NULL then old(nodes) else [n] + old(nodes)
      ensures forall m | m != n :: NextOf(mem.next, m) == NextOf(old(mem.next), m)
    {
      if n == NULL { return; }
      assert [] + nodes == nodes;
      HeadNull(mem.next, [], nodes);
      if head == NULL { tail := n; }
      HangsPushed(mem.next, mem.next[n := head], n, nodes);
      hide Hangs;
      mem.next := mem.next[n := head];
      head := n;
      nodes := [n] + nodes;
      count := count + 1;
    }

    /** push_back relies on the null link of the node. */
    method PushBack(n: Ref)
      requires Valid() && n !in nodes && (n != NULL ==> NextOf(mem.next, n) == NULL)
      modifies this, mem
      ensures Valid() && nodes == if n == NULL then old(nodes) else old(nodes) + [n]
      ensures forall m | m !in old(nodes) :: NextOf(mem.next, m) == NextOf(old(mem.next), m)
    {
      if n == NULL { return; }
      HangsOne(mem.next, n);
      HangsConcat(mem.next, if nodes == [] then mem.next else mem.next[tail := n], nodes, [n]);
      if head == NULL {
        head, tail := n, n;
      } else {
        mem.next := mem.next[tail := n];
        tail := n;
      }
      nodes := nodes + [n];
      count := count + 1;
    }

    method PopFront() returns (n: Ref)
      requires Valid()
      modifies this, mem
      ensures Valid() && n == Head(old(nodes)) && nodes == if old(nodes) == [] then [] else old(nodes)[1..]
      ensures n != NULL <==> old(nodes) != []
      ensures n != NULL ==> NextOf(mem.next, n) == NULL && n !in nodes
      ensures forall m | m != n :: NextOf(mem.next, m) == NextOf(old(mem.next), m)
    {
      n := head;
      if n == NULL { return; }
      HangsTail(mem.next, nodes);
      head := NextOf(mem.next, n);
      if head == NULL { tail := NULL; }
      count := count - 1;
      HangsFrame(mem.next, mem.next[n := NULL], nodes[1..]);
      mem.next := mem.next[n := NULL];
      nodes := nodes[1..];
    }

    /** merge_push_back of another list, which is left empty. */
    method MergePushBack(src: List)
      requires Valid() && src.Valid() && src != this && src.mem == mem && (forall n | n in nodes :: n !in src.nodes)
      modifies this, src, mem
      ensures Valid() && src.Valid() && nodes == old(nodes) + old(src.nodes) && src.nodes == []
      ensures forall m | m !in old(nodes) :: NextOf(mem.next, m) == NextOf(old(mem.next), m)
    {
      if src.head == NULL { return; }
      var h, t, c := src.head, src.tail, src.count;
      src.count, src.head, src.tail := 0, NULL, NULL;
      HangsConcat(mem.next, if nodes == [] then mem.next else mem.next[tail := h], nodes, src.nodes);
      if head == NULL {
        head, tail := h, t;
      } else {
        mem.next := mem.next[tail := h];
        tail := t;
      }
      nodes := nodes + src.nodes;
      src.nodes := [];
      count := count + c;
    }

    /** The walk to the last node of a chain, counting the links. */
    method LastOf(n: Ref, ghost chain: seq<Ref>) returns (cur: Ref, links: nat)
      requires Hangs(mem.next, chain) && n == Head(chain) && n != NULL
      ensures cur == Tail(chain) && links == |chain| - 1
    {
      cur, links := n, 0;
      var next := NextOf(mem.next, cur);
      while next != NULL
        invariant links < |chain| && cur == chain[links] && next == Head(chain[links + 1..])
        decreases |chain| - links
      {
        links := links + 1;
        cur := next;
        next := NextOf(mem.next, cur);
      }
      assert chain[..links + 1] + chain[links + 1..] == chain;
      HeadNull(mem.next, chain[..links + 1], chain[links + 1..]);
    }

    /** merge_push_back of a bare chain of nodes.  The loop counts the links, not the nodes,
        so the count grows by one less than the list: it is right if and only if there is
        nothing to append. */
    method MergePushBackNodes(n: Ref, ghost chain: seq<Ref>)
      requires Valid() && Hangs(mem.next, chain) && n == Head(chain) && (forall m | m in nodes :: m !in chain)
      modifies this, mem
      ensures Hangs(mem.next, nodes) && nodes == old(nodes) + chain && head == Head(nodes) && tail == Tail(nodes)
      ensures count == |nodes| - if n == NULL then 0 else 1
      ensures Valid() <==> n == NULL
    {
      if n == NULL {
        HeadNull(mem.next, [], chain);
        assert [] + chain == chain;
        return;
      }
      var cur, links := LastOf(n, chain);
      HangsConcat(mem.next, if nodes == [] then mem.next else mem.next[tail := n], nodes, chain);
      if head == NULL {
        head, tail := n, cur;
      } else {
        mem.next := mem.next[tail := n];
        tail := cur;
      }
      nodes := nodes + chain;
      count := count + links;
    }

    /** merge_push_front of another list, which is left empty. */
    method MergePushFront(src: List)
      requires Valid() && src.Valid() && src != this && src.mem == mem && (forall n | n in nodes :: n !in src.nodes)
      modifies this, src, mem
      ensures Valid() && src.Valid() && nodes == old(src.nodes) + old(nodes) && src.nodes == []
      ensures forall m | m !in old(src.nodes) :: NextOf(mem.next, m) == NextOf(old(mem.next), m)
    {
      if src.head == NULL { return; }
      var h, t, c := src.head, src.tail, src.count;
      src.count, src.head, src.tail := 0, NULL, NULL;
      HangsConcat(mem.next, if nodes == [] then mem.next else mem.next[t := head], src.nodes, nodes);
      if head == NULL {
        head, tail := h, t;
      } else {
        mem.next := mem.next[t := head];
        head := h;
      }
      nodes := src.nodes + nodes;
      src.nodes := [];
      count := count + c;
    }

    /** The body of split_if for a node that leaves: the predecessor or the head skips it,
        and its own link is cleared. */
    method TakeOut(pre: Ref, cur: Ref, next: Ref, ghost keep: seq<Ref>, ghost rest: seq<Ref>)
      requires Valid() && nodes == keep + rest && rest != [] && cur == rest[0] && pre == Tail(keep) && next == NextOf(mem.next, cur)
      modifies this, mem
      ensures Valid() && nodes == keep + rest[1..] && cur !in nodes && cur != NULL && NextOf(mem.next, cur) == NULL
      ensures forall m | m !in old(nodes) :: NextOf(mem.next, m) == NextOf(old(mem.next), m)
    {
      ghost var after := keep + rest[1..];
      ghost var m2 := (if keep == [] then mem.next else mem.next[Tail(keep) := Head(rest[1..])])[cur := NULL];
      Dropped(mem.next, m2, nodes, keep, rest, after);
      hide Hangs, Head, Tail, NextOf;
      count := count - 1;
      var links := mem.next;
      if pre == NULL {
        head := next;
        if head == NULL { tail := NULL; }
      } else {
        links := links[pre := next];
        if next == NULL { tail := pre; }
      }
      mem.next := links[cur := NULL];
      nodes := after;
    }

    /** The node that leaves is appended to the answer. */
    method MoveTo(ans: List, pre: Ref, cur: Ref, next: Ref, ghost keep: seq<Ref>, ghost rest: seq<Ref>)
      requires Valid() && nodes == keep + rest && rest != [] && cur == rest[0] && pre == Tail(keep) && next == NextOf(mem.next, cur)
      requires ans != this && ans.mem == mem && ans.Valid() && forall n | n in ans.nodes :: n !in nodes
      modifies this, ans, mem
      ensures Valid() && nodes == keep + rest[1..] && ans.Valid() && ans.nodes == old(ans.nodes) + [cur]
      ensures forall m | m !in old(nodes) && m !in old(ans.nodes) :: NextOf(mem.next, m) == NextOf(old(mem.next), m)
    {
      assert nodes[|keep|] == cur;
      ghost var m := mem.next;
      TakeOut(pre, cur, next, keep, rest);
      HangsFrame(m, mem.next, ans.nodes);
      m := mem.next;
      ans.PushBack(cur);
      HangsFrame(m, mem.next, nodes);
    }

    /** The list and its answer stand at node cur of split_if: the nodes of done have been
        decided about, keep are those that stayed. */
    ghost predicate Splitting(ans: List, pred: Ref -> bool, all: seq<Ref>, done: seq<Ref>, rest: seq<Ref>)
      reads this, ans, mem
    {
      && ans.mem == mem && ans != this && Valid() && ans.Valid() && all == done + rest && Distinct(all)
      && ans.nodes == Keep(done, pred, true) && nodes == Keep(done, pred, false) + rest
    }

    /** One turn of the loop of split_if. */
    method SplitTurn(ans: List, pred: Ref -> bool, pre: Ref, cur: Ref, ghost all: seq<Ref>, ghost done: seq<Ref>, ghost rest: seq<Ref>)
      returns (pre2: Ref, cur2: Ref)
      requires Splitting(ans, pred, all, done, rest) && rest != [] && cur == rest[0] && pre == Tail(Keep(done, pred, false))
      modifies this, ans, mem
      ensures Splitting(ans, pred, all, done + [cur], rest[1..])
      ensures pre2 == Tail(Keep(done + [cur], pred, false)) && cur2 == Head(rest[1..])
      ensures forall m | m !in all :: NextOf(mem.next, m) == NextOf(old(mem.next), m)
    {
      ghost var keep := Keep(done, pred, false);
      TurnFacts(mem.next, all, done, rest, pred);
      var next := NextOf(mem.next, cur);
      if pred(cur) {
        MoveTo(ans, pre, cur, next, keep, rest);
        pre2, cur2 := pre, next;
      } else {
        pre2, cur2 := cur, next;
      }
    }

    /** split_if: a stable partition.  The nodes that satisfy the predicate go to the
        answer and the others stay, both in their order. */
    method SplitIf(pred: Ref -> bool) returns (ans: List)
      requires Valid()
      modifies this, mem
      ensures fresh(ans) && ans.mem == mem && Valid() && ans.Valid()
      ensures ans.nodes == Keep(old(nodes), pred, true) && nodes == Keep(old(nodes), pred, false)
      ensures forall m | m !in old(nodes) :: NextOf(mem.next, m) == NextOf(old(mem.next), m)
    {
      ans := new List(mem);
      ghost var all, done, rest := nodes, [], nodes;
      var pre, cur := NULL, head;
      while cur != NULL
        invariant fresh(ans) && Splitting(ans, pred, all, done, rest)
        invariant pre == Tail(Keep(done, pred, false)) && cur == Head(rest)
        invariant forall m | m !in all :: NextOf(mem.next, m) == NextOf(old(mem.next), m)
        decreases |rest|
      {
        pre, cur := SplitTurn(ans, pred, pre, cur, all, done, rest);
        done, rest := done + [rest[0]], rest[1..];
      }
      HeadNull(mem.next, Keep(done, pred, false), rest);
      assert done == all;
    }
  }

  lemma TurnFacts(m: Links, all: seq<Ref>, done: seq<Ref>, rest: seq<Ref>, pred: Ref -> bool)
    requires all == done + rest && Distinct(all) && rest != [] && Hangs(m, Keep(done, pred, false) + rest)
    ensures all == (done + [rest[0]]) + rest[1..]
    ensures NextOf(m, rest[0]) == Head(rest[1..])
    ensures pred(rest[0]) ==> Keep(done + [rest[0]], pred, false) == Keep(done, pred, false)
    ensures pred(rest[0]) ==> Keep(done + [rest[0]], pred, true) == Keep(done, pred, true) + [rest[0]]
    ensures !pred(rest[0]) ==> Keep(done + [rest[0]], pred, true) == Keep(done, pred, true)
    ensures !pred(rest[0]) ==> Keep(done + [rest[0]], pred, false) + rest[1..] == Keep(done, pred, false) + rest
    ensures !pred(rest[0]) ==> Tail(Keep(done + [rest[0]], pred, false)) == rest[0]
    ensures forall n | n in Keep(done, pred, true) :: n in all && n !in Keep(done, pred, false) + rest
    ensures forall n | n in Keep(done, pred, false) + rest :: n in all
  {
    var keep := Keep(done, pred, false);
    KeepSnoc(done, rest[0], pred, true);
    KeepSnoc(done, rest[0], pred, false);
    InAll(all, done, rest, pred);
    assert (keep + rest)[|keep|] == rest[0] && (keep + rest)[|keep| + 1..] == rest[1..];
  }

  /** What has been decided about lies apart from what is still to come. */
  lemma InAll(all: seq<Ref>, done: seq<Ref>, rest: seq<Ref>, pred: Ref -> bool)
    requires all == done + rest && Distinct(all)
    ensures forall n | n in Keep(done, pred, true) :: n in all && n !in Keep(done, pred, false) + rest
    ensures forall n | n in Keep(done, pred, false) + rest :: n in all
  {
    forall n | n in Keep(done, pred, true) ensures n in all && n !in Keep(done, pred, false) + rest {
      KeepMembers(done, pred, true, n);
      KeepMembers(done, pred, false, n);
      var i :| 0 <= i < |done| && done[i] == n;
      assert all[i] == n;
      assert forall j | 0 <= j < |rest| :: rest[j] == all[|done| + j] && all[|done| + j] != all[i];
    }
    forall n | n in Keep(done, pred, false) + rest ensures n in all {
      KeepMembers(done, pred, false, n);
    }
  }
}
