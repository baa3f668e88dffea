/** The shared memory of the lock-free list: nodes whose link word packs a successor
    and a deletion mark, and what one atomic step does to them. */
module ListShared {
  import opened MarkedLink
  import opened Reclaim

  /** head_ and sentinel_ are members of the list object and are never recycled. */
  const HEAD: Ref := 1
  const SENTINEL: Ref := 2

  /** chain is an auxiliary variable: the nodes from head_ to sentinel_.  No step reads
      it; SharedInv ties it to the links. */
  datatype Shared = Shared(word: map<Ref, Word>, val: map<Ref, Option<Value>>, life: map<Ref, Life>, chain: seq<Ref>)

  function WordOf(sh: Shared, n: Ref): Word { Get(sh.word, n, Word(NULL, false)) }
  function ValOf(sh: Shared, n: Ref): Option<Value> { Get(sh.val, n, None) }
  function Alive(sh: Shared, n: Ref): Life { LifeOf(sh.life, n) }
  predicate IsLinked(sh: Shared, n: Ref) { Alive(sh, n).Linked? }
  predicate Marked(sh: Shared, n: Ref) { WordOf(sh, n).mark }
  predicate Gone(sh: Shared, n: Ref) { Alive(sh, n).Unlinked? || Alive(sh, n).Retired? || Alive(sh, n).Scanning? }
  predicate IsEnd(n: Ref) { n == HEAD || n == SENTINEL }

  function ValueAt(sh: Shared, n: Ref): Value {
    match ValOf(sh, n)
    case Some(v) => v
    case None => 0
  }

  /** The first position of n, or the length when it does not occur. */
  function IndexOf(s: seq<Ref>, n: Ref): (i: nat)
    ensures i <= |s| && (i < |s| ==> s[i] == n) && (n in s ==> i < |s|)
  {
    if s == [] || s[0] == n then 0 else 1 + IndexOf(s[1..], n)
  }

  function InsertAt<T>(s: seq<T>, i: nat, x: T): (r: seq<T>)
    requires i <= |s|
    ensures |r| == |s| + 1 && r[i] == x
    ensures forall k | 0 <= k < i :: r[k] == s[k]
    ensures forall k | i < k < |r| :: r[k] == s[k - 1]
  {
    s[..i] + [x] + s[i..]
  }

  function RemoveAt<T>(s: seq<T>, i: nat): (r: seq<T>)
    requires i < |s|
    ensures |r| == |s| - 1
    ensures forall k | 0 <= k < i :: r[k] == s[k]
    ensures forall k | i <= k < |r| :: r[k] == s[k + 1]
  {
    s[..i] + s[i + 1..]
  }

  datatype Effect =
    | Nothing
    | WriteWord(n: Ref, w: Word)                  // store to a node no other thread can reach
    | Insert(p: Ref, n: Ref)                      // CAS on the word of p puts n behind it
    | SetMark(n: Ref)                             // CAS on the word of n sets its mark
    | Unlink(p: Ref, n: Ref, t: nat)              // CAS on the word of p skips n
    | Take(n: Ref)                                // the value is moved out of n
    | Acquire(n: Ref, t: nat, v: Option<Value>)   // the pool or new gives n to thread t
    | Give(n: Ref)                                // do_for_purged_node: n goes to the pool
    | BeginScan(n: Ref, threads: nat)
    | Visit(n: Ref, slot: Slot)                   // the scan reads one slot and does not find n
    | FailScan(n: Ref)
    | FinishScan(n: Ref)

  function Apply(sh: Shared, e: Effect): Shared {
    match e
    case Nothing => sh
    case WriteWord(n, w) => sh.(word := sh.word[n := w])
    case Insert(p, n) =>
      var i := IndexOf(sh.chain, p);
      sh.(word := sh.word[p := Word(n, false)],
          life := sh.life[n := Linked],
          chain := if i < |sh.chain| then InsertAt(sh.chain, i + 1, n) else sh.chain)
    case SetMark(n) => sh.(word := sh.word[n := Word(WordOf(sh, n).p, true)])
    case Unlink(p, n, t) =>
      var i := IndexOf(sh.chain, n);
      sh.(word := sh.word[p := Word(WordOf(sh, n).p, false)],
          life := sh.life[n := Unlinked(t)],
          chain := if i < |sh.chain| then RemoveAt(sh.chain, i) else sh.chain)
    case Take(n) => sh.(val := sh.val[n := None])
    case Acquire(n, t, v) => sh.(life := sh.life[n := Owned(t)], val := sh.val[n := v])
    case Give(n) => sh.(life := sh.life[n := Retired])
    case BeginScan(n, threads) => sh.(life := sh.life[n := Scanning(AllSlots(threads))])
    case Visit(n, slot) =>
      (match Alive(sh, n)
       case Scanning(todo) => sh.(life := sh.life[n := Scanning(todo - {slot})])
       case _ => sh)
    case FailScan(n) => sh.(life := sh.life[n := Retired])
    case FinishScan(n) => sh.(life := sh.life[n := Free])
  }

  /** What must hold for the effect to be harmless.  The thread steps are shown to
      take an effect only when this holds; the pool steps are guarded by it. */
  predicate EffectOk(sh: Shared, e: Effect) {
    match e
    case Nothing => true
    case WriteWord(n, w) => n != NULL && (Alive(sh, n).Owned? || Alive(sh, n).Free?)
    case Insert(p, n) =>
      && IsLinked(sh, p) && p != SENTINEL && !Marked(sh, p)
      && n != NULL && Alive(sh, n).Owned? && WordOf(sh, n) == WordOf(sh, p) && ValOf(sh, n).Some?
    case SetMark(n) => IsLinked(sh, n) && !IsEnd(n) && !Marked(sh, n)
    case Unlink(p, n, t) => IsLinked(sh, p) && p != SENTINEL && WordOf(sh, p) == Word(n, false) && Marked(sh, n)
    case Take(n) => Marked(sh, n) && (IsLinked(sh, n) || Gone(sh, n))
    case Acquire(n, t, v) => Available(sh.life, n)
    case Give(n) => Alive(sh, n).Unlinked?
    case BeginScan(n, threads) => Alive(sh, n).Retired?
    case Visit(n, slot) => Alive(sh, n).Scanning?
    case FailScan(n) => Alive(sh, n).Scanning?
    case FinishScan(n) => Alive(sh, n).Scanning? && Alive(sh, n).todo == {}
  }

  // ---- the invariant ----

  ghost predicate Ends(sh: Shared) {
    && |sh.chain| >= 2 && sh.chain[0] == HEAD && sh.chain[|sh.chain| - 1] == SENTINEL
    && !Marked(sh, HEAD) && WordOf(sh, SENTINEL) == Word(NULL, false)
  }

  ghost predicate Members(sh: Shared) {
    && (forall i | 0 <= i < |sh.chain| :: sh.chain[i] != NULL && Alive(sh, sh.chain[i]).Linked?)
    && (forall n | Alive(sh, n).Linked? :: n in sh.chain)
  }

  ghost predicate Links(sh: Shared) {
    forall i, j | 0 <= i < j < |sh.chain| && j == i + 1 :: WordOf(sh, sh.chain[i]).p == sh.chain[j]
  }

  ghost predicate ChainInv(sh: Shared) {
    Ends(sh) && Members(sh) && Distinct(sh.chain) && Links(sh)
  }

  /** A node leaves the list marked and keeps its word until the pool has scanned it;
      a node loses its value only after it was marked. */
  predicate NodeOk(sh: Shared, n: Ref) {
    && (Gone(sh, n) ==> Marked(sh, n) && WordOf(sh, n).p != NULL)
    && (Alive(sh, n).Linked? ==> IsEnd(n) || Marked(sh, n) || ValOf(sh, n).Some?)
    && (n == NULL ==> Alive(sh, n).Fresh?)
  }

  ghost predicate NodeInv(sh: Shared) {
    forall n {:trigger Alive(sh, n)} :: NodeOk(sh, n)
  }

  ghost predicate SharedInv(sh: Shared) {
    ChainInv(sh) && NodeInv(sh)
  }

  lemma NextAt(sh: Shared, i: nat)
    requires Links(sh) && i + 1 < |sh.chain|
    ensures WordOf(sh, sh.chain[i]).p == sh.chain[i + 1]
  {
  }

  /** Where a linked node stands, and that its successor stands next to it. */
  lemma PlaceOf(sh: Shared, n: Ref) returns (i: nat)
    requires ChainInv(sh) && IsLinked(sh, n)
    ensures i < |sh.chain| && sh.chain[i] == n && i == IndexOf(sh.chain, n)
    ensures n == HEAD <==> i == 0
    ensures n != SENTINEL ==> i + 1 < |sh.chain| && sh.chain[i + 1] == WordOf(sh, n).p
  {
    i := IndexOf(sh.chain, n);
    if n != SENTINEL { NextAt(sh, i); }
  }

  /** What a linked node points at is linked, and is not the head. */
  lemma SuccessorLinked(sh: Shared, n: Ref)
    requires ChainInv(sh) && IsLinked(sh, n) && n != SENTINEL
    ensures var m := WordOf(sh, n).p; IsLinked(sh, m) && m != NULL && m != HEAD && m != n
  {
    var i := PlaceOf(sh, n);
  }

  // ---- every effect keeps it ----

  lemma ChainFrame(a: Shared, b: Shared)
    requires ChainInv(a) && a.chain == b.chain
    requires forall n :: Alive(a, n).Linked? <==> Alive(b, n).Linked?
    requires forall n | Alive(a, n).Linked? :: WordOf(b, n).p == WordOf(a, n).p && (Marked(b, n) ==> Marked(a, n) || !IsEnd(n))
    ensures ChainInv(b)
  {
  }

  lemma InsertAtMembers(s: seq<Ref>, i: nat, x: Ref, m: Ref)
    requires i <= |s|
    ensures m in InsertAt(s, i, x) <==> m == x || m in s
  {
    if m in s {
      var k := IndexOf(s, m);
      assert InsertAt(s, i, x)[if k < i then k else k + 1] == m;
    }
  }

  lemma RemoveAtMembers(s: seq<Ref>, i: nat, m: Ref)
    requires i < |s| && Distinct(s)
    ensures m in RemoveAt(s, i) <==> m != s[i] && m in s
  {
    if m in s && m != s[i] {
      var k := IndexOf(s, m);
      assert RemoveAt(s, i)[if k < i then k else k - 1] == m;
    }
  }

  lemma InsertKeepsMembers(sh: Shared, p: Ref, n: Ref)
    requires ChainInv(sh) && EffectOk(sh, Insert(p, n))
    ensures Members(Apply(sh, Insert(p, n))) && Distinct(Apply(sh, Insert(p, n)).chain)
  {
    var s2 := Apply(sh, Insert(p, n));
    var i := PlaceOf(sh, p);
    assert n !in sh.chain;
    assert s2.chain == InsertAt(sh.chain, i + 1, n);
    forall m | Alive(s2, m).Linked? ensures m in s2.chain {
      InsertAtMembers(sh.chain, i + 1, n, m);
    }
  }

  lemma InsertKeepsLinks(sh: Shared, p: Ref, n: Ref)
    requires ChainInv(sh) && EffectOk(sh, Insert(p, n))
    ensures Links(Apply(sh, Insert(p, n))) && Ends(Apply(sh, Insert(p, n)))
  {
    var s2 := Apply(sh, Insert(p, n));
    var i := PlaceOf(sh, p);
    assert n !in sh.chain;
    forall k, j | 0 <= k < j < |s2.chain| && j == k + 1 ensures WordOf(s2, s2.chain[k]).p == s2.chain[j] {
      if k < i { NextAt(sh, k); } else if k > i + 1 { NextAt(sh, k - 1); }
    }
  }

  lemma UnlinkKeepsMembers(sh: Shared, p: Ref, n: Ref, t: nat)
    requires ChainInv(sh) && EffectOk(sh, Unlink(p, n, t))
    ensures Members(Apply(sh, Unlink(p, n, t))) && Distinct(Apply(sh, Unlink(p, n, t)).chain)
  {
    var s2 := Apply(sh, Unlink(p, n, t));
    SuccessorLinked(sh, p);
    var i := PlaceOf(sh, n);
    assert s2.chain == RemoveAt(sh.chain, i);
    forall m | Alive(s2, m).Linked? ensures m in s2.chain {
      RemoveAtMembers(sh.chain, i, m);
    }
  }

  lemma UnlinkKeepsLinks(sh: Shared, p: Ref, n: Ref, t: nat)
    requires ChainInv(sh) && EffectOk(sh, Unlink(p, n, t))
    ensures Links(Apply(sh, Unlink(p, n, t))) && Ends(Apply(sh, Unlink(p, n, t)))
  {
    var s2 := Apply(sh, Unlink(p, n, t));
    SuccessorLinked(sh, p);
    var i := PlaceOf(sh, n);
    var k := PlaceOf(sh, p);
    hide Members;
    forall a, b | 0 <= a < b < |s2.chain| && b == a + 1 ensures WordOf(s2, s2.chain[a]).p == s2.chain[b] {
      if a + 1 < i { NextAt(sh, a); } else if a >= i { NextAt(sh, a + 1); }
    }
  }

  lemma EffectKeepsChain(sh: Shared, e: Effect)
    requires SharedInv(sh) && EffectOk(sh, e)
    ensures ChainInv(Apply(sh, e))
  {
    match e
    case Insert(p, n) =>
      InsertKeepsMembers(sh, p, n);
      InsertKeepsLinks(sh, p, n);
    case Unlink(p, n, t) =>
      UnlinkKeepsMembers(sh, p, n, t);
      UnlinkKeepsLinks(sh, p, n, t);
    case _ => ChainFrame(sh, Apply(sh, e));
  }

  lemma NodeStep(sh: Shared, e: Effect, n: Ref)
    requires NodeOk(sh, n) && EffectOk(sh, e)
    requires Alive(sh, NULL).Fresh?
    requires e.Unlink? ==> WordOf(sh, e.n).p != NULL && WordOf(sh, e.n).p != e.n && IsLinked(sh, e.n) && e.p != e.n
    ensures NodeOk(Apply(sh, e), n)
  {
  }

  lemma EffectKeepsNodes(sh: Shared, e: Effect)
    requires SharedInv(sh) && EffectOk(sh, e)
    ensures NodeInv(Apply(sh, e))
  {
    if e.Unlink? {
      SuccessorLinked(sh, e.p);
      SuccessorLinked(sh, e.n);
    }
    forall n ensures NodeOk(Apply(sh, e), n) { NodeStep(sh, e, n); }
  }

  /** Every effect of a thread or of the pool keeps the list well formed. */
  lemma EffectKeepsInv(sh: Shared, e: Effect)
    requires SharedInv(sh) && EffectOk(sh, e)
    ensures SharedInv(Apply(sh, e))
  {
    EffectKeepsChain(sh, e);
    EffectKeepsNodes(sh, e);
  }

  // ---- the elements of the list ----

  /** An element is a node between the ends without a deletion mark. */
  predicate IsElement(sh: Shared, n: Ref) { !IsEnd(n) && !Marked(sh, n) }

  function Elements(sh: Shared, nodes: seq<Ref>): seq<Value> {
    if nodes == [] then []
    else (if IsElement(sh, nodes[0]) then [ValueAt(sh, nodes[0])] else []) + Elements(sh, nodes[1..])
  }

  /** The values from the front to the back. */
  function List(sh: Shared): seq<Value> { Elements(sh, sh.chain) }

  /** How many elements precede n. */
  function Position(sh: Shared, n: Ref): nat {
    |Elements(sh, sh.chain[..IndexOf(sh.chain, n)])|
  }

  lemma {:induction false} ElementsConcat(sh: Shared, xs: seq<Ref>, ys: seq<Ref>)
    ensures Elements(sh, xs + ys) == Elements(sh, xs) + Elements(sh, ys)
  {
    if xs == [] {
      assert xs + ys == ys;
    } else {
      ElementsConcat(sh, xs[1..], ys);
      assert (xs + ys)[1..] == xs[1..] + ys;
    }
  }

  lemma {:induction false} ElementsFrame(a: Shared, b: Shared, nodes: seq<Ref>)
    requires forall i | 0 <= i < |nodes| :: IsElement(a, nodes[i]) <==> IsElement(b, nodes[i])
    requires forall i | 0 <= i < |nodes| :: IsElement(a, nodes[i]) ==> ValueAt(a, nodes[i]) == ValueAt(b, nodes[i])
    ensures Elements(a, nodes) == Elements(b, nodes)
  {
    if nodes != [] { ElementsFrame(a, b, nodes[1..]); }
  }

  lemma Split3(sh: Shared, s: seq<Ref>, i: nat)
    requires i < |s|
    ensures Elements(sh, s) == Elements(sh, s[..i]) + Elements(sh, [s[i]]) + Elements(sh, s[i + 1..])
  {
    assert s == s[..i] + ([s[i]] + s[i + 1..]);
    ElementsConcat(sh, s[..i], [s[i]] + s[i + 1..]);
    ElementsConcat(sh, [s[i]], s[i + 1..]);
  }

  lemma OneElement(sh: Shared, n: Ref)
    ensures Elements(sh, [n]) == if IsElement(sh, n) then [ValueAt(sh, n)] else []
  {
  }

  /** How many elements stand at p or before it. */
  function PositionAfter(sh: Shared, p: Ref): nat {
    var i := IndexOf(sh.chain, p);
    |Elements(sh, if i < |sh.chain| then sh.chain[..i + 1] else sh.chain)|
  }

  /** The word of a linked node is written and nothing else about elements changes. */
  lemma RelinkFrame(sh: Shared, s2: Shared, nodes: seq<Ref>, p: Ref)
    requires s2.val == sh.val && !Marked(sh, p) && (exists m :: s2.word == sh.word[p := Word(m, false)])
    ensures Elements(s2, nodes) == Elements(sh, nodes)
  {
    ElementsFrame(sh, s2, nodes);
  }

  lemma InsertSplit(sh: Shared, p: Ref, n: Ref, i: nat)
    requires i + 1 < |sh.chain| && IndexOf(sh.chain, p) == i && n !in sh.chain
    ensures var c := Apply(sh, Insert(p, n)).chain;
            |c| == |sh.chain| + 1 && c[..i + 1] == sh.chain[..i + 1] && c[i + 1] == n && c[i + 2..] == sh.chain[i + 1..]
  {
  }

  /** Linking n behind p adds one element, right behind everything up to p. */
  lemma InsertAdds(sh: Shared, p: Ref, n: Ref)
    requires SharedInv(sh) && EffectOk(sh, Insert(p, n))
    ensures var k := PositionAfter(sh, p);
            k <= |List(sh)| && List(Apply(sh, Insert(p, n))) == InsertAt(List(sh), k, ValueAt(sh, n))
  {
    var s2 := Apply(sh, Insert(p, n));
    var i := PlaceOf(sh, p);
    assert n !in sh.chain;
    InsertValues(sh, p, n, i);
  }

  lemma InsertValues(sh: Shared, p: Ref, n: Ref, i: nat)
    requires i + 1 < |sh.chain| && IndexOf(sh.chain, p) == i && n !in sh.chain && n != p && !Marked(sh, p) && !Marked(sh, n) && !IsEnd(n)
    ensures var k := PositionAfter(sh, p);
            k <= |List(sh)| && List(Apply(sh, Insert(p, n))) == InsertAt(List(sh), k, ValueAt(sh, n))
  {
    var s2 := Apply(sh, Insert(p, n));
    var a, b := sh.chain[..i + 1], sh.chain[i + 1..];
    InsertSplit(sh, p, n, i);
    Split3(s2, s2.chain, i + 1);
    RelinkFrame(sh, s2, a, p);
    RelinkFrame(sh, s2, b, p);
    OneElement(s2, n);
    assert sh.chain == a + b;
    ElementsConcat(sh, a, b);
  }

  /** Marking n removes that one element. */
  lemma MarkRemoves(sh: Shared, n: Ref)
    requires SharedInv(sh) && EffectOk(sh, SetMark(n))
    ensures var k := Position(sh, n);
            && k < |List(sh)| && List(sh)[k] == ValueAt(sh, n)
            && List(Apply(sh, SetMark(n))) == RemoveAt(List(sh), k)
  {
    var s2 := Apply(sh, SetMark(n));
    var i := PlaceOf(sh, n);
    var a, b := sh.chain[..i], sh.chain[i + 1..];
    Split3(sh, sh.chain, i);
    Split3(s2, sh.chain, i);
    assert n !in a && n !in b;
    ElementsFrame(sh, s2, a);
    ElementsFrame(sh, s2, b);
    OneElement(sh, n);
    OneElement(s2, n);
  }

  lemma UnlinkValues(sh: Shared, p: Ref, n: Ref, t: nat, i: nat)
    requires i < |sh.chain| && IndexOf(sh.chain, n) == i && sh.chain[i] == n && Marked(sh, n) && !Marked(sh, p)
    ensures List(Apply(sh, Unlink(p, n, t))) == List(sh)
  {
    Split3(sh, sh.chain, i);
    OneElement(sh, n);
    ElementsConcat(sh, sh.chain[..i], sh.chain[i + 1..]);
    RelinkFrame(sh, Apply(sh, Unlink(p, n, t)), RemoveAt(sh.chain, i), p);
  }

  /** Unlinking a marked node changes no element. */
  lemma UnlinkKeepsList(sh: Shared, p: Ref, n: Ref, t: nat)
    requires SharedInv(sh) && EffectOk(sh, Unlink(p, n, t))
    ensures List(Apply(sh, Unlink(p, n, t))) == List(sh)
  {
    SuccessorLinked(sh, p);
    var i := PlaceOf(sh, n);
    UnlinkValues(sh, p, n, t, i);
  }

  /** No other effect changes an element. */
  lemma OtherKeepsList(sh: Shared, e: Effect)
    requires SharedInv(sh) && EffectOk(sh, e) && !e.Insert? && !e.SetMark? && !e.Unlink?
    ensures List(Apply(sh, e)) == List(sh)
  {
    ElementsFrame(sh, Apply(sh, e), sh.chain);
  }
}
