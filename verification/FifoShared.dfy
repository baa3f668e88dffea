/** The shared memory of the lock-free FIFO: the head and tail pointers, the nodes,
    and what one atomic step of a thread or of the node pool does to them. */
module FifoShared {
  import opened Reclaim

  /** chain is an auxiliary variable: the nodes from the sentinel to the last one.
      No step reads it; SharedInv ties it to the links. */
  datatype Shared = Shared(
    head: Ref,
    tail: Ref,
    next: map<Ref, Ref>,
    val: map<Ref, Option<Value>>,
    life: map<Ref, Life>,
    chain: seq<Ref>)

  function NextOf(sh: Shared, n: Ref): Ref { Get(sh.next, n, NULL) }
  function ValOf(sh: Shared, n: Ref): Option<Value> { Get(sh.val, n, None) }
  function Alive(sh: Shared, n: Ref): Life { LifeOf(sh.life, n) }
  predicate IsLinked(sh: Shared, n: Ref) { Alive(sh, n).Linked? }

  datatype Effect =
    | Nothing
    | WriteNext(n: Ref, m: Ref)          // set_next on a node no other thread can reach
    | Link(e: Ref, p: Ref)               // CAS on the null link of e
    | Swing(d: Ref)                      // CAS on the tail pointer
    | PopHead(nx: Ref)                   // CAS on the head pointer in pop_front
    | PushHead(sen: Ref, w: Ref)         // CAS on the head pointer in push_front
    | Take(n: Ref)                       // the value is moved out of n
    | Acquire(n: Ref, t: nat, v: Option<Value>)   // the pool or new gives n to thread t
    | Discard(n: Ref)                    // an unused private node goes back to the pool
    | BeginScan(n: Ref, threads: nat)
    | Visit(n: Ref, slot: Slot)          // the scan reads one slot and does not find n
    | FailScan(n: Ref)
    | FinishScan(n: Ref, reset: bool)

  function Last(sh: Shared): Ref
    requires |sh.chain| > 0
  {
    sh.chain[|sh.chain| - 1]
  }

  ghost predicate Ends(sh: Shared) {
    |sh.chain| > 0 && sh.chain[0] == sh.head && NextOf(sh, Last(sh)) == NULL
  }

  ghost predicate Members(sh: Shared) {
    && (forall i | 0 <= i < |sh.chain| :: sh.chain[i] != NULL && Alive(sh, sh.chain[i]).Linked?)
    && (forall n | Alive(sh, n).Linked? :: n in sh.chain)
  }

  ghost predicate Links(sh: Shared) {
    forall i, j | 0 <= i < j < |sh.chain| && j == i + 1 :: NextOf(sh, sh.chain[i]) == sh.chain[j]
  }

  ghost predicate ChainInv(sh: Shared) {
    Ends(sh) && Members(sh) && Distinct(sh.chain) && Links(sh)
  }

  /** The tail pointer names the last node or the one before it. */
  predicate TailInv(sh: Shared)
    requires |sh.chain| > 0
  {
    sh.tail == Last(sh) || (|sh.chain| > 1 && sh.tail == sh.chain[|sh.chain| - 2])
  }

  /** Every node behind the sentinel carries a value. */
  ghost predicate ValuesInv(sh: Shared) {
    forall i | 1 <= i < |sh.chain| :: ValOf(sh, sh.chain[i]).Some?
  }

  /** A node that has left the queue keeps its link until the pool has scanned it. */
  ghost predicate WaitingInv(sh: Shared) {
    && (forall n | Waiting(sh.life, n) :: NextOf(sh, n) != NULL)
    && Alive(sh, NULL).Fresh?
  }

  ghost predicate NodeInv(sh: Shared) {
    ValuesInv(sh) && WaitingInv(sh)
  }

  ghost predicate SharedInv(sh: Shared) {
    ChainInv(sh) && TailInv(sh) && NodeInv(sh)
  }

  function Apply(sh: Shared, e: Effect): Shared {
    match e
    case Nothing => sh
    case WriteNext(n, m) => sh.(next := sh.next[n := m])
    case Link(e, p) => sh.(next := sh.next[e := p], life := sh.life[p := Linked], chain := sh.chain + [p])
    case Swing(d) => sh.(tail := d)
    case PopHead(nx) =>
      sh.(head := nx, life := sh.life[sh.head := Retired], chain := if |sh.chain| > 0 then sh.chain[1..] else [])
    case PushHead(sen, w) =>
      sh.(head := sen,
          life := sh.life[sh.head := Retired][sen := Linked][w := Linked],
          chain := [sen, w] + if |sh.chain| > 0 then sh.chain[1..] else [])
    case Take(n) => sh.(val := sh.val[n := None])
    case Acquire(n, t, v) => sh.(life := sh.life[n := Owned(t)], val := sh.val[n := v])
    case Discard(n) => sh.(life := sh.life[n := Retired])
    case BeginScan(n, threads) => sh.(life := sh.life[n := Scanning(AllSlots(threads))])
    case Visit(n, slot) =>
      (match Alive(sh, n)
       case Scanning(todo) => sh.(life := sh.life[n := Scanning(todo - {slot})])
       case _ => sh)
    case FailScan(n) => sh.(life := sh.life[n := Retired])
    case FinishScan(n, reset) =>
      sh.(life := sh.life[n := Free], val := if reset then sh.val[n := None] else sh.val)
  }

  /** What must hold for the effect to be harmless.  The thread steps are shown to
      take an effect only when this holds; the pool steps are guarded by it. */
  predicate EffectOk(sh: Shared, e: Effect) {
    match e
    case Nothing => true
    case WriteNext(n, m) => n != NULL && !IsLinked(sh, n) && !Waiting(sh.life, n)
    case Link(e, p) =>
      && IsLinked(sh, e) && NextOf(sh, e) == NULL && sh.tail == e
      && Alive(sh, p).Owned? && p != NULL && NextOf(sh, p) == NULL && ValOf(sh, p).Some?
    case Swing(d) => IsLinked(sh, sh.tail) && NextOf(sh, sh.tail) == d && d != NULL
    case PopHead(nx) => NextOf(sh, sh.head) == nx && nx != NULL && sh.tail != sh.head
    case PushHead(sen, w) =>
      && NextOf(sh, sh.head) != NULL && sh.tail != sh.head
      && sen != NULL && w != NULL && sen != w && Alive(sh, sen).Owned? && Alive(sh, w).Owned?
      && NextOf(sh, sen) == w && NextOf(sh, w) == NextOf(sh, sh.head) && ValOf(sh, w).Some?
    case Take(n) => (IsLinked(sh, n) && n == sh.head) || Waiting(sh.life, n)
    case Acquire(n, t, v) => Available(sh.life, n)
    case Discard(n) => n != NULL && Alive(sh, n).Owned? && NextOf(sh, n) != NULL
    case BeginScan(n, threads) => Alive(sh, n).Retired?
    case Visit(n, slot) => Alive(sh, n).Scanning?
    case FailScan(n) => Alive(sh, n).Scanning?
    case FinishScan(n, reset) => Alive(sh, n).Scanning? && Alive(sh, n).todo == {}
  }

  /** The only linked node without a successor is the last one. */
  lemma LastOnly(sh: Shared, e: Ref)
    requires ChainInv(sh) && IsLinked(sh, e) && NextOf(sh, e) == NULL
    ensures e == Last(sh)
  {
    var i :| 0 <= i < |sh.chain| && sh.chain[i] == e;
    if i != |sh.chain| - 1 {
      NonNullAt(sh, i + 1);
    }
  }

  lemma NonNullAt(sh: Shared, j: nat)
    requires Members(sh) && Links(sh) && 0 < j < |sh.chain|
    ensures NextOf(sh, sh.chain[j - 1]) == sh.chain[j] != NULL
  {
  }

  /** The successor of the head, when there is one, is the second node. */
  lemma SecondNode(sh: Shared)
    requires ChainInv(sh) && NextOf(sh, sh.head) != NULL
    ensures |sh.chain| > 1 && sh.chain[1] == NextOf(sh, sh.head)
  {
    if |sh.chain| > 1 {
      NonNullAt(sh, 1);
    }
  }

  /** Steps that neither link nor unlink a node leave the chain as it is. */
  lemma ChainFrame(a: Shared, b: Shared)
    requires ChainInv(a) && a.head == b.head && a.chain == b.chain
    requires forall n :: Alive(a, n).Linked? <==> Alive(b, n).Linked?
    requires forall n | Alive(a, n).Linked? :: NextOf(b, n) == NextOf(a, n)
    ensures ChainInv(b)
  {
  }

  lemma LinkKeepsChain(sh: Shared, e: Ref, p: Ref)
    requires ChainInv(sh) && EffectOk(sh, Link(e, p))
    ensures ChainInv(Apply(sh, Link(e, p)))
  {
    var s2 := Apply(sh, Link(e, p));
    LastOnly(sh, e);
    assert p !in sh.chain;
    assert s2.chain[|sh.chain|] == p;
    forall n | Alive(s2, n).Linked? ensures n in s2.chain {
      assert n == p || Alive(sh, n).Linked?;
    }
    forall i, j | 0 <= i < j < |s2.chain| && j == i + 1
      ensures NextOf(s2, s2.chain[i]) == s2.chain[j]
    {
      if j < |sh.chain| { assert sh.chain[i] != e; }
    }
  }

  lemma PopKeepsMembers(sh: Shared, nx: Ref)
    requires ChainInv(sh) && EffectOk(sh, PopHead(nx))
    ensures Members(Apply(sh, PopHead(nx)))
  {
    var s2 := Apply(sh, PopHead(nx));
    forall n | Alive(s2, n).Linked? ensures n in s2.chain {
      assert n != sh.head && Alive(sh, n).Linked?;
      var i :| 0 <= i < |sh.chain| && sh.chain[i] == n;
      assert s2.chain[i - 1] == n;
    }
  }

  lemma PopKeepsChain(sh: Shared, nx: Ref)
    requires ChainInv(sh) && EffectOk(sh, PopHead(nx))
    ensures ChainInv(Apply(sh, PopHead(nx)))
  {
    SecondNode(sh);
    PopKeepsMembers(sh, nx);
  }

  lemma PushKeepsMembers(sh: Shared, sen: Ref, w: Ref)
    requires ChainInv(sh) && EffectOk(sh, PushHead(sen, w))
    ensures Members(Apply(sh, PushHead(sen, w)))
  {
    var s2 := Apply(sh, PushHead(sen, w));
    assert s2.chain[0] == sen && s2.chain[1] == w;
    assert forall i | 2 <= i < |s2.chain| :: s2.chain[i] == sh.chain[i - 1];
    forall n | Alive(s2, n).Linked? ensures n in s2.chain {
      if n != sen && n != w {
        assert n != sh.head && Alive(sh, n).Linked?;
        var i :| 0 <= i < |sh.chain| && sh.chain[i] == n;
        assert s2.chain[i + 1] == n;
      }
    }
  }

  lemma PushKeepsOrder(sh: Shared, sen: Ref, w: Ref)
    requires ChainInv(sh) && EffectOk(sh, PushHead(sen, w))
    ensures Distinct(Apply(sh, PushHead(sen, w)).chain)
    ensures Links(Apply(sh, PushHead(sen, w)))
  {
    var s2 := Apply(sh, PushHead(sen, w));
    SecondNode(sh);
    assert sen !in sh.chain && w !in sh.chain;
    assert forall i | 2 <= i < |s2.chain| :: s2.chain[i] == sh.chain[i - 1];
  }

  lemma PushKeepsChain(sh: Shared, sen: Ref, w: Ref)
    requires ChainInv(sh) && EffectOk(sh, PushHead(sen, w))
    ensures ChainInv(Apply(sh, PushHead(sen, w)))
  {
    SecondNode(sh);
    PushKeepsMembers(sh, sen, w);
    PushKeepsOrder(sh, sen, w);
  }

  lemma EffectKeepsChain(sh: Shared, e: Effect)
    requires ChainInv(sh) && EffectOk(sh, e)
    ensures ChainInv(Apply(sh, e))
  {
    match e
    case Link(n, p) => LinkKeepsChain(sh, n, p);
    case PopHead(nx) => PopKeepsChain(sh, nx);
    case PushHead(sen, w) => PushKeepsChain(sh, sen, w);
    case _ => ChainFrame(sh, Apply(sh, e));
  }

  lemma EffectKeepsTail(sh: Shared, e: Effect)
    requires ChainInv(sh) && TailInv(sh) && EffectOk(sh, e) && |Apply(sh, e).chain| > 0
    ensures TailInv(Apply(sh, e))
  {
    match e
    case Link(n, p) => LastOnly(sh, n);
    case Swing(d) =>
      if sh.tail != Last(sh) {
        assert NextOf(sh, sh.chain[|sh.chain| - 2]) == sh.chain[|sh.chain| - 1];
      }
    case PopHead(nx) =>
    case PushHead(sen, w) => SecondNode(sh);
    case _ =>
  }

  lemma EffectKeepsValues(sh: Shared, e: Effect)
    requires ChainInv(sh) && NodeInv(sh) && EffectOk(sh, e)
    ensures ValuesInv(Apply(sh, e))
  {
    var s2 := Apply(sh, e);
    if e.PushHead? {
      SecondNode(sh);
      assert forall i | 2 <= i < |s2.chain| :: s2.chain[i] == sh.chain[i - 1];
    }
  }

  lemma EffectKeepsWaiting(sh: Shared, e: Effect)
    requires ChainInv(sh) && NodeInv(sh) && EffectOk(sh, e)
    ensures WaitingInv(Apply(sh, e))
  {
    var s2 := Apply(sh, e);
    forall n | Waiting(s2.life, n)
      ensures NextOf(s2, n) != NULL
    {
      assert Waiting(sh.life, n) || n == sh.head || (e.Discard? && n == e.n);
    }
  }

  /** Every effect of a thread or of the pool keeps the queue well formed. */
  lemma EffectKeepsInv(sh: Shared, e: Effect)
    requires SharedInv(sh) && EffectOk(sh, e)
    ensures SharedInv(Apply(sh, e))
  {
    EffectKeepsChain(sh, e);
    EffectKeepsTail(sh, e);
    EffectKeepsValues(sh, e);
    EffectKeepsWaiting(sh, e);
  }
}
