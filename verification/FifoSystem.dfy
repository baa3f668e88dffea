/** The whole FIFO: any number of threads that call push_back, pop_front and
    push_front, the node pool that recycles what they pop, and all interleavings. */
module FifoSystem {
  import opened Reclaim
  import opened FifoShared
  import opened FifoThreads

  /** pushed and picked record what has entered the queue and what the pick-up
      callback has read; they influence nothing. */
  datatype State = State(sh: Shared, threads: seq<Thread>, pushed: multiset<Value>, picked: multiset<Value>)

  datatype Action =
    | Spawn                                        // a thread registers its hazard slots
    | CallPushBack(t: nat, v: Value, n: Ref)
    | CallPushFront(t: nat, v: Value, n: Ref)
    | GetSentinel(t: nat, n: Ref)
    | CallPop(t: nat)
    | Go(t: nat)                                   // the next instruction of thread t
    | SwingFails(t: nat)                           // the weak compare-and-exchange fails spuriously
    | ClearSlot(t: nat, k: nat)
    | Return(t: nat)
    | StartScan(n: Ref)
    | ReadSlot(n: Ref, t: nat, k: nat)
    | StopScan(n: Ref)
    | EndScan(n: Ref, reset: bool)
    | Relink(n: Ref, m: Ref)                       // the pool uses the link of a free node for its own stack

  function Init(sentinel: Ref): State {
    State(Shared(sentinel, sentinel, map[sentinel := NULL], map[], map[sentinel := Linked], [sentinel]), [], multiset{}, multiset{})
  }

  predicate Enabled(s: State, a: Action) {
    match a
    case Spawn => true
    case CallPushBack(t, v, n) => t < |s.threads| && s.threads[t].pc.Idle? && Available(s.sh.life, n)
    case CallPushFront(t, v, n) => t < |s.threads| && s.threads[t].pc.Idle? && Available(s.sh.life, n)
    case GetSentinel(t, n) => t < |s.threads| && s.threads[t].pc.A1? && Available(s.sh.life, n)
    case CallPop(t) => t < |s.threads| && s.threads[t].pc.Idle?
    case Go(t) => t < |s.threads| && CanGo(s.threads[t])
    case SwingFails(t) => t < |s.threads| && s.threads[t].pc.TSwing?
    case ClearSlot(t, k) => t < |s.threads| && s.threads[t].pc.Fin?
    case Return(t) =>
      t < |s.threads| && s.threads[t].pc.Fin? && s.threads[t].sH == s.threads[t].sN == s.threads[t].sT == NULL
    case StartScan(n) => Alive(s.sh, n).Retired?
    case ReadSlot(n, t, k) => Alive(s.sh, n).Scanning? && (t < |s.threads| ==> SlotOf(s.threads[t], k) != n)
    case StopScan(n) => Alive(s.sh, n).Scanning?
    case EndScan(n, reset) => Alive(s.sh, n).Scanning? && Alive(s.sh, n).todo == {}
    case Relink(n, m) => n != NULL && Alive(s.sh, n).Free?
  }

  function EffectOf(s: State, a: Action): Effect
    requires Enabled(s, a)
  {
    match a
    case CallPushBack(t, v, n) => Acquire(n, t, Some(v))
    case CallPushFront(t, v, n) => Acquire(n, t, Some(v))
    case GetSentinel(t, n) => Acquire(n, t, None)
    case Go(t) => GoEffect(s.sh, s.threads[t])
    case Return(t) => if s.threads[t].sen != NULL then Discard(s.threads[t].sen) else Nothing
    case StartScan(n) => BeginScan(n, |s.threads|)
    case ReadSlot(n, t, k) => Visit(n, (t, k))
    case StopScan(n) => FailScan(n)
    case EndScan(n, reset) => FinishScan(n, reset)
    case Relink(n, m) => WriteNext(n, m)
    case _ => Nothing
  }

  /** The thread that acts, if one does. */
  function Actor(a: Action): Option<nat> {
    match a
    case CallPushBack(t, _, _) => Some(t)
    case CallPushFront(t, _, _) => Some(t)
    case GetSentinel(t, _) => Some(t)
    case CallPop(t) => Some(t)
    case Go(t) => Some(t)
    case SwingFails(t) => Some(t)
    case ClearSlot(t, _) => Some(t)
    case Return(t) => Some(t)
    case _ => None
  }

  function ThreadAfter(s: State, a: Action): Thread
    requires Enabled(s, a) && Actor(a).Some?
  {
    var th := s.threads[Actor(a).value];
    match a
    case CallPushBack(t, v, n) => IdleThread().(op := PushBack, v := v, own := n, pc := B0)
    case CallPushFront(t, v, n) => IdleThread().(op := PushFront, v := v, own := n, pc := A1)
    case GetSentinel(t, n) => th.(sen := n, pc := F0)
    case CallPop(t) => IdleThread().(op := Pop, pc := HLoad)
    case Go(t) => GoThread(s.sh, th)
    case SwingFails(t) => th.(pc := Fin)
    case ClearSlot(t, k) =>
      if k == SLOT_HEAD then th.(sH := NULL) else if k == SLOT_NEXT then th.(sN := NULL) else th.(sT := NULL)
    case _ => IdleThread()
  }

  /** What the next instruction of a thread does to the queue, if it is the one step
      of the call that acts on it. */
  function EventBy(sh: Shared, th: Thread): Option<Event> {
    if th.lin.None? then GoThread(sh, th).lin else None
  }

  function EventOf(s: State, a: Action): Option<Event>
    requires Enabled(s, a)
  {
    if a.Go? then EventBy(s.sh, s.threads[a.t]) else None
  }

  function Pushes(e: Option<Event>): multiset<Value> {
    match e
    case Some(Appended(v)) => multiset{v}
    case Some(Prepended(v)) => multiset{v}
    case Some(AppendedFront(v)) => multiset{v}
    case _ => multiset{}
  }

  function PickedBy(sh: Shared, th: Thread): multiset<Value> {
    if th.pc.Pick? && ValOf(sh, th.sN).Some? then multiset{ValueAt(sh, th.sN)} else multiset{}
  }

  function PickedUp(s: State, a: Action): multiset<Value>
    requires Enabled(s, a)
  {
    if a.Go? then PickedBy(s.sh, s.threads[a.t]) else multiset{}
  }

  function Do(s: State, a: Action): State
    requires Enabled(s, a)
  {
    State(
      Apply(s.sh, EffectOf(s, a)),
      if a.Spawn? then s.threads + [IdleThread()]
      else if Actor(a).Some? then s.threads[Actor(a).value := ThreadAfter(s, a)]
      else s.threads,
      s.pushed + Pushes(EventOf(s, a)),
      s.picked + PickedUp(s, a))
  }

  // ---- the invariant ----

  ghost predicate ThreadsInv(sh: Shared, threads: seq<Thread>) {
    forall t | 0 <= t < |threads| :: ThreadInv(sh, t, threads[t])
  }

  /** At most one thread has the right to pick up the value of a node. */
  ghost predicate PickersDiffer(threads: seq<Thread>) {
    forall t, u | 0 <= t < u < |threads| && threads[t].pc.Pick? && threads[u].pc.Pick? :: threads[t].sN != threads[u].sN
  }

  ghost predicate Inv(s: State) {
    SharedInv(s.sh) && ThreadsInv(s.sh, s.threads) && PickersDiffer(s.threads)
  }

  lemma EffectIsOk(s: State, a: Action)
    requires Inv(s) && Enabled(s, a)
    ensures EffectOk(s.sh, EffectOf(s, a))
  {
    if Actor(a).Some? {
      var t := Actor(a).value;
      assert ThreadInv(s.sh, t, s.threads[t]);
      if a.Go? { GoIsOk(s.sh, t, s.threads[t]); }
    }
  }

  lemma EffectIsForeign(s: State, a: Action, u: nat)
    requires Inv(s) && Enabled(s, a) && u < |s.threads| && Actor(a) != Some(u)
    ensures Foreign(s.sh, EffectOf(s, a), u, s.threads[u])
  {
    if Actor(a).Some? {
      var t := Actor(a).value;
      assert ThreadInv(s.sh, t, s.threads[t]);
      if t < u { assert PickersDiffer(s.threads[..]); }
    }
  }

  lemma CallKeepsInv(sh: Shared, t: nat, n: Ref, v: Value)
    requires SharedInv(sh) && Available(sh.life, n)
    ensures ThreadInv(Apply(sh, Acquire(n, t, Some(v))), t, IdleThread().(op := PushBack, v := v, own := n, pc := B0))
    ensures ThreadInv(Apply(sh, Acquire(n, t, Some(v))), t, IdleThread().(op := PushFront, v := v, own := n, pc := A1))
  {
  }

  lemma IdleKeepsInv(sh: Shared, t: nat)
    ensures ThreadInv(sh, t, IdleThread().(op := Pop, pc := HLoad)) && ThreadInv(sh, t, IdleThread())
  {
  }

  lemma SentinelKeepsInv(sh: Shared, t: nat, th: Thread, n: Ref)
    requires SharedInv(sh) && ThreadInv(sh, t, th) && th.pc.A1? && Available(sh.life, n)
    ensures ThreadInv(Apply(sh, Acquire(n, t, None)), t, th.(sen := n, pc := F0))
  {
  }

  lemma SwingFailsKeepsInv(sh: Shared, t: nat, th: Thread)
    requires ThreadInv(sh, t, th) && th.pc.TSwing?
    ensures ThreadInv(sh, t, th.(pc := Fin))
  {
  }

  lemma ClearKeepsInv(sh: Shared, t: nat, th: Thread)
    requires ThreadInv(sh, t, th) && th.pc.Fin?
    ensures ThreadInv(sh, t, th.(sH := NULL)) && ThreadInv(sh, t, th.(sN := NULL)) && ThreadInv(sh, t, th.(sT := NULL))
  {
  }

  lemma ActorKeepsInv(s: State, a: Action)
    requires Inv(s) && Enabled(s, a) && Actor(a).Some?
    ensures ThreadInv(Do(s, a).sh, Actor(a).value, ThreadAfter(s, a))
  {
    match a
    case Go(t) =>
      assert ThreadInv(s.sh, t, s.threads[t]);
      GoKeepsThread(s.sh, t, s.threads[t]);
    case CallPushBack(t, v, n) => CallKeepsInv(s.sh, t, n, v);
    case CallPushFront(t, v, n) => CallKeepsInv(s.sh, t, n, v);
    case GetSentinel(t, n) => SentinelKeepsInv(s.sh, t, s.threads[t], n);
    case CallPop(t) => IdleKeepsInv(s.sh, t);
    case SwingFails(t) => SwingFailsKeepsInv(s.sh, t, s.threads[t]);
    case ClearSlot(t, k) => ClearKeepsInv(s.sh, t, s.threads[t]);
    case Return(t) => IdleKeepsInv(Do(s, a).sh, t);
    case _ =>
  }

  lemma StepKeepsThreads(s: State, a: Action)
    requires Inv(s) && Enabled(s, a)
    ensures ThreadsInv(Do(s, a).sh, Do(s, a).threads)
  {
    var s2 := Do(s, a);
    EffectIsOk(s, a);
    forall u | 0 <= u < |s2.threads| ensures ThreadInv(s2.sh, u, s2.threads[u]) {
      if u < |s.threads| {
        if Actor(a) == Some(u) {
          ActorKeepsInv(s, a);
        } else {
          EffectIsForeign(s, a, u);
          assert ThreadInv(s.sh, u, s.threads[u]);
          ThreadStable(s.sh, EffectOf(s, a), u, s.threads[u]);
        }
      }
    }
  }

  /** Only the head CAS of pop_front gives the right to pick up a value. */
  lemma OnlyCasPicks(sh: Shared, th: Thread)
    requires CanGo(th)
    ensures GoThread(sh, th).pc.Pick? ==> th.pc.HCas? && th.op.Pop? && sh.head == th.sH && GoThread(sh, th).sN == th.sN
  {
  }

  lemma NewPicker(s: State, t: nat, u: nat)
    requires Inv(s) && t < |s.threads| && u < |s.threads| && u != t
    requires s.threads[t].pc.HCas? && s.sh.head == s.threads[t].sH && s.threads[u].pc.Pick?
    ensures s.threads[u].sN != s.threads[t].sN
  {
    assert ThreadInv(s.sh, t, s.threads[t]);
    assert ThreadInv(s.sh, u, s.threads[u]);
    SecondNode(s.sh);
  }

  lemma StepKeepsPickers(s: State, a: Action)
    requires Inv(s) && Enabled(s, a)
    ensures PickersDiffer(Do(s, a).threads)
  {
    var s2 := Do(s, a);
    if Actor(a).Some? {
      var t, th := Actor(a).value, ThreadAfter(s, a);
      if th.pc.Pick? {
        OnlyCasPicks(s.sh, s.threads[t]);
        forall u | 0 <= u < |s.threads| && u != t && s.threads[u].pc.Pick? ensures s.threads[u].sN != th.sN {
          NewPicker(s, t, u);
        }
      }
      assert s2.threads == s.threads[t := th];
    }
  }

  lemma StepKeepsInv(s: State, a: Action)
    requires Inv(s) && Enabled(s, a)
    ensures Inv(Do(s, a))
  {
    EffectIsOk(s, a);
    EffectKeepsInv(s.sh, EffectOf(s, a));
    StepKeepsThreads(s, a);
    StepKeepsPickers(s, a);
  }

  // ---- refinement of a sequential queue ----

  /** The values from the front to the back, read off the nodes behind the sentinel. */
  function Queue(sh: Shared): seq<Value> {
    ValuesOf(sh, if |sh.chain| > 0 then sh.chain[1..] else [])
  }

  function ValuesOf(sh: Shared, nodes: seq<Ref>): (r: seq<Value>)
    ensures |r| == |nodes| && forall i | 0 <= i < |nodes| :: r[i] == ValueAt(sh, nodes[i])
  {
    if nodes == [] then [] else [ValueAt(sh, nodes[0])] + ValuesOf(sh, nodes[1..])
  }

  /** The sequential queue: what an event requires of q and what it leaves. */
  function Spec(q: seq<Value>, e: Event): Option<seq<Value>> {
    match e
    case Appended(v) => Some(q + [v])
    case AppendedFront(v) => Some(q + [v])
    case Prepended(v) => Some([v] + q)
    case Taken(v) => if |q| > 0 && q[0] == v then Some(q[1..]) else None
    case SawEmpty => if q == [] then Some(q) else None
  }

  lemma ValuesFrame(a: Shared, b: Shared, nodes: seq<Ref>)
    requires forall i | 0 <= i < |nodes| :: ValueAt(a, nodes[i]) == ValueAt(b, nodes[i])
    ensures ValuesOf(a, nodes) == ValuesOf(b, nodes)
  {
  }

  lemma ValuesConcat(sh: Shared, xs: seq<Ref>, ys: seq<Ref>)
    ensures ValuesOf(sh, xs + ys) == ValuesOf(sh, xs) + ValuesOf(sh, ys)
  {
  }

  /** Only the sentinel may lose its value. */
  lemma ValueKept(sh: Shared, e: Effect, n: Ref)
    requires EffectOk(sh, e) && IsLinked(sh, n) && n != sh.head
    ensures ValueAt(Apply(sh, e), n) == ValueAt(sh, n)
  {
  }

  lemma ValuesKept(sh: Shared, e: Effect, nodes: seq<Ref>)
    requires SharedInv(sh) && EffectOk(sh, e) && nodes == sh.chain[1..]
    ensures ValuesOf(Apply(sh, e), nodes) == ValuesOf(sh, nodes)
  {
    forall i | 0 <= i < |nodes| ensures ValueAt(Apply(sh, e), nodes[i]) == ValueAt(sh, nodes[i]) {
      assert nodes[i] == sh.chain[i + 1];
      ValueKept(sh, e, nodes[i]);
    }
    ValuesFrame(Apply(sh, e), sh, nodes);
  }

  lemma QueueSame(sh: Shared, e: Effect)
    requires SharedInv(sh) && EffectOk(sh, e) && !e.Link? && !e.PopHead? && !e.PushHead?
    ensures Queue(Apply(sh, e)) == Queue(sh)
  {
    ValuesKept(sh, e, sh.chain[1..]);
  }

  lemma SameValues(a: Shared, b: Shared, nodes: seq<Ref>)
    requires a.val == b.val
    ensures ValuesOf(a, nodes) == ValuesOf(b, nodes)
  {
    ValuesFrame(a, b, nodes);
  }

  lemma QueueLink(sh: Shared, e: Ref, p: Ref)
    requires |sh.chain| > 0
    ensures Queue(Apply(sh, Link(e, p))) == Queue(sh) + [ValueAt(sh, p)]
  {
    var s2 := Apply(sh, Link(e, p));
    assert s2.chain[1..] == sh.chain[1..] + [p];
    SameValues(s2, sh, s2.chain[1..]);
    ValuesConcat(sh, sh.chain[1..], [p]);
  }

  lemma QueuePop(sh: Shared, nx: Ref)
    requires |sh.chain| > 1 && sh.chain[1] == nx
    ensures Queue(sh) == [ValueAt(sh, nx)] + Queue(Apply(sh, PopHead(nx)))
  {
    var s2 := Apply(sh, PopHead(nx));
    assert sh.chain[1..] == [nx] + s2.chain[1..];
    SameValues(s2, sh, s2.chain[1..]);
    ValuesConcat(sh, [nx], s2.chain[1..]);
  }

  lemma QueuePush(sh: Shared, sen: Ref, w: Ref)
    requires |sh.chain| > 0
    ensures Queue(Apply(sh, PushHead(sen, w))) == [ValueAt(sh, w)] + Queue(sh)
  {
    var s2 := Apply(sh, PushHead(sen, w));
    assert s2.chain[1..] == [w] + sh.chain[1..];
    SameValues(s2, sh, s2.chain[1..]);
    ValuesConcat(sh, [w], sh.chain[1..]);
  }

  /** A linked node that is the verified head and has no successor is alone. */
  lemma NoSuccessor(sh: Shared, t: nat, th: Thread)
    requires SharedInv(sh) && HeadSlotInv(sh, t, th) && th.pc.HNext? && NextOf(sh, th.sH) == NULL
    ensures Queue(sh) == []
  {
    LastOnly(sh, th.sH);
  }

  /** The queue goes from that of sh to that of sh2 by the event, or stays as it is. */
  predicate Matches(sh: Shared, sh2: Shared, event: Option<Event>) {
    match event
    case Some(e) => Spec(Queue(sh), e) == Some(Queue(sh2))
    case None => Queue(sh2) == Queue(sh)
  }

  lemma TailLinkMatches(sh: Shared, t: nat, th: Thread)
    requires |sh.chain| > 0 && th.pc.TLink? && th.lin == None
    requires ValOf(sh, th.own) == Some(th.v)
    ensures Matches(sh, Apply(sh, GoEffect(sh, th)), EventBy(sh, th))
  {
    if NextOf(sh, th.sT) == NULL { QueueLink(sh, th.sT, th.own); }
  }

  lemma HeadCasMatches(sh: Shared, t: nat, th: Thread)
    requires |sh.chain| > 0 && th.pc.HCas? && th.lin == None
    requires sh.head == th.sH && th.op.Pop? ==> |sh.chain| > 1 && sh.chain[1] == th.sN
    requires !th.op.Pop? ==> ValOf(sh, th.own) == Some(th.v)
    ensures Matches(sh, Apply(sh, GoEffect(sh, th)), EventBy(sh, th))
  {
    if sh.head == th.sH {
      if th.op.Pop? { QueuePop(sh, th.sN); } else { QueuePush(sh, th.sen, th.own); }
    }
  }

  lemma EmptyMatches(sh: Shared, t: nat, th: Thread)
    requires SharedInv(sh) && ThreadInv(sh, t, th) && th.pc.HNext?
    ensures Matches(sh, Apply(sh, GoEffect(sh, th)), EventBy(sh, th))
  {
    if NextOf(sh, th.sH) == NULL { NoSuccessor(sh, t, th); }
    hide SharedInv, ThreadInv;
  }

  /** No other instruction records an event or changes the queue. */
  lemma OtherGo(sh: Shared, th: Thread)
    requires CanGo(th) && Recorded(th) && !th.pc.TLink? && !th.pc.HCas? && !th.pc.HNext?
    ensures EventBy(sh, th) == None
    ensures var e := GoEffect(sh, th); !e.Link? && !e.PopHead? && !e.PushHead?
  {
  }

  lemma GoMatches(sh: Shared, t: nat, th: Thread)
    requires SharedInv(sh) && ThreadInv(sh, t, th) && CanGo(th)
    ensures Matches(sh, Apply(sh, GoEffect(sh, th)), EventBy(sh, th))
  {
    match th.pc
    case TLink => TailLinkMatches(sh, t, th);
    case HCas =>
      if sh.head == th.sH { SecondNode(sh); }
      HeadCasMatches(sh, t, th);
    case HNext => EmptyMatches(sh, t, th);
    case _ =>
      OtherGo(sh, th);
      GoIsOk(sh, t, th);
      QueueSame(sh, GoEffect(sh, th));
  }

  /** Every step of the machine is a step of the sequential queue or leaves it alone. */
  lemma StepRefines(s: State, a: Action)
    requires Inv(s) && Enabled(s, a)
    ensures Matches(s.sh, Do(s, a).sh, EventOf(s, a))
  {
    if a.Go? {
      assert ThreadInv(s.sh, a.t, s.threads[a.t]);
      GoMatches(s.sh, a.t, s.threads[a.t]);
    } else {
      EffectIsOk(s, a);
      QueueSame(s.sh, EffectOf(s, a));
    }
  }
}
