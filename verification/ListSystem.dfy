/** The whole list: any number of threads that insert and remove at both ends or by a
    predicate, the node pool that recycles what they unlink, and all interleavings. */
module ListSystem {
  import opened MarkedLink
  import opened Reclaim
  import opened ListShared
  import opened ListThreads

  datatype State = State(sh: Shared, threads: seq<Thread>)

  datatype Action =
    | Spawn                                        // a thread registers its hazard slots
    | Call(t: nat, op: Op, want: iset<Value>)      // a pop or a removal
    | CallInsert(t: nat, op: Op, want: iset<Value>, v: Value, n: Ref)
    | Go(t: nat)                                   // the next instruction of thread t
    | ClearSlot(t: nat, k: nat)
    | Return(t: nat)
    | StartScan(n: Ref)
    | ReadSlot(n: Ref, t: nat, k: nat)
    | StopScan(n: Ref)
    | EndScan(n: Ref)
    | Reword(n: Ref, w: Word)                      // the pool writes to a free node

  function Init(): State {
    State(
      Shared(map[HEAD := Word(SENTINEL, false), SENTINEL := Word(NULL, false)], map[],
             map[HEAD := Linked, SENTINEL := Linked], [HEAD, SENTINEL]),
      [])
  }

  predicate SlotsClear(th: Thread) {
    forall k | 0 <= k < |th.slots| :: th.slots[k] == NULL
  }

  predicate Enabled(s: State, a: Action) {
    match a
    case Spawn => true
    case Call(t, op, want) => t < |s.threads| && s.threads[t].pc.Idle? && !Inserts(op)
    case CallInsert(t, op, want, v, n) =>
      t < |s.threads| && s.threads[t].pc.Idle? && Inserts(op) && Available(s.sh.life, n)
    case Go(t) => t < |s.threads| && CanGo(s.threads[t])
    case ClearSlot(t, k) => t < |s.threads| && s.threads[t].pc.Fin?
    case Return(t) => t < |s.threads| && s.threads[t].pc.Fin? && SlotsClear(s.threads[t])
    case StartScan(n) => Alive(s.sh, n).Retired?
    case ReadSlot(n, t, k) => Alive(s.sh, n).Scanning? && (t < |s.threads| ==> SlotAt(s.threads[t], k) != n)
    case StopScan(n) => Alive(s.sh, n).Scanning?
    case EndScan(n) => Alive(s.sh, n).Scanning? && Alive(s.sh, n).todo == {}
    case Reword(n, w) => n != NULL && Alive(s.sh, n).Free?
  }

  function EffectOf(s: State, a: Action): Effect
    requires Enabled(s, a)
  {
    match a
    case CallInsert(t, op, want, v, n) => Acquire(n, t, Some(v))
    case Go(t) => GoEffect(s.sh, t, s.threads[t])
    case StartScan(n) => BeginScan(n, |s.threads|)
    case ReadSlot(n, t, k) => Visit(n, (t, k))
    case StopScan(n) => FailScan(n)
    case EndScan(n) => FinishScan(n)
    case Reword(n, w) => WriteWord(n, w)
    case _ => Nothing
  }

  /** The thread that acts, if one does. */
  function Actor(a: Action): Option<nat> {
    match a
    case Call(t, _, _) => Some(t)
    case CallInsert(t, _, _, _, _) => Some(t)
    case Go(t) => Some(t)
    case ClearSlot(t, _) => Some(t)
    case Return(t) => Some(t)
    case _ => None
  }

  ghost function ThreadAfter(s: State, a: Action): Thread
    requires Enabled(s, a) && Actor(a).Some?
  {
    var th := s.threads[Actor(a).value];
    match a
    case Call(t, op, want) => IdleThread().(op := op, want := want, pc := FStart)
    case CallInsert(t, op, want, v, n) => IdleThread().(op := op, want := want, v := v, own := n, pc := FStart)
    case Go(t) => GoThread(s.sh, th)
    case ClearSlot(t, k) => Publish(th, k, NULL)
    case _ => IdleThread()
  }

  ghost function Do(s: State, a: Action): State
    requires Enabled(s, a)
  {
    State(
      Apply(s.sh, EffectOf(s, a)),
      if a.Spawn? then s.threads + [IdleThread()]
      else if Actor(a).Some? then s.threads[Actor(a).value := ThreadAfter(s, a)]
      else s.threads)
  }

  // ---- the invariant ----

  ghost predicate ThreadsInv(sh: Shared, threads: seq<Thread>) {
    forall t | 0 <= t < |threads| :: ThreadInv(sh, t, threads[t])
  }

  /** No two threads have claimed the value of the same node. */
  ghost predicate PickersDiffer(threads: seq<Thread>) {
    forall t, u | 0 <= t < u < |threads| && threads[t].pc.Pick? && threads[u].pc.Pick? ::
      threads[t].curr.p != threads[u].curr.p
  }

  ghost predicate Inv(s: State) {
    SharedInv(s.sh) && ThreadsInv(s.sh, s.threads) && PickersDiffer(s.threads)
  }

  lemma EffectIsOk(s: State, a: Action)
    requires Inv(s) && Enabled(s, a)
    ensures EffectOk(s.sh, EffectOf(s, a))
  {
    if a.Go? {
      assert ThreadInv(s.sh, a.t, s.threads[a.t]);
      GoIsOk(s.sh, a.t, s.threads[a.t]);
    }
  }

  lemma GoIsForeign(sh: Shared, t: nat, th: Thread, u: nat, other: Thread)
    requires ThreadInv(sh, t, th) && CanGo(th) && t != u
    requires th.pc.Pick? && other.pc.Pick? ==> th.curr.p != other.curr.p
    ensures Foreign(sh, GoEffect(sh, t, th), u, other)
  {
  }

  lemma EffectIsForeign(s: State, a: Action, u: nat)
    requires Inv(s) && Enabled(s, a) && u < |s.threads| && Actor(a) != Some(u)
    ensures Foreign(s.sh, EffectOf(s, a), u, s.threads[u])
  {
    if a.Go? {
      assert ThreadInv(s.sh, a.t, s.threads[a.t]);
      GoIsForeign(s.sh, a.t, s.threads[a.t], u, s.threads[u]);
    }
  }

  lemma CallKeepsInv(sh: Shared, t: nat, op: Op, want: iset<Value>)
    requires !Inserts(op)
    ensures ThreadInv(sh, t, IdleThread().(op := op, want := want, pc := FStart))
  {
  }

  lemma CallInsertKeepsInv(sh: Shared, t: nat, op: Op, want: iset<Value>, v: Value, n: Ref)
    requires Inserts(op) && Available(sh.life, n)
    ensures ThreadInv(Apply(sh, Acquire(n, t, Some(v))), t, IdleThread().(op := op, want := want, v := v, own := n, pc := FStart))
  {
  }

  lemma IdleKeepsInv(sh: Shared, t: nat)
    ensures ThreadInv(sh, t, IdleThread())
  {
  }

  lemma ClearKeepsInv(sh: Shared, t: nat, th: Thread, k: nat)
    requires ThreadInv(sh, t, th) && th.pc.Fin?
    ensures ThreadInv(sh, t, Publish(th, k, NULL))
  {
  }

  lemma ActorKeepsInv(s: State, a: Action)
    requires Inv(s) && Enabled(s, a) && Actor(a).Some?
    ensures ThreadInv(Do(s, a).sh, Actor(a).value, ThreadAfter(s, a))
  {
    match a
    case Go(t) =>
      assert ThreadInv(s.sh, t, s.threads[t]);
      GoKeepsThread(s.sh, t, s.threads[t]);
    case Call(t, op, want) => CallKeepsInv(s.sh, t, op, want);
    case CallInsert(t, op, want, v, n) => CallInsertKeepsInv(s.sh, t, op, want, v, n);
    case ClearSlot(t, k) =>
      assert ThreadInv(s.sh, t, s.threads[t]);
      ClearKeepsInv(s.sh, t, s.threads[t], k);
    case Return(t) => IdleKeepsInv(s.sh, t);
    case _ =>
  }

  lemma StepKeepsThreads(s: State, a: Action)
    requires Inv(s) && Enabled(s, a)
    ensures ThreadsInv(Do(s, a).sh, Do(s, a).threads)
  {
    var s2 := Do(s, a);
    EffectIsOk(s, a);
    forall u | 0 <= u < |s2.threads| ensures ThreadInv(s2.sh, u, s2.threads[u]) {
      if u == |s.threads| {
        IdleKeepsInv(s2.sh, u);
      } else if Actor(a) == Some(u) {
        ActorKeepsInv(s, a);
      } else {
        EffectIsForeign(s, a, u);
        assert ThreadInv(s.sh, u, s.threads[u]);
        ThreadStable(s.sh, EffectOf(s, a), u, s.threads[u]);
      }
    }
  }

  /** Only a mark this thread has just set gives the right to take the value. */
  lemma OnlyClaimPicks(sh: Shared, th: Thread)
    requires CanGo(th) && GoThread(sh, th).pc.Pick?
    ensures !Marked(sh, th.curr.p) && GoThread(sh, th).curr == th.curr
  {
  }

  lemma PickedIsMarked(sh: Shared, t: nat, th: Thread)
    requires ThreadInv(sh, t, th) && th.pc.Pick?
    ensures Marked(sh, th.curr.p)
  {
  }

  lemma NewPicker(s: State, t: nat, u: nat)
    requires Inv(s) && t < |s.threads| && u < |s.threads| && u != t
    requires CanGo(s.threads[t]) && GoThread(s.sh, s.threads[t]).pc.Pick? && s.threads[u].pc.Pick?
    ensures s.threads[u].curr.p != GoThread(s.sh, s.threads[t]).curr.p
  {
    OnlyClaimPicks(s.sh, s.threads[t]);
    assert ThreadInv(s.sh, u, s.threads[u]);
    PickedIsMarked(s.sh, u, s.threads[u]);
  }

  lemma StepKeepsPickers(s: State, a: Action)
    requires Inv(s) && Enabled(s, a)
    ensures PickersDiffer(Do(s, a).threads)
  {
    if a.Go? && GoThread(s.sh, s.threads[a.t]).pc.Pick? {
      forall u | 0 <= u < |s.threads| && u != a.t && s.threads[u].pc.Pick?
        ensures s.threads[u].curr.p != ThreadAfter(s, a).curr.p
      {
        NewPicker(s, a.t, u);
      }
    }
  }

  lemma StepKeepsInv(s: State, a: Action)
    requires Inv(s) && Enabled(s, a)
    ensures Inv(Do(s, a))
  {
    EffectIsOk(s, a);
    EffectKeepsInv(s.sh, EffectOf(s, a));
    StepKeepsThreads(s, a);
    StepKeepsPickers(s, a);
  }

  // ---- refinement of a sequential list ----

  /** What the next instruction of a thread does to the list. */
  function EventBy(sh: Shared, t: nat, th: Thread): Option<Event> {
    match GoEffect(sh, t, th)
    case Insert(p, n) => Some(Inserted(PositionAfter(sh, p), ValueAt(sh, n)))
    case SetMark(n) => Some(Removed(Position(sh, n), ValueAt(sh, n)))
    case _ =>
      if th.pc.FHeadVer? && GoThread(sh, th).lin == Some(SawEmpty) then Some(SawEmpty) else None
  }

  function EventOf(s: State, a: Action): Option<Event>
    requires Enabled(s, a)
  {
    if a.Go? then EventBy(s.sh, a.t, s.threads[a.t]) else None
  }

  /** The sequential list: what an event requires of q and what it leaves. */
  function Spec(q: seq<Value>, e: Event): Option<seq<Value>> {
    match e
    case Inserted(k, v) => if k <= |q| then Some(InsertAt(q, k, v)) else None
    case Removed(k, v) => if k < |q| && q[k] == v then Some(RemoveAt(q, k)) else None
    case SawEmpty => if q == [] then Some(q) else None
  }

  /** The list goes from that of sh to that of sh2 by the event, or stays as it is. */
  predicate Matches(sh: Shared, sh2: Shared, event: Option<Event>) {
    match event
    case Some(e) => Spec(List(sh), e) == Some(List(sh2))
    case None => List(sh2) == List(sh)
  }

  /** When the head points at the sentinel there is no element. */
  lemma HeadAtSentinel(sh: Shared)
    requires SharedInv(sh) && WordOf(sh, HEAD).p == SENTINEL
    ensures List(sh) == []
  {
    var i := PlaceOf(sh, HEAD);
    var j := PlaceOf(sh, SENTINEL);
    assert sh.chain == [HEAD, SENTINEL];
    ElementsConcat(sh, [HEAD], [SENTINEL]);
    OneElement(sh, HEAD);
    OneElement(sh, SENTINEL);
    assert [HEAD] + [SENTINEL] == sh.chain;
  }

  /** Any effect changes the list as its event says. */
  lemma EffectMatches(sh: Shared, e: Effect)
    requires SharedInv(sh) && EffectOk(sh, e)
    ensures e.Insert? ==> Matches(sh, Apply(sh, e), Some(Inserted(PositionAfter(sh, e.p), ValueAt(sh, e.n))))
    ensures e.SetMark? ==> Matches(sh, Apply(sh, e), Some(Removed(Position(sh, e.n), ValueAt(sh, e.n))))
    ensures !e.Insert? && !e.SetMark? ==> Matches(sh, Apply(sh, e), None)
  {
    match e
    case Insert(p, n) => InsertAdds(sh, p, n);
    case SetMark(n) => MarkRemoves(sh, n);
    case Unlink(p, n, t) => UnlinkKeepsList(sh, p, n, t);
    case _ => OtherKeepsList(sh, e);
  }

  lemma SawEmptyAtHead(sh: Shared, th: Thread)
    requires th.pc.FHeadVer? && th.lin == None && GoThread(sh, th).lin == Some(SawEmpty)
    ensures WordOf(sh, HEAD).p == SENTINEL
  {
  }

  lemma GoMatches(sh: Shared, t: nat, th: Thread)
    requires SharedInv(sh) && ThreadInv(sh, t, th) && CanGo(th)
    ensures Matches(sh, Apply(sh, GoEffect(sh, t, th)), EventBy(sh, t, th))
  {
    GoIsOk(sh, t, th);
    EffectMatches(sh, GoEffect(sh, t, th));
    if EventBy(sh, t, th) == Some(SawEmpty) {
      SawEmptyAtHead(sh, th);
      HeadAtSentinel(sh);
    }
  }

  /** Every step of the machine is a step of the sequential list or leaves it alone. */
  lemma StepRefines(s: State, a: Action)
    requires Inv(s) && Enabled(s, a)
    ensures Matches(s.sh, Do(s, a).sh, EventOf(s, a))
  {
    if a.Go? {
      assert ThreadInv(s.sh, a.t, s.threads[a.t]);
      GoMatches(s.sh, a.t, s.threads[a.t]);
    } else {
      EffectIsOk(s, a);
      EffectMatches(s.sh, EffectOf(s, a));
    }
  }
}
