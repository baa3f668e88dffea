/** push_front of the FIFO puts its value first only while the queue is not empty, or
    when nobody gets in between: after it has seen an empty queue it links at the tail
    without looking at the head again. */
module FifoPushFront {
  import opened Reclaim
  import opened FifoShared
  import opened FifoThreads
  import opened FifoSystem
  import opened FifoTheorems

  lemma NewIsNotOld(sh: Shared, n: Ref)
    requires ChainInv(sh) && !IsLinked(sh, n)
    ensures n !in sh.chain
  {
  }

  lemma QueueIsEmpty(sh: Shared)
    requires |sh.chain| > 0
    ensures Queue(sh) == [] <==> |sh.chain| == 1
  {
  }

  lemma FrontByCas(sh: Shared, sen: Ref, w: Ref)
    ensures var c := Apply(sh, PushHead(sen, w)).chain; |c| > 1 && c[1] == w
  {
  }

  lemma FrontByLink(sh: Shared, e: Ref, w: Ref)
    requires |sh.chain| > 0 && w !in sh.chain
    ensures var c := Apply(sh, Link(e, w)).chain; |c| > 1 && (c[1] == w <==> |sh.chain| == 1)
  {
  }

  lemma PushFrontEffects(sh: Shared, th: Thread)
    requires CanGo(th) && th.op.PushFront? && Recorded(th) && EventBy(sh, th).Some?
    ensures GoEffect(sh, th) == if th.pc.HCas? then PushHead(th.sen, th.own) else Link(th.sT, th.own)
  {
  }

  /** The node that push_front links stands first behind the sentinel if and only if it is
      linked by the head CAS, or the queue is empty at the tail CAS. */
  lemma FrontExactly(s: State, t: nat)
    requires Inv(s) && Enabled(s, Go(t)) && s.threads[t].op.PushFront? && EventOf(s, Go(t)).Some?
    ensures var th, c := s.threads[t], Do(s, Go(t)).sh.chain;
            |c| > 1 && (c[1] == th.own <==> th.pc.HCas? || Queue(s.sh) == [])
  {
    var th := s.threads[t];
    assert ThreadInv(s.sh, t, th);
    PushFrontEffects(s.sh, th);
    GoIsOk(s.sh, t, th);
    QueueIsEmpty(s.sh);
    if th.pc.HCas? {
      FrontByCas(s.sh, th.sen, th.own);
    } else {
      NewIsNotOld(s.sh, th.own);
      FrontByLink(s.sh, th.sT, th.own);
    }
  }

  // ---- a run in which it does not come first ----

  predicate Leads(s: State, a: Action, s2: State) {
    Enabled(s, a) && Do(s, a) == s2
  }

  ghost predicate Trace(states: seq<State>, run: seq<Action>) {
    |states| == |run| + 1 && forall i | 0 <= i < |run| :: Leads(states[i], run[i], states[i + 1])
  }

  ghost predicate CanReach(s: State, s2: State) {
    exists states, run :: Trace(states, run) && states[0] == s && states[|run|] == s2
  }

  lemma ReachStart(s: State)
    ensures CanReach(s, s)
  {
    var run: seq<Action> := [];
    assert Trace([s], run);
  }

  lemma ReachStep(s: State, s1: State, a: Action, s2: State)
    requires CanReach(s, s1) && Leads(s1, a, s2)
    ensures CanReach(s, s2)
  {
    var states, run :| Trace(states, run) && states[0] == s && states[|run|] == s1;
    assert Trace(states + [s2], run + [a]);
  }

  lemma {:induction false} TraceIsRun(states: seq<State>, run: seq<Action>)
    requires Trace(states, run)
    ensures ValidRun(states[0], run) && After(states[0], run) == states[|run|]
    decreases |run|
  {
    if run != [] {
      assert Leads(states[0], run[0], states[1]);
      assert Trace(states[1..], run[1..]);
      TraceIsRun(states[1..], run[1..]);
    }
  }

  function At(sh: Shared, t0: Thread, t1: Thread, pushed: multiset<Value>): State {
    State(sh, [t0, t1], pushed, multiset{})
  }

  /** One instruction of thread 0. */
  lemma First(s: State, sh: Shared, t0: Thread, t1: Thread, p: multiset<Value>)
    requires CanReach(s, At(sh, t0, t1, p)) && CanGo(t0) && !t0.pc.Pick?
    ensures CanReach(s, At(Apply(sh, GoEffect(sh, t0)), GoThread(sh, t0), t1, p + Pushes(EventBy(sh, t0))))
  {
    ReachStep(s, At(sh, t0, t1, p), Go(0), At(Apply(sh, GoEffect(sh, t0)), GoThread(sh, t0), t1, p + Pushes(EventBy(sh, t0))));
  }

  /** One instruction of thread 1. */
  lemma Second(s: State, sh: Shared, t0: Thread, t1: Thread, p: multiset<Value>)
    requires CanReach(s, At(sh, t0, t1, p)) && CanGo(t1) && !t1.pc.Pick?
    ensures CanReach(s, At(Apply(sh, GoEffect(sh, t1)), t0, GoThread(sh, t1), p + Pushes(EventBy(sh, t1))))
  {
    ReachStep(s, At(sh, t0, t1, p), Go(1), At(Apply(sh, GoEffect(sh, t1)), t0, GoThread(sh, t1), p + Pushes(EventBy(sh, t1))));
  }

  lemma Same(p: multiset<Value>)
    ensures p + multiset{} == p
  {
  }

  /** push_front finds the sentinel alone. */
  lemma LoadHead(s: State, sh: Shared, t0: Thread, t1: Thread, p: multiset<Value>)
    requires CanReach(s, At(sh, t0, t1, p)) && t0.pc.F0? && t0.lin == None
    ensures var m := Apply(sh, WriteNext(t0.sen, t0.own));
            CanReach(s, At(m, t0.(x := sh.head, sH := sh.head, pc := HVer), t1, p))
  {
    var m := Apply(sh, WriteNext(t0.sen, t0.own));
    Same(p);
    First(s, sh, t0, t1, p);
    First(s, m, t0.(pc := HLoad), t1, p);
    First(s, m, t0.(x := sh.head, pc := HPub), t1, p);
  }

  lemma SeeEmpty(s: State, sh: Shared, t0: Thread, t1: Thread, p: multiset<Value>)
    requires CanReach(s, At(sh, t0, t1, p)) && t0.pc.HVer? && t0.op.PushFront? && t0.lin == None
    requires sh.head == t0.sH && NextOf(sh, sh.head) == NULL
    ensures CanReach(s, At(sh, t0.(nx := NULL, pc := TLoad), t1, p))
  {
    Same(p);
    First(s, sh, t0, t1, p);
    First(s, sh, t0.(pc := HNext), t1, p);
  }

  /** push_back, when nobody interferes. */
  lemma LoadBack(s: State, sh: Shared, t0: Thread, t1: Thread, p: multiset<Value>)
    requires CanReach(s, At(sh, t0, t1, p)) && t1.pc.B0? && t1.op.PushBack? && t1.lin == None
    ensures var m := Apply(sh, WriteNext(t1.own, NULL));
            CanReach(s, At(m, t0, t1.(x := sh.tail, sT := sh.tail, pc := TVer), p))
  {
    var m := Apply(sh, WriteNext(t1.own, NULL));
    Same(p);
    Second(s, sh, t0, t1, p);
    Second(s, m, t0, t1.(pc := TLoad), p);
    Second(s, m, t0, t1.(x := sh.tail, pc := TPub), p);
  }

  lemma SeeBack(s: State, sh: Shared, t0: Thread, t1: Thread, p: multiset<Value>)
    requires CanReach(s, At(sh, t0, t1, p)) && t1.pc.TVer? && t1.op.PushBack? && t1.lin == None
    requires sh.tail == t1.sT && NextOf(sh, sh.tail) == NULL
    ensures CanReach(s, At(sh, t0, t1.(nx := NULL, pc := TLink), p))
  {
    Same(p);
    Second(s, sh, t0, t1, p);
    Second(s, sh, t0, t1.(pc := TNext), p);
  }

  lemma LinkBack(s: State, sh: Shared, t0: Thread, t1: Thread, p: multiset<Value>)
    requires CanReach(s, At(sh, t0, t1, p)) && t1.pc.TLink? && t1.op.PushBack? && t1.lin == None
    requires sh.tail == t1.sT && NextOf(sh, sh.tail) == NULL
    ensures CanReach(s, At(Apply(Apply(sh, Link(sh.tail, t1.own)), Swing(t1.own)), t0,
                           t1.(nx := t1.own, own := NULL, lin := Some(Appended(t1.v)), pc := Fin), p + multiset{t1.v}))
  {
    Same(p + multiset{t1.v});
    Second(s, sh, t0, t1, p);
    Second(s, Apply(sh, Link(sh.tail, t1.own)), t0,
           t1.(nx := t1.own, own := NULL, lin := Some(Appended(t1.v)), pc := TSwing), p + multiset{t1.v});
  }

  /** push_front from the load of the tail on, when nobody interferes. */
  lemma LoadTail(s: State, sh: Shared, t0: Thread, t1: Thread, p: multiset<Value>)
    requires CanReach(s, At(sh, t0, t1, p)) && t0.pc.TLoad? && t0.op.PushFront? && t0.lin == None
    ensures CanReach(s, At(sh, t0.(x := sh.tail, sT := sh.tail, pc := TNext), t1, p))
  {
    Same(p);
    First(s, sh, t0, t1, p);
    First(s, sh, t0.(x := sh.tail, pc := TPub), t1, p);
    First(s, sh, t0.(x := sh.tail, sT := sh.tail, pc := TVer), t1, p);
  }

  lemma LinkFront(s: State, sh: Shared, t0: Thread, t1: Thread, p: multiset<Value>)
    requires CanReach(s, At(sh, t0, t1, p)) && t0.pc.TNext? && t0.op.PushFront? && t0.lin == None
    requires t0.own != sh.tail && t0.sT == sh.tail && NextOf(sh, sh.tail) == NULL
    ensures CanReach(s, At(Apply(Apply(sh, WriteNext(t0.own, NULL)), Link(sh.tail, t0.own)),
                           t0.(nx := NULL, own := NULL, lin := Some(AppendedFront(t0.v)), pc := Fin), t1, p + multiset{t0.v}))
  {
    Same(p);
    First(s, sh, t0, t1, p);
    First(s, sh, t0.(nx := NULL, pc := TSetW), t1, p);
    First(s, Apply(sh, WriteNext(t0.own, NULL)), t0.(nx := NULL, pc := TLink), t1, p);
  }

  /** Thread 0 in its push_front(2), thread 1 before its push_back(1). */
  const STARTED: Thread := IdleThread().(pc := F0, op := PushFront, v := 2, own := 2, sen := 3)
  const M0: Shared := Init(1).sh
  const M1: Shared := Apply(Apply(M0, Acquire(2, 0, Some(2))), Acquire(3, 0, None))

  lemma Start()
    ensures CanReach(Init(1), At(M1, STARTED, IdleThread(), multiset{}))
  {
    var s0 := Init(1);
    ReachStart(s0);
    ReachStep(s0, s0, Spawn, State(M0, [IdleThread()], multiset{}, multiset{}));
    ReachStep(s0, State(M0, [IdleThread()], multiset{}, multiset{}), Spawn, At(M0, IdleThread(), IdleThread(), multiset{}));
    StartCall();
  }

  lemma StartCall()
    requires CanReach(Init(1), At(M0, IdleThread(), IdleThread(), multiset{}))
    ensures CanReach(Init(1), At(M1, STARTED, IdleThread(), multiset{}))
  {
    var s1 := At(M0, IdleThread(), IdleThread(), multiset{});
    var s2 := At(Apply(M0, Acquire(2, 0, Some(2))), STARTED.(sen := NULL, pc := A1), IdleThread(), multiset{});
    ReachStep(Init(1), s1, CallPushFront(0, 2, 2), s2);
    ReachStep(Init(1), s2, GetSentinel(0, 3), At(M1, STARTED, IdleThread(), multiset{}));
  }

  const M2: Shared := Apply(M1, WriteNext(3, 2))
  const SEEN: Thread := STARTED.(x := 1, sH := 1, nx := NULL, pc := TLoad)
  const PUSHING: Thread := IdleThread().(pc := B0, op := PushBack, v := 1, own := 4)
  const M3: Shared := Apply(M2, Acquire(4, 1, Some(1)))
  const M4: Shared := Apply(M3, WriteNext(4, NULL))
  const M5: Shared := Apply(Apply(M4, Link(1, 4)), Swing(4))
  const M6: Shared := Apply(Apply(M5, WriteNext(2, NULL)), Link(4, 2))
  const PUSHED: Thread := PUSHING.(x := 1, sT := 1, nx := 4, own := NULL, lin := Some(Appended(1)), pc := Fin)

  lemma SeenEmpty()
    ensures CanReach(Init(1), At(M2, SEEN, IdleThread(), multiset{}))
  {
    Start();
    LoadHead(Init(1), M1, STARTED, IdleThread(), multiset{});
    assert M2.head == 1 && NextOf(M2, 1) == NULL;
    SeeEmpty(Init(1), M2, STARTED.(x := 1, sH := 1, pc := HVer), IdleThread(), multiset{});
  }

  lemma Overtaken()
    ensures CanReach(Init(1), At(M5, SEEN, PUSHED, multiset{1}))
  {
    SeenEmpty();
    ReachStep(Init(1), At(M2, SEEN, IdleThread(), multiset{}), CallPushBack(1, 1, 4), At(M3, SEEN, PUSHING, multiset{}));
    LoadBack(Init(1), M3, SEEN, PUSHING, multiset{});
    assert M4.tail == 1 && NextOf(M4, 1) == NULL;
    SeeBack(Init(1), M4, SEEN, PUSHING.(x := 1, sT := 1, pc := TVer), multiset{});
    LinkBack(Init(1), M4, SEEN, PUSHING.(x := 1, sT := 1, nx := NULL, pc := TLink), multiset{});
    assert multiset{} + multiset{1} == multiset{1};
  }

  lemma LinkedSecond()
    ensures CanReach(Init(1), At(M6, SEEN.(x := 4, sT := 4, own := NULL, lin := Some(AppendedFront(2)), pc := Fin), PUSHED, multiset{1, 2}))
  {
    Overtaken();
    assert M5.tail == 4 && NextOf(M5, 4) == NULL;
    LoadTail(Init(1), M5, SEEN, PUSHED, multiset{1});
    LinkFront(Init(1), M5, SEEN.(x := 4, sT := 4, pc := TNext), PUSHED, multiset{1});
    assert multiset{1} + multiset{2} == multiset{1, 2};
  }

  lemma EndsBehind()
    ensures Queue(M6) == [1, 2]
  {
    assert M6.chain == [1, 4, 2] && ValueAt(M6, 4) == 1 && ValueAt(M6, 2) == 2;
    assert M6.chain[1..] == [4, 2];
  }

  /** push_front is not always first: there is a run from the empty queue in which thread 0
      does push_front(2) and thread 1 push_back(1), and the 2 ends up behind the 1. */
  lemma NotAlwaysFirst() returns (run: seq<Action>)
    ensures ValidRun(Init(1), run)
    ensures var s2 := After(Init(1), run);
            && Queue(s2.sh) == [1, 2] && |s2.threads| == 2
            && s2.threads[0].op.PushFront? && s2.threads[0].lin == Some(AppendedFront(2))
  {
    LinkedSecond();
    EndsBehind();
    hide Queue;
    var s2 := At(M6, SEEN.(x := 4, sT := 4, own := NULL, lin := Some(AppendedFront(2)), pc := Fin), PUSHED, multiset{1, 2});
    var states, r :| Trace(states, r) && states[0] == Init(1) && states[|r|] == s2;
    TraceIsRun(states, r);
    run := r;
  }
}
