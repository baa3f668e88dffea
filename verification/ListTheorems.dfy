/** What every run of the list keeps: it is a sequential list, the ends are exact, each
    element is claimed once and each node is given to the pool once. */
module ListTheorems {
  import opened MarkedLink
  import opened Reclaim
  import opened ListShared
  import opened ListThreads
  import opened ListSystem

  // ---- runs ----

  ghost predicate ValidRun(s: State, run: seq<Action>)
    decreases |run|
  {
    run == [] || (Enabled(s, run[0]) && ValidRun(Do(s, run[0]), run[1..]))
  }

  ghost function After(s: State, run: seq<Action>): State
    requires ValidRun(s, run)
    decreases |run|
  {
    if run == [] then s else After(Do(s, run[0]), run[1..])
  }

  /** The events of a run in the order of the steps that cause them. */
  ghost function Events(s: State, run: seq<Action>): seq<Event>
    requires ValidRun(s, run)
    decreases |run|
  {
    if run == [] then []
    else
      var rest := Events(Do(s, run[0]), run[1..]);
      match EventOf(s, run[0])
      case Some(e) => [e] + rest
      case None => rest
  }

  /** A sequential list that starts as q goes through the events, or refuses one. */
  function Replay(q: seq<Value>, events: seq<Event>): Option<seq<Value>>
    decreases |events|
  {
    if events == [] then Some(q)
    else
      match Spec(q, events[0])
      case Some(q2) => Replay(q2, events[1..])
      case None => None
  }

  lemma InitInv()
    ensures Inv(Init()) && List(Init().sh) == []
  {
    var sh := Init().sh;
    forall n ensures NodeOk(sh, n) {
      assert n != HEAD && n != SENTINEL ==> Alive(sh, n).Fresh?;
    }
    HeadAtSentinel(sh);
  }

  lemma ReplayStep(s: State, run: seq<Action>)
    requires run != [] && ValidRun(s, run) && Matches(s.sh, Do(s, run[0]).sh, EventOf(s, run[0]))
    ensures Replay(List(s.sh), Events(s, run)) == Replay(List(Do(s, run[0]).sh), Events(Do(s, run[0]), run[1..]))
  {
    var rest := Events(Do(s, run[0]), run[1..]);
    match EventOf(s, run[0])
    case Some(e) => assert ([e] + rest)[1..] == rest;
    case None =>
  }

  /** Linearizability: the events of any run, in the order of their steps, are a legal
      history of a sequential list that ends with the elements the nodes hold. */
  lemma {:induction false} RunIsSequential(s: State, run: seq<Action>)
    requires Inv(s) && ValidRun(s, run)
    ensures Inv(After(s, run))
    ensures Replay(List(s.sh), Events(s, run)) == Some(List(After(s, run).sh))
    decreases |run|
  {
    if run != [] {
      StepKeepsInv(s, run[0]);
      StepRefines(s, run[0]);
      RunIsSequential(Do(s, run[0]), run[1..]);
      ReplayStep(s, run);
    }
  }

  lemma ListIsLinearizable(run: seq<Action>)
    requires ValidRun(Init(), run)
    ensures Replay([], Events(Init(), run)) == Some(List(After(Init(), run).sh))
  {
    InitInv();
    RunIsSequential(Init(), run);
  }

  function InsertedValues(events: seq<Event>): multiset<Value> {
    if events == [] then multiset{}
    else (if events[0].Inserted? then multiset{events[0].v} else multiset{}) + InsertedValues(events[1..])
  }

  function RemovedValues(events: seq<Event>): multiset<Value> {
    if events == [] then multiset{}
    else (if events[0].Removed? then multiset{events[0].v} else multiset{}) + RemovedValues(events[1..])
  }

  lemma SpecConserves(q: seq<Value>, e: Event, q2: seq<Value>)
    requires Spec(q, e) == Some(q2)
    ensures multiset(q) + InsertedValues([e]) == multiset(q2) + RemovedValues([e])
  {
    match e
    case Inserted(k, v) => assert q == q[..k] + q[k..];
    case Removed(k, v) => assert q == q[..k] + [v] + q[k + 1..];
    case SawEmpty =>
  }

  lemma OneEvent(e: Event)
    ensures InsertedValues([e]) == if e.Inserted? then multiset{e.v} else multiset{}
    ensures RemovedValues([e]) == if e.Removed? then multiset{e.v} else multiset{}
  {
    assert [e][1..] == [];
  }

  /** Over every run: what was inserted is what was removed and what is still there. */
  lemma {:induction false} HistoryConserves(q: seq<Value>, events: seq<Event>)
    requires Replay(q, events).Some?
    ensures multiset(q) + InsertedValues(events) == multiset(Replay(q, events).value) + RemovedValues(events)
    decreases |events|
  {
    if events != [] {
      var q2 := Spec(q, events[0]).value;
      SpecConserves(q, events[0], q2);
      hide Spec;
      HistoryConserves(q2, events[1..]);
      OneEvent(events[0]);
      Chain(multiset(q), InsertedValues([events[0]]), multiset(q2), RemovedValues([events[0]]),
            InsertedValues(events[1..]), multiset(Replay(q2, events[1..]).value), RemovedValues(events[1..]));
    }
  }

  lemma Chain(q: multiset<Value>, i: multiset<Value>, q2: multiset<Value>, r: multiset<Value>,
              ins: multiset<Value>, q3: multiset<Value>, rs: multiset<Value>)
    requires q + i == q2 + r && q2 + ins == q3 + rs
    ensures q + (i + ins) == q3 + (r + rs)
  {
    forall v ensures (q + (i + ins))[v] == (q3 + (r + rs))[v] {
      assert (q + i)[v] == (q2 + r)[v];
      assert (q2 + ins)[v] == (q3 + rs)[v];
    }
  }

  // ---- what a call returns ----

  /** The event of a call is recorded at the step that causes it. */
  lemma RecordsItsEvent(sh: Shared, t: nat, th: Thread)
    requires SharedInv(sh) && ThreadInv(sh, t, th) && CanGo(th) && !th.op.RemoveAll?
    ensures GoThread(sh, th).lin == if th.lin.Some? then th.lin else EventBy(sh, t, th)
    ensures th.lin.Some? ==> EventBy(sh, t, th) == None
  {
    if th.pc.FNextVer? { LinkedFacts(sh, t, th); }
  }

  /** A pop returns the value it removed, or nothing after it met the list empty; an
      insert has inserted its value; remove_all_if returns the number of nodes it marked. */
  lemma ReturnsWhatItDid(s: State, t: nat)
    requires Inv(s) && Enabled(s, Return(t))
    ensures var th := s.threads[t];
            && (Inserts(th.op) ==> th.lin.Some? && th.lin.value.Inserted? && th.lin.value.v == th.v)
            && (th.op.PopFront? || th.op.PopBack? ==>
                  if th.res.Some? then th.lin.Some? && th.lin.value.Removed? && th.lin.value.v == th.res.value
                  else th.lin == Some(SawEmpty))
            && (th.op.RemoveOne? ==>
                  if th.res.Some? then th.lin.Some? && th.lin.value.Removed? && th.lin.value.v == th.res.value
                  else th.lin == None)
            && (th.op.RemoveAll? ==> th.ans == th.mine)
  {
    assert ThreadInv(s.sh, t, s.threads[t]);
  }

  // ---- the ends ----

  /** push_front succeeds only with the head as its predecessor: the value goes first. */
  lemma PushFrontIsFirst(s: State, t: nat)
    requires Inv(s) && Enabled(s, Go(t)) && s.threads[t].op.PushFront?
    requires EventOf(s, Go(t)).Some? && EventOf(s, Go(t)).value.Inserted?
    ensures s.threads[t].prev == HEAD
    ensures EventOf(s, Go(t)) == Some(Inserted(0, s.threads[t].v))
  {
    var th := s.threads[t];
    assert ThreadInv(s.sh, t, th);
    var i := PlaceOf(s.sh, HEAD) by { assert s.sh.chain[0] == HEAD; }
    assert s.sh.chain[..1] == [HEAD];
    OneElement(s.sh, HEAD);
  }

  /** A node whose successor is the sentinel is the last but one of the chain. */
  lemma BeforeSentinel(sh: Shared, p: Ref)
    requires SharedInv(sh) && IsLinked(sh, p) && p != SENTINEL && WordOf(sh, p).p == SENTINEL
    ensures IndexOf(sh.chain, p) == |sh.chain| - 2 && IndexOf(sh.chain, SENTINEL) == |sh.chain| - 1
  {
    var i := PlaceOf(sh, p);
    var j := PlaceOf(sh, SENTINEL);
  }

  lemma LastPosition(sh: Shared, p: Ref)
    requires SharedInv(sh) && IsLinked(sh, p) && p != SENTINEL && WordOf(sh, p).p == SENTINEL
    ensures PositionAfter(sh, p) == |List(sh)|
    ensures IsElement(sh, p) ==> Position(sh, p) == |List(sh)| - 1
  {
    BeforeSentinel(sh, p);
    LastElements(sh, sh.chain[..|sh.chain| - 2], p);
    hide SharedInv, Elements;
    var n := |sh.chain|;
    assert sh.chain == sh.chain[..n - 2] + [p] + [SENTINEL];
    assert sh.chain[..n - 1] == sh.chain[..n - 2] + [p];
  }

  lemma LastElements(sh: Shared, front: seq<Ref>, p: Ref)
    ensures |Elements(sh, front + [p] + [SENTINEL])| == |Elements(sh, front + [p])|
    ensures IsElement(sh, p) ==> |Elements(sh, front)| == |Elements(sh, front + [p])| - 1
  {
    ElementsConcat(sh, front + [p], [SENTINEL]);
    ElementsConcat(sh, front, [p]);
    OneElement(sh, SENTINEL);
    OneElement(sh, p);
  }

  /** A successful push_back puts the value behind every element. */
  lemma PushBackIsLast(s: State, t: nat)
    requires Inv(s) && Enabled(s, Go(t)) && s.threads[t].op.PushBack?
    requires EventOf(s, Go(t)).Some? && EventOf(s, Go(t)).value.Inserted?
    ensures EventOf(s, Go(t)) == Some(Inserted(|List(s.sh)|, s.threads[t].v))
  {
    var th := s.threads[t];
    assert ThreadInv(s.sh, t, th);
    UnmarkedIsLinked(s.sh, t, th, th.kp, th.prev);
    LastPosition(s.sh, th.prev);
  }

  /** A successful pop_back removes the element that is last at its marking CAS. */
  lemma PopBackTakesLast(s: State, t: nat)
    requires Inv(s) && Enabled(s, Go(t)) && s.threads[t].op.PopBack?
    requires EventOf(s, Go(t)).Some? && EventOf(s, Go(t)).value.Removed?
    ensures |List(s.sh)| > 0
    ensures EventOf(s, Go(t)) == Some(Removed(|List(s.sh)| - 1, List(s.sh)[|List(s.sh)| - 1]))
  {
    var th := s.threads[t];
    assert ThreadInv(s.sh, t, th);
    UnmarkedIsLinked(s.sh, t, th, th.kc, th.curr.p);
    LastPosition(s.sh, th.curr.p);
    MarkRemoves(s.sh, th.curr.p);
  }

  lemma InsertedBetween(s: State, t: nat, th: Thread)
    requires Inv(s) && Enabled(s, Go(t)) && th == s.threads[t] && th.op.InsertIf?
    requires EventOf(s, Go(t)).Some? && EventOf(s, Go(t)).value.Inserted?
    ensures IsLinked(s.sh, th.prev) && th.prev != SENTINEL && WordOf(s.sh, th.prev).p == th.curr.p
    ensures Do(s, Go(t)).sh == Apply(s.sh, Insert(th.prev, th.own))
    ensures th.curr.p != SENTINEL && !Marked(s.sh, th.curr.p) ==> ValOf(s.sh, th.curr.p).Some? && ValueAt(s.sh, th.curr.p) in th.want
  {
    assert ThreadInv(s.sh, t, th);
    UnmarkedIsLinked(s.sh, t, th, th.kp, th.prev);
    SuccessorLinked(s.sh, th.prev);
    assert NodeOk(s.sh, th.curr.p);
  }

  /** insert puts its node directly between the two nodes the search returned, and the
      second one satisfies the predicate unless it is the end or was removed meanwhile. */
  lemma InsertsBeforeFound(s: State, t: nat)
    requires Inv(s) && Enabled(s, Go(t)) && s.threads[t].op.InsertIf?
    requires EventOf(s, Go(t)).Some? && EventOf(s, Go(t)).value.Inserted?
    ensures var th, c := s.threads[t], Do(s, Go(t)).sh.chain;
            exists i :: 0 <= i < |c| - 2 && c[i] == th.prev && c[i + 1] == th.own && c[i + 2] == th.curr.p
    ensures var th := s.threads[t];
            th.curr.p != SENTINEL && !Marked(s.sh, th.curr.p) ==> ValueAt(s.sh, th.curr.p) in th.want
  {
    var th := s.threads[t];
    InsertedBetween(s, t, th);
    hide ThreadsInv, Do, EventOf, Enabled;
    var i := PlaceOf(s.sh, th.prev);
    var c := Do(s, Go(t)).sh.chain;
    assert c[i] == th.prev && c[i + 1] == th.own && c[i + 2] == th.curr.p;
  }

  /** remove_one_if and remove_all_if remove only what satisfies the predicate. */
  lemma RemovesOnlyWanted(s: State, t: nat)
    requires Inv(s) && Enabled(s, Go(t)) && (s.threads[t].op.RemoveOne? || s.threads[t].op.RemoveAll?)
    requires EventOf(s, Go(t)).Some? && EventOf(s, Go(t)).value.Removed?
    ensures EventOf(s, Go(t)).value.v in s.threads[t].want
  {
    var th := s.threads[t];
    assert ThreadInv(s.sh, t, th);
    assert NodeOk(s.sh, th.curr.p);
    UnmarkedIsLinked(s.sh, t, th, th.kc, th.curr.p);
  }

  // ---- pop_front ----

  /** n is the first element. */
  predicate IsFirst(sh: Shared, n: Ref) {
    |sh.chain| > 1 && sh.chain[1] == n && IsElement(sh, n)
  }

  /** n was the first element in some state of the run. */
  ghost predicate WasFirst(s: State, run: seq<Action>, n: Ref)
    requires ValidRun(s, run)
    decreases |run|
  {
    IsFirst(s.sh, n) || (run != [] && WasFirst(Do(s, run[0]), run[1..], n))
  }

  /** The thread holds in curr a node that it found behind the head. */
  predicate HoldsFront(th: Thread) {
    && th.op.PopFront? && th.prev == HEAD
    && (th.pc.FNextLoad? || th.pc.FNextPub? || th.pc.FNextVer? || th.pc.FNextRepub? || th.pc.FPurge? || th.pc.FProbe?
        || th.pc.FMark? || th.pc.MLoad? || th.pc.MCas?)
  }

  lemma FrontSearch(sh: Shared, t: nat, th: Thread)
    requires ThreadInv(sh, t, th) && th.op.PopFront? && Searching(th.pc) && !th.pc.PurgeGive?
    ensures HoldsFront(GoThread(sh, th)) ==>
              GoThread(sh, th).curr == th.curr && (HoldsFront(th) || (th.pc.FHeadVer? && WordOf(sh, HEAD) == th.curr))
  {
    match th.pc
    case FNextVer | FNextLoad | FNextPub | FNextRepub => FrontLook(sh, th);
    case FProbe | FMark => FrontTest(sh, t, th);
    case _ =>
  }

  lemma FrontLook(sh: Shared, th: Thread)
    requires th.op.PopFront? && (th.pc.FNextLoad? || th.pc.FNextPub? || th.pc.FNextVer? || th.pc.FNextRepub?)
    ensures HoldsFront(LookStep(sh, th)) ==> LookStep(sh, th).curr == th.curr && HoldsFront(th)
  {
  }

  lemma FrontTest(sh: Shared, t: nat, th: Thread)
    requires CurrInv(sh, t, th) && th.op.PopFront? && (th.pc.FProbe? || th.pc.FMark?)
    ensures HoldsFront(TestStep(sh, th)) ==> TestStep(sh, th).curr == th.curr && HoldsFront(th)
  {
  }

  lemma FrontMark(sh: Shared, th: Thread)
    requires th.op.PopFront? && CanGo(th) && (!Searching(th.pc) || th.pc.PurgeGive?)
    ensures HoldsFront(GoThread(sh, th)) ==> GoThread(sh, th).curr == th.curr && HoldsFront(th)
  {
  }

  lemma FrontStep(sh: Shared, t: nat, th: Thread)
    requires ThreadInv(sh, t, th) && CanGo(th) && th.op.PopFront? && HoldsFront(GoThread(sh, th))
    ensures GoThread(sh, th).curr == th.curr
    ensures HoldsFront(th) || (th.pc.FHeadVer? && WordOf(sh, HEAD) == th.curr)
  {
    if Searching(th.pc) && !th.pc.PurgeGive? { FrontSearch(sh, t, th); } else { FrontMark(sh, th); }
  }

  lemma KeepsOp(sh: Shared, th: Thread)
    ensures GoThread(sh, th).op == th.op
  {
    hide WordOf, ValOf, Hit, PositionAfter, Position, ValueAt;
  }

  /** A node that is not marked after a step was not marked before it. */
  lemma UnmarkedBefore(s: State, a: Action, t: nat)
    requires Inv(s) && Enabled(s, a) && t < |s.threads| && OnCurr(s.threads[t].pc)
    requires !Marked(Do(s, a).sh, s.threads[t].curr.p)
    ensures !Marked(s.sh, s.threads[t].curr.p)
  {
    assert ThreadInv(s.sh, t, s.threads[t]);
    EffectIsOk(s, a);
    MarkStable(s.sh, EffectOf(s, a), s.threads[t].curr.p);
  }

  lemma FrontIsSecond(sh: Shared, n: Ref)
    requires SharedInv(sh) && WordOf(sh, HEAD).p == n
    ensures |sh.chain| > 1 && sh.chain[1] == n
  {
    var i := PlaceOf(sh, HEAD) by { assert sh.chain[0] == HEAD; }
  }

  lemma FrontAfterStep(s: State, a: Action, t: nat, seen: Ref)
    requires Inv(s) && Enabled(s, a) && t < |s.threads|
    requires HoldsFront(s.threads[t]) && !Marked(s.sh, s.threads[t].curr.p) ==> s.threads[t].curr.p == seen
    ensures var s2 := Do(s, a); var th := s2.threads[t];
            HoldsFront(th) && !Marked(s2.sh, th.curr.p) ==> th.curr.p == seen || IsFirst(s2.sh, th.curr.p)
  {
    var s2 := Do(s, a);
    var th, th2 := s.threads[t], s2.threads[t];
    if HoldsFront(th2) && !Marked(s2.sh, th2.curr.p) {
      if a == Go(t) {
        assert ThreadInv(s.sh, t, th);
        KeepsOp(s.sh, th);
        FrontStep(s.sh, t, th);
        if HoldsFront(th) {
          UnmarkedBefore(s, a, t);
        } else {
          FrontIsSecond(s.sh, th.curr.p);
          assert ThreadInv(s2.sh, t, th2) by { StepKeepsInv(s, a); }
        }
      } else if Actor(a) != Some(t) {
        UnmarkedBefore(s, a, t);
      }
    }
  }

  lemma {:induction false} FrontRun(s: State, run: seq<Action>, t: nat, seen: Ref)
    requires Inv(s) && ValidRun(s, run) && t < |s.threads|
    requires HoldsFront(s.threads[t]) && !Marked(s.sh, s.threads[t].curr.p) ==> s.threads[t].curr.p == seen
    ensures t < |After(s, run).threads|
    ensures var s2 := After(s, run); var th := s2.threads[t];
            HoldsFront(th) && !Marked(s2.sh, th.curr.p) ==> th.curr.p == seen || WasFirst(s, run, th.curr.p)
    decreases |run|
  {
    if run != [] {
      var s1 := Do(s, run[0]);
      StepKeepsInv(s, run[0]);
      FrontAfterStep(s, run[0], t, seen);
      if HoldsFront(s1.threads[t]) && !Marked(s1.sh, s1.threads[t].curr.p) {
        FrontRun(s1, run[1..], t, s1.threads[t].curr.p);
      } else {
        FrontRun(s1, run[1..], t, seen);
      }
    }
  }

  /** The node that pop_front marks was the first element at some instant since the call
      began: run starts at the first instruction of the call, and its last step is the
      successful marking. */
  lemma PopFrontWasFirst(s: State, run: seq<Action>, t: nat)
    requires Inv(s) && ValidRun(s, run) && t < |s.threads| && s.threads[t].pc.FStart?
    requires var s2 := After(s, run); t < |s2.threads| && s2.threads[t].op.PopFront? && Enabled(s2, Go(t))
    requires var e := EventOf(After(s, run), Go(t)); e.Some? && e.value.Removed?
    ensures WasFirst(s, run, After(s, run).threads[t].curr.p)
  {
    RunIsSequential(s, run);
    var s2 := After(s, run);
    var th := s2.threads[t];
    assert ThreadInv(s2.sh, t, th);
    FrontRun(s, run, t, HEAD);
  }
}
