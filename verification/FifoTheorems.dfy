/** What every run of the FIFO keeps: it is a sequential queue, no value is lost or
    read twice, and a node is not recycled while somebody still needs it. */
module FifoTheorems {
  import opened Reclaim
  import opened FifoShared
  import opened FifoThreads
  import opened FifoSystem

  // ---- runs ----

  predicate ValidRun(s: State, run: seq<Action>)
    decreases |run|
  {
    run == [] || (Enabled(s, run[0]) && ValidRun(Do(s, run[0]), run[1..]))
  }

  function After(s: State, run: seq<Action>): State
    requires ValidRun(s, run)
    decreases |run|
  {
    if run == [] then s else After(Do(s, run[0]), run[1..])
  }

  /** The events of a run in the order of the steps that cause them. */
  function Events(s: State, run: seq<Action>): seq<Event>
    requires ValidRun(s, run)
    decreases |run|
  {
    if run == [] then []
    else
      var rest := Events(Do(s, run[0]), run[1..]);
      match EventOf(s, run[0])
      case Some(e) => [e] + rest
      case None => rest
  }

  /** A sequential queue that starts as q goes through the events, or refuses one. */
  function Replay(q: seq<Value>, events: seq<Event>): Option<seq<Value>>
    decreases |events|
  {
    if events == [] then Some(q)
    else
      match Spec(q, events[0])
      case Some(q2) => Replay(q2, events[1..])
      case None => None
  }

  lemma InitInv(sentinel: Ref)
    requires sentinel != NULL
    ensures Inv(Init(sentinel)) && Queue(Init(sentinel).sh) == [] && Conserved(Init(sentinel))
  {
  }

  lemma ReplayStep(s: State, run: seq<Action>)
    requires run != [] && ValidRun(s, run) && Matches(s.sh, Do(s, run[0]).sh, EventOf(s, run[0]))
    ensures Replay(Queue(s.sh), Events(s, run)) == Replay(Queue(Do(s, run[0]).sh), Events(Do(s, run[0]), run[1..]))
  {
    var rest := Events(Do(s, run[0]), run[1..]);
    match EventOf(s, run[0])
    case Some(e) => assert ([e] + rest)[1..] == rest;
    case None =>
  }

  /** Linearizability: the events of any run, taken one by one in the order of their
      steps, are a legal history of a sequential queue that ends with the values the
      nodes hold. */
  lemma {:induction false} RunIsSequential(s: State, run: seq<Action>)
    requires Inv(s) && ValidRun(s, run)
    ensures Inv(After(s, run))
    ensures Replay(Queue(s.sh), Events(s, run)) == Some(Queue(After(s, run).sh))
    decreases |run|
  {
    if run != [] {
      StepKeepsInv(s, run[0]);
      StepRefines(s, run[0]);
      RunIsSequential(Do(s, run[0]), run[1..]);
      ReplayStep(s, run);
    }
  }

  lemma FifoIsLinearizable(sentinel: Ref, run: seq<Action>)
    requires sentinel != NULL && ValidRun(Init(sentinel), run)
    ensures Replay([], Events(Init(sentinel), run)) == Some(Queue(After(Init(sentinel), run).sh))
  {
    InitInv(sentinel);
    RunIsSequential(Init(sentinel), run);
  }

  /** What a call hands back is what its one event did: pop_front returns the value it
      took from the front, or nothing after it met the queue empty; push_front hands
      back its own sentinel exactly when it had to link at the tail. */
  lemma ReturnsWhatItDid(s: State, t: nat)
    requires Inv(s) && Enabled(s, Return(t))
    ensures match s.threads[t].op
            case Pop => s.threads[t].lin == Some(if s.threads[t].res.Some? then Taken(s.threads[t].res.value) else SawEmpty)
            case PushBack => s.threads[t].lin == Some(Appended(s.threads[t].v))
            case PushFront => s.threads[t].lin == Some(if s.threads[t].sen == NULL then Prepended(s.threads[t].v) else AppendedFront(s.threads[t].v))
    ensures Do(s, Return(t)).threads[t].lin == None
  {
    assert ThreadInv(s.sh, t, s.threads[t]);
  }

  /** A call that has acted on the queue does not act again. */
  lemma ActsOnce(s: State, a: Action, t: nat)
    requires Inv(s) && Enabled(s, a) && t < |s.threads| && s.threads[t].lin.Some?
    ensures Do(s, a).threads[t].lin == s.threads[t].lin || (a == Return(t) && Do(s, a).threads[t] == IdleThread())
    ensures a == Go(t) ==> EventOf(s, a) == None
  {
    assert ThreadInv(s.sh, t, s.threads[t]);
  }

  // ---- the shape of the queue in memory ----

  /** path is what one meets when following the links from n up to the null link. */
  predicate IsPath(sh: Shared, n: Ref, path: seq<Ref>)
    decreases |path|
  {
    |path| > 0 && path[0] == n && n != NULL
    && if |path| == 1 then NextOf(sh, n) == NULL else IsPath(sh, NextOf(sh, n), path[1..])
  }

  lemma {:induction false} SuffixIsPath(sh: Shared, i: nat)
    requires ChainInv(sh) && i < |sh.chain|
    ensures IsPath(sh, sh.chain[i], sh.chain[i..])
    decreases |sh.chain| - i
  {
    if i + 1 < |sh.chain| {
      NonNullAt(sh, i + 1);
      SuffixIsPath(sh, i + 1);
      assert sh.chain[i..][1..] == sh.chain[i + 1..];
    }
  }

  lemma {:induction false} PathIsUnique(sh: Shared, n: Ref, p: seq<Ref>, q: seq<Ref>)
    requires IsPath(sh, n, p) && IsPath(sh, n, q)
    ensures p == q
    decreases |p|
  {
    if |p| == 1 || |q| == 1 {
      assert NextOf(sh, n) == NULL;
      assert |p| == 1 && |q| == 1;
    } else {
      PathIsUnique(sh, NextOf(sh, n), p[1..], q[1..]);
      assert p == [n] + p[1..] && q == [n] + q[1..];
    }
  }

  /** In every state of every run the links lead from the head to a last node with a
      null link, the tail pointer names that node or the one before it, and the values
      on the way are the queue. */
  lemma HeadReachesTail(s: State, path: seq<Ref>)
    requires Inv(s)
    ensures IsPath(s.sh, s.sh.head, s.sh.chain)
    ensures IsPath(s.sh, s.sh.head, path) ==>
              && Queue(s.sh) == ValuesOf(s.sh, path[1..])
              && s.sh.tail in path && (NextOf(s.sh, s.sh.tail) == NULL || NextOf(s.sh, NextOf(s.sh, s.sh.tail)) == NULL)
  {
    SuffixIsPath(s.sh, 0);
    assert s.sh.chain[0..] == s.sh.chain;
    if IsPath(s.sh, s.sh.head, path) {
      PathIsUnique(s.sh, s.sh.head, path, s.sh.chain);
      if s.sh.tail != Last(s.sh) { NonNullAt(s.sh, |s.sh.chain| - 1); }
    }
  }

  // ---- hand-off and recycling ----

  lemma PickedIsKept(sh: Shared, e: Effect, t: nat, th: Thread)
    requires SharedInv(sh) && EffectOk(sh, e) && Foreign(sh, e, t, th) && PickInv(sh, t, th) && th.pc.Pick?
    ensures ValOf(Apply(sh, e), th.sN) == ValOf(sh, th.sN) == Some(th.lin.value.v)
    ensures !Available(Apply(sh, e).life, th.sN)
  {
    PickStable(sh, e, t, th);
  }

  /** The node whose value a popper has won keeps that value, and is not given to
      anybody, until the popper has read it; whatever the others do meanwhile. */
  lemma HandOff(s: State, a: Action, t: nat)
    requires Inv(s) && Enabled(s, a) && t < |s.threads| && s.threads[t].pc.Pick? && Actor(a) != Some(t)
    ensures var n := s.threads[t].sN;
            && s.threads[t].lin.Some? && s.threads[t].lin.value.Taken?
            && ValOf(s.sh, n) == Some(s.threads[t].lin.value.v)
            && ValOf(Do(s, a).sh, n) == ValOf(s.sh, n)
            && !Available(Do(s, a).sh.life, n)
            && Do(s, a).threads[t] == s.threads[t]
  {
    EffectIsOk(s, a);
    EffectIsForeign(s, a, t);
    assert PickInv(s.sh, t, s.threads[t]) by { assert ThreadInv(s.sh, t, s.threads[t]); }
    PickedIsKept(s.sh, EffectOf(s, a), t, s.threads[t]);
  }

  /** A node the pool can give away is in no verified hazard slot. */
  lemma RecycledIsUnprotected(s: State, n: Ref, t: nat)
    requires Inv(s) && Available(s.sh.life, n) && t < |s.threads|
    ensures HeadVerified(s.threads[t].pc) ==> s.threads[t].sH != n
    ensures TailVerified(s.threads[t].pc) ==> s.threads[t].sT != n
    ensures s.threads[t].pc.Pick? ==> s.threads[t].sN != n
    ensures n !in s.sh.chain && s.threads[t].own != n && s.threads[t].sen != n
  {
    assert ThreadInv(s.sh, t, s.threads[t]);
  }

  // ---- conservation ----

  /** The value whose head CAS has won but which has not been read yet. */
  function Flight(th: Thread): multiset<Value> {
    match th.lin
    case Some(Taken(v)) => if th.pc.Pick? then multiset{v} else multiset{}
    case _ => multiset{}
  }

  function InFlight(threads: seq<Thread>): multiset<Value> {
    if threads == [] then multiset{} else Flight(threads[0]) + InFlight(threads[1..])
  }

  predicate Conserved(s: State) {
    s.pushed == s.picked + multiset(Queue(s.sh)) + InFlight(s.threads)
  }

  lemma Prefix(a: multiset<Value>, b: multiset<Value>, c: multiset<Value>, d: multiset<Value>, e: multiset<Value>)
    requires b + c == d + e
    ensures (a + b) + c == (a + d) + e
  {
    assert (a + b) + c == a + (b + c);
    assert (a + d) + e == a + (d + e);
  }

  lemma {:induction false} FlightUpdate(threads: seq<Thread>, t: nat, th: Thread)
    requires t < |threads|
    ensures InFlight(threads[t := th]) + Flight(threads[t]) == InFlight(threads) + Flight(th)
  {
    if t == 0 {
      assert threads[t := th][1..] == threads[1..];
    } else {
      FlightUpdate(threads[1..], t - 1, th);
      assert threads[t := th][1..] == threads[1..][t - 1 := th];
      Prefix(Flight(threads[0]), InFlight(threads[1..][t - 1 := th]), Flight(threads[t]), InFlight(threads[1..]), Flight(th));
    }
  }

  lemma {:induction false} FlightAppend(threads: seq<Thread>)
    ensures InFlight(threads + [IdleThread()]) == InFlight(threads)
  {
    if threads == [] {
      assert (threads + [IdleThread()])[1..] == [];
    } else {
      FlightAppend(threads[1..]);
      assert (threads + [IdleThread()])[1..] == threads[1..] + [IdleThread()];
    }
  }

  /** The value an event moves from the queue into the hands of a popper. */
  function Won(e: Option<Event>): multiset<Value> {
    match e
    case Some(Taken(v)) => multiset{v}
    case _ => multiset{}
  }

  lemma QueueBalances(sh: Shared, sh2: Shared, e: Option<Event>)
    requires Matches(sh, sh2, e)
    ensures multiset(Queue(sh2)) + Won(e) == multiset(Queue(sh)) + Pushes(e)
  {
    match e
    case Some(Taken(v)) => assert Queue(sh) == [v] + Queue(sh2);
    case _ =>
  }

  lemma FlightOfCas(sh: Shared, th: Thread)
    requires Recorded(th) && th.pc.HCas?
    ensures Flight(GoThread(sh, th)) == Won(EventBy(sh, th)) && Flight(th) == PickedBy(sh, th) == multiset{}
  {
  }

  lemma FlightOfPick(sh: Shared, t: nat, th: Thread)
    requires Recorded(th) && PickInv(sh, t, th) && th.pc.Pick?
    ensures Flight(GoThread(sh, th)) == Won(EventBy(sh, th)) == multiset{} && Flight(th) == PickedBy(sh, th)
  {
  }

  lemma FlightOfRest(sh: Shared, th: Thread)
    requires Recorded(th) && CanGo(th) && !th.pc.Pick? && !th.pc.HCas?
    ensures Flight(th) == PickedBy(sh, th) == Won(EventBy(sh, th)) == Flight(GoThread(sh, th)) == multiset{}
  {
  }

  lemma FlightOfGo(sh: Shared, t: nat, th: Thread)
    requires Recorded(th) && PickInv(sh, t, th) && CanGo(th)
    ensures Flight(GoThread(sh, th)) + PickedBy(sh, th) == Flight(th) + Won(EventBy(sh, th))
  {
    match th.pc
    case HCas => FlightOfCas(sh, th);
    case Pick => FlightOfPick(sh, t, th);
    case _ => FlightOfRest(sh, th);
  }

  lemma AddBalances(q: multiset<Value>, q2: multiset<Value>, won: multiset<Value>, pushed: multiset<Value>,
                    f: multiset<Value>, f2: multiset<Value>, picked: multiset<Value>)
    requires q2 + won == q + pushed && f2 + picked == f + won
    ensures q2 + f2 + picked == q + f + pushed
  {
    forall v ensures (q2 + f2 + picked)[v] == (q + f + pushed)[v] {
      assert (q2 + won)[v] == (q + pushed)[v];
      assert (f2 + picked)[v] == (f + won)[v];
    }
  }

  /** One instruction: what enters the queue, leaves it, is won and is read balances. */
  lemma GoBalances(sh: Shared, t: nat, th: Thread)
    requires SharedInv(sh) && ThreadInv(sh, t, th) && CanGo(th)
    ensures multiset(Queue(Apply(sh, GoEffect(sh, th)))) + Flight(GoThread(sh, th)) + PickedBy(sh, th)
         == multiset(Queue(sh)) + Flight(th) + Pushes(EventBy(sh, th))
  {
    GoMatches(sh, t, th);
    FlightOfGo(sh, t, th);
    QueueBalances(sh, Apply(sh, GoEffect(sh, th)), EventBy(sh, th));
    AddBalances(
      multiset(Queue(sh)), multiset(Queue(Apply(sh, GoEffect(sh, th)))), Won(EventBy(sh, th)), Pushes(EventBy(sh, th)),
      Flight(th), Flight(GoThread(sh, th)), PickedBy(sh, th));
  }

  lemma Balance(s: State, s2: State, t: nat, th: Thread, pushes: multiset<Value>, picks: multiset<Value>)
    requires Conserved(s) && t < |s.threads| && s2.threads == s.threads[t := th]
    requires s2.pushed == s.pushed + pushes && s2.picked == s.picked + picks
    requires multiset(Queue(s2.sh)) + Flight(th) + picks == multiset(Queue(s.sh)) + Flight(s.threads[t]) + pushes
    ensures Conserved(s2)
  {
    FlightUpdate(s.threads, t, th);
    Cancel(
      s.pushed, s.picked, multiset(Queue(s.sh)), InFlight(s.threads), pushes, picks,
      multiset(Queue(s2.sh)), InFlight(s2.threads), Flight(s.threads[t]), Flight(th));
  }

  lemma Cancel(
    pushed: multiset<Value>, picked: multiset<Value>, q: multiset<Value>, f: multiset<Value>,
    pushes: multiset<Value>, picks: multiset<Value>, q2: multiset<Value>, f2: multiset<Value>,
    one: multiset<Value>, one2: multiset<Value>)
    requires pushed == picked + q + f
    requires f2 + one == f + one2
    requires q2 + one2 + picks == q + one + pushes
    ensures pushed + pushes == (picked + picks) + q2 + f2
  {
    forall v ensures (pushed + pushes)[v] == ((picked + picks) + q2 + f2)[v] {
      assert (f2 + one)[v] == (f + one2)[v];
      assert (q2 + one2 + picks)[v] == (q + one + pushes)[v];
    }
  }

  lemma GoConserves(s: State, t: nat)
    requires Inv(s) && Enabled(s, Go(t)) && Conserved(s)
    ensures Conserved(Do(s, Go(t)))
  {
    var th := s.threads[t];
    assert ThreadInv(s.sh, t, th);
    GoBalances(s.sh, t, th);
    Balance(s, Do(s, Go(t)), t, GoThread(s.sh, th), Pushes(EventBy(s.sh, th)), PickedBy(s.sh, th));
  }

  lemma QuietFlight(s: State, a: Action)
    requires Inv(s) && Enabled(s, a) && !a.Go? && Actor(a).Some?
    ensures Flight(s.threads[Actor(a).value]) == Flight(ThreadAfter(s, a)) == multiset{}
  {
  }

  lemma QuietConserves(s: State, a: Action)
    requires Inv(s) && Enabled(s, a) && !a.Go? && Conserved(s)
    ensures Conserved(Do(s, a))
  {
    StepRefines(s, a);
    var s2 := Do(s, a);
    if a.Spawn? {
      FlightAppend(s.threads);
    } else if Actor(a).Some? {
      QuietFlight(s, a);
      Balance(s, s2, Actor(a).value, ThreadAfter(s, a), multiset{}, multiset{});
    }
  }

  lemma StepConserves(s: State, a: Action)
    requires Inv(s) && Enabled(s, a) && Conserved(s)
    ensures Conserved(Do(s, a))
  {
    if a.Go? { GoConserves(s, a.t); } else { QuietConserves(s, a); }
  }

  /** Over every run: what was pushed is what was picked up, what is queued, and what
      was won but not yet read. */
  lemma {:induction false} RunConserves(s: State, run: seq<Action>)
    requires Inv(s) && Conserved(s) && ValidRun(s, run)
    ensures Conserved(After(s, run))
    decreases |run|
  {
    if run != [] {
      StepKeepsInv(s, run[0]);
      StepConserves(s, run[0]);
      RunConserves(Do(s, run[0]), run[1..]);
    }
  }
}
