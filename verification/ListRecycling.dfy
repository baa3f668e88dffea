/** The life of a list node over whole runs: it is reachable while it is an element,
    frozen once it is marked, claimed once, and given to the pool once, unreachable. */
module ListRecycling {
  import opened MarkedLink
  import opened Reclaim
  import opened ListShared
  import opened ListThreads
  import opened ListSystem
  import opened ListTheorems

  // ---- reachability ----

  /** path is what one meets when following the links from n up to the sentinel. */
  predicate IsPath(sh: Shared, n: Ref, path: seq<Ref>)
    decreases |path|
  {
    |path| > 0 && path[0] == n
    && if |path| == 1 then n == SENTINEL else n != SENTINEL && IsPath(sh, WordOf(sh, n).p, path[1..])
  }

  lemma {:induction false} SuffixIsPath(sh: Shared, i: nat)
    requires ChainInv(sh) && i < |sh.chain|
    ensures IsPath(sh, sh.chain[i], sh.chain[i..])
    decreases |sh.chain| - i
  {
    if i + 1 < |sh.chain| {
      NextAt(sh, i);
      SuffixIsPath(sh, i + 1);
      assert sh.chain[i..][1..] == sh.chain[i + 1..];
    }
  }

  lemma {:induction false} PathIsUnique(sh: Shared, n: Ref, p: seq<Ref>, q: seq<Ref>)
    requires IsPath(sh, n, p) && IsPath(sh, n, q)
    ensures p == q
    decreases |p|
  {
    if n != SENTINEL {
      PathIsUnique(sh, WordOf(sh, n).p, p[1..], q[1..]);
      assert p == [n] + p[1..] && q == [n] + q[1..];
    }
  }

  /** In every state of every run the links lead from the head to the sentinel.  A node
      that has been inserted and is not recycled yet is on the way if it has no mark; a
      node of which the pool has charge, or is about to get it, is not on the way. */
  lemma ElementsAreReachable(s: State, path: seq<Ref>, n: Ref)
    requires Inv(s) && IsPath(s.sh, HEAD, path)
    ensures List(s.sh) == Elements(s.sh, path)
    ensures n in path <==> IsLinked(s.sh, n)
    ensures (IsLinked(s.sh, n) || Gone(s.sh, n)) && !Marked(s.sh, n) ==> n in path
  {
    SuffixIsPath(s.sh, 0);
    assert s.sh.chain[0..] == s.sh.chain;
    PathIsUnique(s.sh, HEAD, path, s.sh.chain);
    assert NodeOk(s.sh, n);
  }

  lemma PathExists(s: State)
    requires Inv(s)
    ensures IsPath(s.sh, HEAD, s.sh.chain)
  {
    SuffixIsPath(s.sh, 0);
    assert s.sh.chain[0..] == s.sh.chain;
  }

  // ---- frozen after the mark ----

  lemma OnlyPoolScans(sh: Shared, t: nat, th: Thread)
    ensures var e := GoEffect(sh, t, th);
            !e.Acquire? && !e.BeginScan? && !e.Visit? && !e.FailScan? && !e.FinishScan?
  {
  }

  lemma StaysAround(sh: Shared, e: Effect, n: Ref)
    requires EffectOk(sh, e) && (IsLinked(sh, n) || Gone(sh, n))
    ensures IsLinked(Apply(sh, e), n) || Gone(Apply(sh, e), n) || e == FinishScan(n)
    ensures IsLinked(Apply(sh, e), n) ==> IsLinked(sh, n)
  {
  }

  lemma Leaves(s: State, a: Action, n: Ref)
    requires Inv(s) && Enabled(s, a) && EffectOk(s.sh, EffectOf(s, a)) && (IsLinked(s.sh, n) || Gone(s.sh, n))
    ensures IsLinked(Do(s, a).sh, n) || Gone(Do(s, a).sh, n) || a == EndScan(n)
    ensures IsLinked(Do(s, a).sh, n) ==> IsLinked(s.sh, n)
  {
    StaysAround(s.sh, EffectOf(s, a), n);
    if a.Go? { OnlyPoolScans(s.sh, a.t, s.threads[a.t]); }
  }

  /** A marked node keeps its mark and its link at every step of anybody, until the pool
      has finished a scan for it. */
  lemma MarkedIsFrozen(s: State, a: Action, n: Ref)
    requires Inv(s) && Enabled(s, a)
    requires (IsLinked(s.sh, n) || Gone(s.sh, n)) && Marked(s.sh, n)
    ensures WordOf(Do(s, a).sh, n) == WordOf(s.sh, n)
    ensures IsLinked(Do(s, a).sh, n) || Gone(Do(s, a).sh, n) || a == EndScan(n)
    ensures IsLinked(Do(s, a).sh, n) ==> IsLinked(s.sh, n)
  {
    EffectIsOk(s, a);
    MarkStable(s.sh, EffectOf(s, a), n);
    Leaves(s, a, n);
  }

  // ---- the ledger of a node ----

  /** The turns in the life of a node. */
  datatype Turn = Taken | Entered | Claimed | Given

  /** The effect makes node n take the turn. */
  predicate Makes(e: Effect, n: Ref, turn: Turn) {
    match e
    case Acquire(m, _, _) => m == n && turn.Taken?
    case Insert(_, m) => m == n && turn.Entered?
    case SetMark(m) => m == n && turn.Claimed?
    case Give(m) => m == n && turn.Given?
    case _ => false
  }

  /** How often node n takes the turn in a run. */
  ghost function Count(s: State, run: seq<Action>, n: Ref, turn: Turn): nat
    requires ValidRun(s, run)
    decreases |run|
  {
    if run == [] then 0
    else (if Makes(EffectOf(s, run[0]), n, turn) then 1 else 0) + Count(Do(s, run[0]), run[1..], n, turn)
  }

  function IsPrivate(sh: Shared, n: Ref): int { if Alive(sh, n).Owned? then 1 else 0 }
  function IsLive(sh: Shared, n: Ref): int { if IsLinked(sh, n) && !Marked(sh, n) then 1 else 0 }
  function IsLeaving(sh: Shared, n: Ref): int {
    if (IsLinked(sh, n) && Marked(sh, n)) || Alive(sh, n).Unlinked? then 1 else 0
  }

  function One(b: bool): int { if b then 1 else 0 }

  lemma PrivateStep(sh: Shared, e: Effect, n: Ref)
    requires EffectOk(sh, e) && (e.Unlink? ==> IsLinked(sh, e.n))
    ensures IsPrivate(Apply(sh, e), n) - IsPrivate(sh, n) == One(Makes(e, n, Taken)) - One(Makes(e, n, Entered))
  {
  }

  lemma LiveStep(sh: Shared, e: Effect, n: Ref)
    requires EffectOk(sh, e) && (e.Insert? ==> e.p != e.n)
    ensures IsLive(Apply(sh, e), n) - IsLive(sh, n) == One(Makes(e, n, Entered)) - One(Makes(e, n, Claimed))
  {
  }

  lemma LeavingStep(sh: Shared, e: Effect, n: Ref)
    requires EffectOk(sh, e) && (e.Unlink? ==> IsLinked(sh, e.n)) && (e.Insert? ==> e.p != e.n)
    ensures IsLeaving(Apply(sh, e), n) - IsLeaving(sh, n) == One(Makes(e, n, Claimed)) - One(Makes(e, n, Given))
  {
  }

  lemma TurnStep(sh: Shared, e: Effect, n: Ref)
    requires SharedInv(sh) && EffectOk(sh, e)
    ensures var s2 := Apply(sh, e);
            && IsPrivate(s2, n) - IsPrivate(sh, n) == One(Makes(e, n, Taken)) - One(Makes(e, n, Entered))
            && IsLive(s2, n) - IsLive(sh, n) == One(Makes(e, n, Entered)) - One(Makes(e, n, Claimed))
            && IsLeaving(s2, n) - IsLeaving(sh, n) == One(Makes(e, n, Claimed)) - One(Makes(e, n, Given))
  {
    if e.Unlink? { SuccessorLinked(sh, e.p); }
    PrivateStep(sh, e, n);
    LiveStep(sh, e, n);
    LeavingStep(sh, e, n);
  }

  /** Over every run: a node enters the list as often as a thread has got it from the
      pool, is marked as often as it has entered, and is given to the pool as often as it
      was marked, up to the one turn it may be in the middle of.  So each entry is claimed
      by at most one removal and leads to at most one do_for_purged_node. */
  lemma {:induction false} TurnsBalance(s: State, run: seq<Action>, n: Ref)
    requires Inv(s) && ValidRun(s, run)
    ensures var s2 := After(s, run);
            && IsPrivate(s.sh, n) + Count(s, run, n, Taken) == Count(s, run, n, Entered) + IsPrivate(s2.sh, n)
            && IsLive(s.sh, n) + Count(s, run, n, Entered) == Count(s, run, n, Claimed) + IsLive(s2.sh, n)
            && IsLeaving(s.sh, n) + Count(s, run, n, Claimed) == Count(s, run, n, Given) + IsLeaving(s2.sh, n)
    decreases |run|
  {
    if run != [] {
      EffectIsOk(s, run[0]);
      TurnStep(s.sh, EffectOf(s, run[0]), n);
      StepKeepsInv(s, run[0]);
      TurnsBalance(Do(s, run[0]), run[1..], n);
    }
  }

  /** What do_for_purged_node receives is marked and out of reach, and nobody else
      unlinks it, inserts it or gives it away again at that step. */
  lemma GivenIsUnreachable(s: State, t: nat)
    requires Inv(s) && Enabled(s, Go(t)) && s.threads[t].pc.PurgeGive?
    ensures var n := s.threads[t].pur;
            && Marked(s.sh, n) && n !in s.sh.chain && Alive(s.sh, n) == Unlinked(t)
            && Alive(Do(s, Go(t)).sh, n) == Retired
            && forall u | 0 <= u < |s.threads| && u != t && s.threads[u].pc.PurgeGive? :: s.threads[u].pur != n
  {
    assert ThreadInv(s.sh, t, s.threads[t]);
    assert NodeOk(s.sh, s.threads[t].pur);
    forall u | 0 <= u < |s.threads| && u != t && s.threads[u].pc.PurgeGive? ensures s.threads[u].pur != s.threads[t].pur {
      assert ThreadInv(s.sh, u, s.threads[u]);
    }
  }

  // ---- hand-off ----

  lemma ClaimedIsKept(sh: Shared, e: Effect, t: nat, th: Thread)
    requires SharedInv(sh) && EffectOk(sh, e) && Foreign(sh, e, t, th)
    requires th.pc.Pick? && CurrInv(sh, t, th) && WantInv(sh, t, th) && PickInv(sh, t, th)
    requires th.lin.Some? && th.lin.value.Removed?
    ensures ValOf(Apply(sh, e), th.curr.p) == Some(th.lin.value.v)
    ensures !Available(Apply(sh, e).life, th.curr.p)
  {
    CurrStable(sh, e, t, th);
  }

  /** The value of a claimed node stays in it, and the node is not given to anybody,
      until the claimer has read it; whatever the others do meanwhile. */
  lemma HandOff(s: State, a: Action, t: nat)
    requires Inv(s) && Enabled(s, a) && t < |s.threads| && s.threads[t].pc.Pick? && Actor(a) != Some(t)
    ensures var th := s.threads[t];
            && th.lin.Some? && th.lin.value.Removed?
            && ValOf(Do(s, a).sh, th.curr.p) == Some(th.lin.value.v)
            && !Available(Do(s, a).sh.life, th.curr.p)
            && Do(s, a).threads[t] == th
  {
    assert ThreadInv(s.sh, t, s.threads[t]);
    EffectIsOk(s, a);
    EffectIsForeign(s, a, t);
    ClaimedIsKept(s.sh, EffectOf(s, a), t, s.threads[t]);
  }

  /** A node the pool can give away is in no verified hazard slot. */
  lemma RecycledIsUnprotected(s: State, n: Ref, t: nat)
    requires Inv(s) && Available(s.sh.life, n) && t < |s.threads|
    ensures OnPrev(s.threads[t].pc) ==> s.threads[t].prev != n
    ensures OnCurr(s.threads[t].pc) ==> s.threads[t].curr.p != n
    ensures OnNext(s.threads[t].pc) ==> s.threads[t].nx.p != n
    ensures n !in s.sh.chain && s.threads[t].own != n
  {
    assert ThreadInv(s.sh, t, s.threads[t]);
  }

  // ---- remove_all_if ----

  /** How often thread t sets a mark in a run. */
  ghost function MarksBy(s: State, run: seq<Action>, t: nat): nat
    requires ValidRun(s, run)
    decreases |run|
  {
    if run == [] then 0
    else (if run[0] == Go(t) && EffectOf(s, run[0]).SetMark? then 1 else 0) + MarksBy(Do(s, run[0]), run[1..], t)
  }

  lemma CountsItsMarks(sh: Shared, t: nat, th: Thread)
    requires CanGo(th)
    ensures GoThread(sh, th).mine == th.mine + One(GoEffect(sh, t, th).SetMark?)
  {
  }

  lemma {:induction false} MineRun(s: State, run: seq<Action>, t: nat)
    requires Inv(s) && ValidRun(s, run) && t < |s.threads| && !s.threads[t].pc.Idle?
    requires Return(t) !in run
    ensures t < |After(s, run).threads| && !After(s, run).threads[t].pc.Idle?
    ensures After(s, run).threads[t].mine == s.threads[t].mine + MarksBy(s, run, t)
    decreases |run|
  {
    if run != [] {
      StepKeepsInv(s, run[0]);
      if run[0] == Go(t) {
        CountsItsMarks(s.sh, t, s.threads[t]);
        NotIdleAfter(s.sh, s.threads[t]);
      }
      MineRun(Do(s, run[0]), run[1..], t);
    }
  }

  lemma NextIsBusy(th: Thread)
    ensures !AtCurr(th).pc.Idle? && !AtEnd(th).pc.Idle? && !AtNode(th).pc.Idle? && !Advance(th).pc.Idle?
  {
    hide Publish;
  }

  lemma SearchIsBusy(sh: Shared, th: Thread)
    ensures !HeadStep(sh, th).pc.Idle? && !LookStep(sh, th).pc.Idle? && !TestStep(sh, th).pc.Idle?
  {
    NextIsBusy(th);
    NextIsBusy(Publish(th, th.kc, SENTINEL).(curr := Word(SENTINEL, false)));
    hide WordOf, Hit, AtCurr, AtEnd, AtNode, Advance;
  }

  lemma ChangeIsBusy(sh: Shared, th: Thread)
    ensures !PurgeStep(sh, th).pc.Idle? && !InsertStep(sh, th).pc.Idle?
    ensures !MarkStep(sh, th).pc.Idle? && !RemoveStep(sh, th).pc.Idle?
  {
    hide WordOf, ValOf, Hit, PositionAfter, Position, ValueAt;
  }

  lemma NotIdleAfter(sh: Shared, th: Thread)
    requires CanGo(th)
    ensures !GoThread(sh, th).pc.Idle?
  {
    SearchIsBusy(sh, th);
    ChangeIsBusy(sh, th);
    hide HeadStep, LookStep, TestStep, PurgeStep, InsertStep, MarkStep, RemoveStep;
  }

  /** remove_all_if returns the number of nodes it has marked itself: run goes from the
      first instruction of the call to its end. */
  lemma RemoveAllCounts(s: State, run: seq<Action>, t: nat)
    requires Inv(s) && ValidRun(s, run) && t < |s.threads|
    requires s.threads[t] == IdleThread().(op := RemoveAll, want := s.threads[t].want, pc := FStart)
    requires Return(t) !in run
    requires t < |After(s, run).threads| && Enabled(After(s, run), Return(t)) && After(s, run).threads[t].op.RemoveAll?
    ensures After(s, run).threads[t].ans == MarksBy(s, run, t)
  {
    RunIsSequential(s, run);
    MineRun(s, run, t);
    ReturnsWhatItDid(After(s, run), t);
  }
}
