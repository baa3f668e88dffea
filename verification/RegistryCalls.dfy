/** What a call on the registry of hazard groups has done when it returns, whatever the
    other threads do meanwhile; and that it returns. */
module RegistryCalls {
  import opened HazardChain
  import opened HazardRegistry
  import opened MarkedLink
  import opened Reclaim

  /** Thread t begins no call in the run. */
  predicate NoCalls(run: seq<Action>, t: nat) {
    forall i | 0 <= i < |run| :: !((run[i].CallRegister? || run[i].CallRemove? || run[i].CallScan?) && run[i].t == t)
  }

  // ---- removing a group ----

  /** The thread is removing group g. */
  predicate Removing(th: Thread, g: Ref) {
    (Searching(th.pc) || th.pc.KLoad? || th.pc.KCas? || th.pc.Check?) && th.own == g
  }

  /** g is out of the chain for everybody who starts at the top. */
  predicate IsGone(sh: Shared, g: Ref) {
    IsChained(sh, g) && Marked(sh, g) && !Reach(sh, TOP, g)
  }

  lemma RemovingGoes(sh: Shared, th: Thread, g: Ref)
    requires Removing(th, g) && CanGo(th) && !GoThread(sh, th).pc.Thrown?
    ensures Removing(GoThread(sh, th), g)
  {
  }

  lemma RemovingStep(s: State, a: Action, t: nat, g: Ref)
    requires Inv(s) && Enabled(s, a) && t < |s.threads| && Removing(s.threads[t], g)
    ensures t < |Do(s, a).threads|
    ensures Removing(Do(s, a).threads[t], g) || IsGone(Do(s, a).sh, g)
  {
    hide Reach, SharedInv, SearchInv, ScanInv, GoThread, GoEffect;
    StepKeepsInv(s, a);
    assert ThreadInv(s.sh, t, s.threads[t]) && ThreadInv(Do(s, a).sh, t, Do(s, a).threads[t]);
    if a == Go(t) {
      RemovingGoes(s.sh, s.threads[t], g);
    } else if a == Release(t) {
      RemovedIsGone(s, t);
    }
  }

  lemma GoneStep(s: State, a: Action, g: Ref)
    requires Inv(s) && Enabled(s, a) && IsGone(s.sh, g)
    ensures IsGone(Do(s, a).sh, g)
  {
    EffectIsOk(s, a);
    GoneStable(s.sh, EffectOf(s, a), g);
    ChainedStable(s.sh, EffectOf(s, a), g);
  }

  /** g is being removed by thread t, or gone. */
  predicate Leaving(s: State, t: nat, g: Ref) {
    t < |s.threads| && (Removing(s.threads[t], g) || IsGone(s.sh, g))
  }

  lemma LeavingStep(s: State, a: Action, t: nat, g: Ref)
    requires Inv(s) && Enabled(s, a) && Leaving(s, t, g)
    ensures Inv(Do(s, a)) && Leaving(Do(s, a), t, g)
  {
    hide Removing, IsGone, Inv, GoThread, GoEffect, Apply;
    StepKeepsInv(s, a);
    if Removing(s.threads[t], g) { RemovingStep(s, a, t, g); } else { GoneStep(s, a, g); }
  }

  lemma {:induction false} RemovalRun(s: State, run: seq<Action>, t: nat, g: Ref)
    requires Inv(s) && ValidRun(s, run) && Leaving(s, t, g)
    ensures Leaving(After(s, run), t, g)
    decreases |run|
  {
    hide Leaving, Inv, Do, Enabled;
    if run != [] {
      LeavingStep(s, run[0], t, g);
      RemovalRun(Do(s, run[0]), run[1..], t, g);
    }
  }

  /** When the removal of a group has returned, the group is marked and no search or scan
      that starts at the top meets it. */
  lemma RemovalIsDone(s: State, t: nat, run: seq<Action>)
    requires Inv(s) && Enabled(s, CallRemove(t)) && ValidRun(Do(s, CallRemove(t)), run)
    ensures var s2 := After(Do(s, CallRemove(t)), run);
            t < |s2.threads| && (s2.threads[t].pc.Idle? ==> IsGone(s2.sh, s.threads[t].own))
  {
    hide Inv, IsGone;
    StepKeepsInv(s, CallRemove(t));
    RemovalRun(Do(s, CallRemove(t)), run, t, s.threads[t].own);
  }

  // ---- registering a group ----

  /** Thread t is registering n, or n is its group. */
  predicate Registers(s: State, t: nat, n: Ref) {
    t < |s.threads| && s.threads[t].own == n && (Registering(s.threads[t].pc) || s.threads[t].pc.Idle?)
  }

  lemma RegistersStep(s: State, a: Action, t: nat, n: Ref)
    requires Inv(s) && Enabled(s, a) && Registers(s, t, n) && NoCalls([a], t)
    ensures Registers(Do(s, a), t, n)
  {
    assert [a][0] == a;
    hide Inv, Reach, Apply;
  }

  lemma {:induction false} RegistersRun(s: State, run: seq<Action>, t: nat, n: Ref)
    requires Inv(s) && ValidRun(s, run) && Registers(s, t, n) && NoCalls(run, t)
    ensures Inv(After(s, run)) && Registers(After(s, run), t, n)
    decreases |run|
  {
    hide Registers, Inv, Do, Enabled;
    if run != [] {
      assert NoCalls([run[0]], t);
      RegistersStep(s, run[0], t, n);
      StepKeepsInv(s, run[0]);
      RegistersRun(Do(s, run[0]), run[1..], t, n);
    }
  }

  /** When the registration of a group has returned, and as long as its owner does not remove
      it, every scan and search that starts at the top meets it. */
  lemma RegistrationIsDone(s: State, t: nat, n: Ref, run: seq<Action>)
    requires Inv(s) && Enabled(s, CallRegister(t, n)) && ValidRun(Do(s, CallRegister(t, n)), run) && NoCalls(run, t)
    ensures var s2 := After(Do(s, CallRegister(t, n)), run);
            t < |s2.threads| && (s2.threads[t].pc.Idle? ==> IsChained(s2.sh, n) && !Marked(s2.sh, n) && Reach(s2.sh, TOP, n))
  {
    StepKeepsInv(s, CallRegister(t, n));
    RegistersRun(Do(s, CallRegister(t, n)), run, t, n);
    var s2 := After(Do(s, CallRegister(t, n)), run);
    assert ThreadInv(s2.sh, t, s2.threads[t]);
    if s2.threads[t].pc.Idle? { RegisteredIsReachable(s2, n); }
    hide Do, Reach;
  }

  // ---- scanning ----

  /** The scan has still to visit n, or it has visited it. */
  predicate Covers(s: State, t: nat, n: Ref) {
    MustVisit(s, t, n) || (t < |s.threads| && s.threads[t].pc.Idle? && n in s.threads[t].seen)
  }

  lemma EndsVisited(sh: Shared, th: Thread, n: Ref)
    requires LinksInv(sh) && ScanInv(sh, th) && th.pc.CEnd? && n in th.start && !Marked(sh, n)
    ensures n in th.seen
  {
  }

  lemma CoversStep(s: State, a: Action, t: nat, n: Ref)
    requires Inv(s) && Enabled(s, a) && Covers(s, t, n) && NoCalls([a], t) && IsChained(s.sh, n) && !Marked(s.sh, n)
    ensures Covers(Do(s, a), t, n)
  {
    hide Reach, ReachInv, LinksInv, ScanInv;
    assert ThreadInv(s.sh, t, s.threads[t]);
    assert [a][0] == a;
    if MustVisit(s, t, n) {
      if a == EndScan(t) { EndsVisited(s.sh, s.threads[t], n); } else { MustVisitStable(s, a, t, n); }
    }
  }

  lemma {:induction false} CoversRun(s: State, run: seq<Action>, t: nat, n: Ref)
    requires Inv(s) && ValidRun(s, run) && Covers(s, t, n) && NoCalls(run, t) && IsChained(s.sh, n) && !Marked(After(s, run).sh, n)
    ensures Covers(After(s, run), t, n)
    decreases |run|
  {
    if run != [] {
      hide Covers, Inv;
      NeverMarked(s, run, n);
      assert NoCalls([run[0]], t);
      CoversStep(s, run[0], t, n);
      StepKeepsInv(s, run[0]);
      UnmarkedBefore(s, run[0], n);
      CoversRun(Do(s, run[0]), run[1..], t, n);
    }
  }

  /** When a scan has returned, it has visited every group that was in the chain when the
      call began and has not been marked. */
  lemma ScanIsDone(s: State, t: nat, run: seq<Action>, n: Ref)
    requires Inv(s) && Enabled(s, CallScan(t)) && ValidRun(Do(s, CallScan(t)), run) && NoCalls(run, t)
    requires IsChained(s.sh, n) && !Marked(After(Do(s, CallScan(t)), run).sh, n)
    ensures var s2 := After(Do(s, CallScan(t)), run);
            t < |s2.threads| && (s2.threads[t].pc.Idle? ==> n in s2.threads[t].seen)
  {
    StepKeepsInv(s, CallScan(t));
    CoversRun(Do(s, CallScan(t)), run, t, n);
    hide Inv, Do;
  }

  // ---- calls return ----

  /** What a thread that runs alone has read is still so. */
  predicate UpToDate(sh: Shared, th: Thread) {
    && (th.pc.RStore? || th.pc.RCas? ==> th.x == Next(sh, TOP))
    && (Searching(th.pc) ==> !Marked(sh, th.pre))
    && (OnCur(th.pc) ==> th.cur == Next(sh, th.pre))
    && (th.pc.SCas? ==> th.nx == WordOf(sh, th.cur))
    && (th.pc.KCas? ==> th.nx == WordOf(sh, th.own))
  }

  function Phase(th: Thread): nat {
    match th.pc
    case Idle => 0 case Thrown => 0
    case RLoad => 3 case RStore => 2 case RCas => 1
    case SSet | SVer | SLook | SCas => if th.marked then 1 else 4
    case KLoad => 3 case KCas => 2
    case Check => 0
    case CLoad => 3 case CVisit => 2 case CNext => 2 case CEnd => 1
  }

  /** How far the group is that the walk stands on, and the one behind it. */
  function Near(sh: Shared, th: Thread): nat {
    if Searching(th.pc) then Rank(sh, th.pre) else if HazardRegistry.Scanning(th.pc) then Rank(sh, th.cur) else 0
  }

  function Far(sh: Shared, th: Thread): nat {
    if Searching(th.pc) then Rank(sh, Next(sh, th.pre)) else 0
  }

  function PcRank(pc: Pc): nat {
    match pc
    case SSet => 4 case SVer => 3 case SLook => 2 case SCas => 1
    case CVisit => 2 case CNext => 1
    case _ => 0
  }

  predicate Closer(sh: Shared, th: Thread, sh2: Shared, th2: Thread) {
    || Phase(th2) < Phase(th)
    || (Phase(th2) == Phase(th) && Near(sh2, th2) < Near(sh, th))
    || (Phase(th2) == Phase(th) && Near(sh2, th2) == Near(sh, th) && Far(sh2, th2) < Far(sh, th))
    || (Phase(th2) == Phase(th) && Near(sh2, th2) == Near(sh, th) && Far(sh2, th2) == Far(sh, th) && PcRank(th2.pc) < PcRank(th.pc))
  }

  lemma SearchIsCloser(sh: Shared, t: nat, th: Thread)
    requires SharedInv(sh) && ThreadInv(sh, t, th) && UpToDate(sh, th) && Searching(th.pc) && !th.pc.SCas? && !GoThread(sh, th).pc.Thrown?
    ensures UpToDate(sh, SearchStep(sh, th)) && Closer(sh, th, sh, SearchStep(sh, th))
  {
    LinkAt(sh, th.pre);
    LinkAt(sh, th.cur);
    hide SharedInv, OwnInv, ScanInv;
    MarkIsOwn(sh, t, th);
    SearchAt(sh, th);
  }

  lemma MarkIsOwn(sh: Shared, t: nat, th: Thread)
    requires SharedInv(sh) && OwnInv(sh, t, th) && Searching(th.pc)
    ensures !Marked(sh, TOP) && Marked(sh, th.own) == th.marked
  {
  }

  lemma SearchAt(sh: Shared, th: Thread)
    requires UpToDate(sh, th) && (th.pc.SSet? || th.pc.SVer? || th.pc.SLook?) && !GoThread(sh, th).pc.Thrown?
    requires Rank(sh, Next(sh, th.pre)) < Rank(sh, th.pre) && !Marked(sh, TOP) && Marked(sh, th.own) == th.marked
    ensures UpToDate(sh, SearchStep(sh, th)) && Closer(sh, th, sh, SearchStep(sh, th))
  {
    hide Rank;
  }

  lemma UnlinkIsCloser(sh: Shared, t: nat, th: Thread)
    requires SharedInv(sh) && ThreadInv(sh, t, th) && UpToDate(sh, th) && th.pc.SCas?
    ensures var s2 := Apply(sh, GoEffect(sh, t, th));
            UpToDate(s2, SearchStep(sh, th)) && Closer(sh, th, s2, SearchStep(sh, th))
  {
    hide Reach, ReachInv, ScanInv, OwnInv;
    LinkAt(sh, th.pre);
    LinkAt(sh, th.cur);
  }

  lemma RegisterIsCloser(sh: Shared, t: nat, th: Thread)
    requires LinksInv(sh) && OwnInv(sh, t, th) && UpToDate(sh, th) && Registering(th.pc)
    ensures var s2 := Apply(sh, GoEffect(sh, t, th));
            UpToDate(s2, GoThread(sh, th)) && Closer(sh, th, s2, GoThread(sh, th))
  {
    hide Rank;
    assert !Marked(sh, TOP);
    assert th.own != TOP;
  }

  lemma MarkIsCloser(sh: Shared, t: nat, th: Thread)
    requires LinksInv(sh) && OwnInv(sh, t, th) && UpToDate(sh, th) && (th.pc.KLoad? || th.pc.KCas?)
    ensures var s2 := Apply(sh, GoEffect(sh, t, th));
            UpToDate(s2, GoThread(sh, th)) && Closer(sh, th, s2, GoThread(sh, th))
  {
    hide Rank;
    assert !Marked(sh, TOP) && th.own != TOP;
  }

  lemma ScanIsCloser(sh: Shared, th: Thread)
    requires LinksInv(sh) && ScanInv(sh, th) && (th.pc.CLoad? || th.pc.CVisit? || th.pc.CNext?)
    ensures UpToDate(sh, GoThread(sh, th)) && Closer(sh, th, sh, GoThread(sh, th))
  {
    hide Reach, Rank, Unmarked, GoThread, UpToDate, Closer, Marked;
    LinkAt(sh, th.cur);
    ScanAt(sh, th);
  }

  lemma ScanAt(sh: Shared, th: Thread)
    requires th.pc.CLoad? || th.pc.CVisit? || th.pc.CNext?
    requires th.pc.CNext? && Next(sh, th.cur) != NULL ==> Rank(sh, Next(sh, th.cur)) < Rank(sh, th.cur)
    ensures UpToDate(sh, GoThread(sh, th)) && Closer(sh, th, sh, GoThread(sh, th))
  {
    hide Rank, Unmarked, Next;
  }

  lemma StepIsCloser(sh: Shared, t: nat, th: Thread)
    requires SharedInv(sh) && ThreadInv(sh, t, th) && UpToDate(sh, th) && CanGo(th) && !GoThread(sh, th).pc.Thrown?
    ensures var s2 := Apply(sh, GoEffect(sh, t, th));
            UpToDate(s2, GoThread(sh, th)) && Closer(sh, th, s2, GoThread(sh, th))
  {
    hide UpToDate, Closer, SearchStep, LinksInv, ReachInv, OwnInv, SearchInv, ScanInv;
    match th.pc
    case SCas => UnlinkIsCloser(sh, t, th);
    case SSet | SVer | SLook => SearchIsCloser(sh, t, th);
    case RLoad | RStore | RCas => RegisterIsCloser(sh, t, th);
    case KLoad | KCas => MarkIsCloser(sh, t, th);
    case _ => ScanIsCloser(sh, th);
  }

  /** Only thread t moves, and no weak compare-and-exchange fails without a reason. */
  predicate OnlySteps(run: seq<Action>, t: nat) {
    forall i | 0 <= i < |run| :: run[i] == Go(t) || run[i] == Release(t) || run[i] == EndScan(t)
  }

  lemma NotThrown(s: State, t: nat)
    requires Inv(s) && t < |s.threads|
    ensures !s.threads[t].pc.Thrown?
  {
    assert ThreadInv(s.sh, t, s.threads[t]);
  }

  lemma DoGo(s: State, t: nat)
    requires Enabled(s, Go(t))
    ensures Do(s, Go(t)).sh == Apply(s.sh, GoEffect(s.sh, t, s.threads[t]))
    ensures Do(s, Go(t)).threads == s.threads[t := GoThread(s.sh, s.threads[t])]
  {
    hide GoThread, GoEffect, Apply, CanGo;
  }

  lemma GoAlone(s: State, t: nat)
    requires Inv(s) && Enabled(s, Go(t)) && UpToDate(s.sh, s.threads[t])
    ensures var s2 := Do(s, Go(t));
            Inv(s2) && t < |s2.threads| && UpToDate(s2.sh, s2.threads[t]) && Closer(s.sh, s.threads[t], s2.sh, s2.threads[t])
  {
    hide UpToDate, Closer, GoThread, GoEffect, Apply, SharedInv, OwnInv, SearchInv, ScanInv, Do;
    StepKeepsInv(s, Go(t));
    DoGo(s, t);
    assert ThreadInv(s.sh, t, s.threads[t]);
    NotThrown(Do(s, Go(t)), t);
    StepIsCloser(s.sh, t, s.threads[t]);
  }

  /** A call that nobody interferes with returns: registering, removing and scanning all end,
      whatever marked groups stand in the chain. */
  lemma {:induction false} CallReturns(s: State, t: nat) returns (run: seq<Action>)
    requires Inv(s) && t < |s.threads| && UpToDate(s.sh, s.threads[t])
    ensures ValidRun(s, run) && OnlySteps(run, t)
    ensures t < |After(s, run).threads| && After(s, run).threads[t].pc.Idle?
    decreases Phase(s.threads[t]), Near(s.sh, s.threads[t]), Far(s.sh, s.threads[t]), PcRank(s.threads[t].pc)
  {
    hide Inv, UpToDate, Phase, Near, Far, PcRank, Do;
    NotThrown(s, t);
    if CanGo(s.threads[t]) {
      GoAlone(s, t);
      var rest := CallReturns(Do(s, Go(t)), t);
      run := [Go(t)] + rest;
      assert run[1..] == rest;
    } else {
      run := LastStep(s, t);
    }
  }

  lemma LastStep(s: State, t: nat) returns (run: seq<Action>)
    requires Inv(s) && t < |s.threads| && !CanGo(s.threads[t])
    ensures ValidRun(s, run) && OnlySteps(run, t)
    ensures t < |After(s, run).threads| && After(s, run).threads[t].pc.Idle?
  {
    hide Inv, Apply, EffectOf;
    NotThrown(s, t);
    if s.threads[t].pc.Idle? { run := []; }
    else if s.threads[t].pc.CEnd? { run := [EndScan(t)]; }
    else {
      RemovedIsGone(s, t);
      run := [Release(t)];
    }
  }

  lemma CallBegins(s: State, a: Action)
    requires Inv(s) && Enabled(s, a) && (a.CallRegister? || a.CallRemove? || a.CallScan?)
    ensures Inv(Do(s, a)) && a.t < |Do(s, a).threads| && UpToDate(Do(s, a).sh, Do(s, a).threads[a.t])
  {
    StepKeepsInv(s, a);
  }

  /** Such a call returns, whatever state it begins in. */
  lemma ReturnsAlone(s: State, a: Action) returns (run: seq<Action>)
    requires Inv(s) && Enabled(s, a) && (a.CallRegister? || a.CallRemove? || a.CallScan?)
    ensures ValidRun(s, [a] + run) && OnlySteps(run, a.t)
    ensures a.t < |After(s, [a] + run).threads| && After(s, [a] + run).threads[a.t].pc.Idle?
  {
    hide Inv, UpToDate, Do, Enabled;
    CallBegins(s, a);
    run := CallReturns(Do(s, a), a.t);
    assert ([a] + run)[0] == a && ([a] + run)[1..] == run;
  }
}
