/** The threads of the hazard-group registry: registering a group for the first time,
    removing it, and scanning the valid chain, one load, store or CAS at a time and in
    any interleaving. */
module HazardRegistry {
  import opened HazardChain
  import opened MarkedLink
  import opened Reclaim

  datatype Pc =
    | Idle
    | RLoad | RStore | RCas                 // push_front_hazard_ptr_group_to_valid_chain
    | SSet | SVer | SLook | SCas            // is_hazard_ptr_group_in_valid_chain for the own group
    | KLoad | KCas                          // set_del_mark
    | Check                                 // the mark is read once more before the group is released
    | Thrown                                // a logic_error
    | CLoad | CVisit | CNext | CEnd         // scan_hazard_pointers

  /** own is the group of the thread, pre and cur are the two positions of the search,
      nx is a loaded word, marked says that the own group carries its mark.  start and
      seen are auxiliary: the unmarked groups when the scan began, and those visited. */
  datatype Thread = Thread(
    pc: Pc, own: Ref, marked: bool, x: Ref, pre: Ref, cur: Ref, nx: Word, start: set<Ref>, seen: set<Ref>)

  datatype State = State(sh: Shared, threads: seq<Thread>)

  datatype Action =
    | Spawn
    | CallRegister(t: nat, n: Ref)
    | CallRemove(t: nat)
    | CallScan(t: nat)
    | Go(t: nat)
    | Fail(t: nat)                          // a weak compare-and-exchange fails spuriously
    | Release(t: nat)
    | EndScan(t: nat)

  function NewThread(): Thread {
    Thread(Idle, NULL, false, NULL, TOP, NULL, Word(NULL, false), {}, {})
  }

  function Init(): State {
    State(Shared(map[TOP := Word(NULL, false)], map[], map[], 1), [])
  }

  /** The registered groups without a mark. */
  function Unmarked(sh: Shared): set<Ref> {
    set n | n in sh.stage && IsChained(sh, n) && !Marked(sh, n)
  }

  /** The search returns. */
  function Found(th: Thread): Thread {
    if th.marked then th.(pre := TOP, pc := SSet) else th.(pc := KLoad)
  }

  function NotFound(th: Thread): Thread {
    if th.marked then th.(pc := Check) else th.(pc := Thrown)
  }

  function GoEffect(sh: Shared, t: nat, th: Thread): Effect {
    match th.pc
    case RStore => WriteWord(th.own, Word(th.x, false))
    case RCas => if WordOf(sh, TOP) == Word(th.x, false) then Push(th.own, t) else Nothing
    case SCas => if WordOf(sh, th.pre) == Word(th.cur, false) then Unlink(th.pre, th.cur) else Nothing
    case KCas => if WordOf(sh, th.own) == th.nx then SetMark(th.own) else Nothing
    case _ => Nothing
  }

  function SearchStep(sh: Shared, th: Thread): Thread {
    match th.pc
    case SSet => if Next(sh, th.pre) == NULL then NotFound(th) else th.(cur := Next(sh, th.pre), pc := SVer)
    case SVer =>
      if Next(sh, th.pre) == th.cur then th.(pc := SLook)
      else if Next(sh, th.pre) == NULL then NotFound(th)
      else th.(cur := Next(sh, th.pre))
    case SLook =>
      if Marked(sh, th.cur) then th.(nx := WordOf(sh, th.cur), pc := SCas)
      else if th.cur == th.own then Found(th)
      else th.(pre := th.cur, pc := SSet)
    case _ => if WordOf(sh, th.pre) == Word(th.cur, false) then th.(pc := SSet) else th.(pre := TOP, pc := SSet)
  }

  function GoThread(sh: Shared, th: Thread): Thread {
    match th.pc
    case RLoad => th.(x := Next(sh, TOP), pc := RStore)
    case RStore => th.(pc := RCas)
    case RCas => if WordOf(sh, TOP) == Word(th.x, false) then th.(pc := Idle) else th.(x := Next(sh, TOP), pc := RStore)
    case SSet | SVer | SLook | SCas => SearchStep(sh, th)
    case KLoad => th.(nx := WordOf(sh, th.own), pc := KCas)
    case KCas =>
      if WordOf(sh, th.own) == th.nx then th.(marked := true, pre := TOP, pc := SSet)
      else th.(pc := KLoad)
    case CLoad => th.(cur := Next(sh, TOP), start := Unmarked(sh), seen := {}, pc := if Next(sh, TOP) == NULL then CEnd else CVisit)
    case CVisit => th.(seen := th.seen + {th.cur}, pc := CNext)
    case CNext => th.(cur := Next(sh, th.cur), pc := if Next(sh, th.cur) == NULL then CEnd else CVisit)
    case _ => th
  }

  predicate CanGo(th: Thread) {
    !th.pc.Idle? && !th.pc.Check? && !th.pc.Thrown? && !th.pc.CEnd?
  }

  predicate Enabled(s: State, a: Action) {
    match a
    case Spawn => true
    case CallRegister(t, n) =>
      t < |s.threads| && s.threads[t].pc.Idle? && s.threads[t].own == NULL && n != NULL && n != TOP && StageOf(s.sh, n).Unborn?
    case CallRemove(t) => t < |s.threads| && s.threads[t].pc.Idle? && s.threads[t].own != NULL
    case CallScan(t) => t < |s.threads| && s.threads[t].pc.Idle?
    case Go(t) => t < |s.threads| && CanGo(s.threads[t])
    case Fail(t) => t < |s.threads| && (s.threads[t].pc.RCas? || s.threads[t].pc.SCas? || s.threads[t].pc.KCas?)
    case Release(t) => t < |s.threads| && s.threads[t].pc.Check?
    case EndScan(t) => t < |s.threads| && s.threads[t].pc.CEnd?
  }

  function EffectOf(s: State, a: Action): Effect
    requires Enabled(s, a)
  {
    match a
    case CallRegister(t, n) => Own(n, t)
    case Go(t) => GoEffect(s.sh, t, s.threads[t])
    case _ => Nothing
  }

  function Actor(a: Action): Option<nat> {
    match a
    case Spawn => None
    case _ => Some(a.t)
  }

  function ThreadAfter(s: State, a: Action): Thread
    requires Enabled(s, a) && Actor(a).Some?
  {
    var th := s.threads[a.t];
    match a
    case CallRegister(t, n) => th.(own := n, marked := false, pc := RLoad)
    case CallRemove(t) => th.(pre := TOP, pc := SSet)
    case CallScan(t) => th.(pc := CLoad)
    case Go(t) => GoThread(s.sh, th)
    case Fail(t) =>
      if th.pc.RCas? then th.(x := Next(s.sh, TOP), pc := RStore)
      else if th.pc.SCas? then th.(pre := TOP, pc := SSet)
      else th.(pc := KLoad)
    case Release(t) => if Marked(s.sh, th.own) then th.(own := NULL, marked := false, pc := Idle) else th.(pc := Thrown)
    case _ => th.(pc := Idle)
  }

  function Do(s: State, a: Action): State
    requires Enabled(s, a)
  {
    State(
      Apply(s.sh, EffectOf(s, a)),
      if a.Spawn? then s.threads + [NewThread()] else s.threads[a.t := ThreadAfter(s, a)])
  }

  // ---- the invariant ----

  predicate Registering(pc: Pc) { pc.RLoad? || pc.RStore? || pc.RCas? }
  predicate Searching(pc: Pc) { pc.SSet? || pc.SVer? || pc.SLook? || pc.SCas? }
  predicate OnCur(pc: Pc) { pc.SVer? || pc.SLook? || pc.SCas? }
  predicate Scanning(pc: Pc) { pc.CVisit? || pc.CNext? || pc.CEnd? }

  predicate IsPlace(sh: Shared, a: Ref) { a == TOP || IsChained(sh, a) }

  predicate OwnInv(sh: Shared, t: nat, th: Thread) {
    && th.own != TOP
    && (Registering(th.pc) ==> th.own != NULL && StageOf(sh, th.own) == Private(t) && !th.marked)
    && (th.pc.RCas? ==> WordOf(sh, th.own) == Word(th.x, false))
    && (!Registering(th.pc) && th.own != NULL ==> StageOf(sh, th.own) == Chained(t) && Marked(sh, th.own) == th.marked)
    && (Searching(th.pc) || th.pc.KLoad? || th.pc.KCas? || th.pc.Check? ==> th.own != NULL)
    && (th.pc.KLoad? || th.pc.KCas? ==> !th.marked)
    && (th.pc.Check? ==> th.marked)
    && (th.own == NULL ==> !th.marked)
    && (th.marked ==> Searching(th.pc) || th.pc.Check?)
    && !th.pc.Thrown?
  }

  /** What the search for the own group counts on. */
  predicate SearchInv(sh: Shared, th: Thread) {
    && (Searching(th.pc) ==>
          && IsPlace(sh, th.pre) && th.pre != th.own
          && (Reach(sh, TOP, th.own) ==> Reach(sh, th.pre, th.own)))
    && (OnCur(th.pc) ==>
          IsChained(sh, th.cur) && (Reach(sh, TOP, th.own) ==> Reach(sh, th.cur, th.own)))
    && (th.pc.SCas? ==> th.nx.mark && WordOf(sh, th.cur) == th.nx)
    && (th.pc.Check? ==> !Reach(sh, TOP, th.own))
  }

  /** Every group that was unmarked when the scan began has been visited, is still ahead
      of the scan, or has been marked since. */
  predicate ScanInv(sh: Shared, th: Thread) {
    Scanning(th.pc) ==>
      && (th.cur == NULL || IsChained(sh, th.cur))
      && (th.pc.CEnd? <==> th.cur == NULL)
      && (th.pc.CNext? ==> th.cur in th.seen)
      && forall n | n in th.start :: IsChained(sh, n) && (Marked(sh, n) || n in th.seen || Reach(sh, th.cur, n))
  }

  predicate ThreadInv(sh: Shared, t: nat, th: Thread) {
    OwnInv(sh, t, th) && SearchInv(sh, th) && ScanInv(sh, th)
  }

  ghost predicate ThreadsInv(sh: Shared, threads: seq<Thread>) {
    forall t | 0 <= t < |threads| :: ThreadInv(sh, t, threads[t])
  }

  ghost predicate Inv(s: State) {
    SharedInv(s.sh) && ThreadsInv(s.sh, s.threads)
  }

  // ---- a step of one agent leaves what another thread knows intact ----

  /** The effect is not taken by thread u on its own group. */
  predicate Foreign(sh: Shared, e: Effect, u: nat) {
    match e
    case WriteWord(n, w) => StageOf(sh, n) != Private(u)
    case Push(n, t) => t != u
    case SetMark(n) => StageOf(sh, n) != Chained(u)
    case _ => true
  }

  lemma OwnStable(sh: Shared, e: Effect, u: nat, th: Thread)
    requires SharedInv(sh) && EffectOk(sh, e) && Foreign(sh, e, u) && OwnInv(sh, u, th)
    ensures OwnInv(Apply(sh, e), u, th)
  {
  }

  lemma ChainedStable(sh: Shared, e: Effect, n: Ref)
    requires SharedInv(sh) && EffectOk(sh, e) && IsChained(sh, n)
    ensures IsChained(Apply(sh, e), n)
    ensures Marked(sh, n) ==> WordOf(Apply(sh, e), n) == WordOf(sh, n)
  {
  }

  lemma PlaceStable(sh: Shared, e: Effect, a: Ref)
    requires SharedInv(sh) && EffectOk(sh, e) && IsPlace(sh, a)
    ensures IsPlace(Apply(sh, e), a)
  {
  }

  lemma SearchInvStable(sh: Shared, e: Effect, u: nat, th: Thread)
    requires SharedInv(sh) && EffectOk(sh, e) && OwnInv(sh, u, th) && SearchInv(sh, th)
    ensures SearchInv(Apply(sh, e), th)
  {
    if Searching(th.pc) {
      PlaceStable(sh, e, th.pre);
      SearchStable(sh, e, th.pre, th.own);
      if OnCur(th.pc) {
        ChainedStable(sh, e, th.cur);
        SearchStable(sh, e, th.cur, th.own);
      }
    }
    if th.pc.Check? { GoneStable(sh, e, th.own); }
  }

  lemma ScanInvStable(sh: Shared, e: Effect, th: Thread)
    requires SharedInv(sh) && EffectOk(sh, e) && ScanInv(sh, th)
    ensures ScanInv(Apply(sh, e), th)
  {
    if Scanning(th.pc) {
      var s2 := Apply(sh, e);
      if th.cur != NULL { ChainedStable(sh, e, th.cur); }
      forall n | n in th.start ensures IsChained(s2, n) && (Marked(s2, n) || n in th.seen || Reach(s2, th.cur, n)) {
        ChainedStable(sh, e, n);
        if !Marked(s2, n) && n !in th.seen { AheadStable(sh, e, th.cur, n); }
      }
    }
  }

  // ---- a thread's own step ----

  lemma GoIsOk(sh: Shared, t: nat, th: Thread)
    requires SharedInv(sh) && ThreadInv(sh, t, th) && CanGo(th)
    ensures EffectOk(sh, GoEffect(sh, t, th))
  {
  }

  lemma RegisterKeeps(sh: Shared, t: nat, th: Thread)
    requires SharedInv(sh) && ThreadInv(sh, t, th) && Registering(th.pc)
    ensures ThreadInv(Apply(sh, GoEffect(sh, t, th)), t, GoThread(sh, th))
  {
  }

  /** One link further the own group is still ahead. */
  lemma OneFurther(sh: Shared, a: Ref, g: Ref)
    requires LinksInv(sh) && IsPlace(sh, a) && a != g && (Reach(sh, TOP, g) ==> Reach(sh, a, g))
    ensures Next(sh, a) == NULL || IsChained(sh, Next(sh, a))
    ensures g != NULL && Next(sh, a) == NULL ==> !Reach(sh, TOP, g)
    ensures Reach(sh, TOP, g) ==> Reach(sh, Next(sh, a), g)
  {
    LinkAt(sh, a);
  }

  lemma LookAhead(sh: Shared, t: nat, th: Thread)
    requires SharedInv(sh) && ThreadInv(sh, t, th) && (th.pc.SSet? || th.pc.SVer?)
    ensures ThreadInv(sh, t, SearchStep(sh, th))
  {
    OneFurther(sh, th.pre, th.own);
    if !th.marked { assert Reach(sh, TOP, th.own); }
  }

  lemma LookKeeps(sh: Shared, t: nat, th: Thread)
    requires SharedInv(sh) && ThreadInv(sh, t, th) && th.pc.SLook?
    ensures ThreadInv(sh, t, SearchStep(sh, th))
  {
  }

  lemma UnlinkStepKeeps(sh: Shared, t: nat, th: Thread)
    requires SharedInv(sh) && ThreadInv(sh, t, th) && th.pc.SCas?
    ensures ThreadInv(Apply(sh, GoEffect(sh, t, th)), t, SearchStep(sh, th))
  {
    hide SharedInv, EffectOk, Apply, Reach, StageOf, Marked, IsChained;
    var e := GoEffect(sh, t, th);
    GoIsOk(sh, t, th);
    OwnStable(sh, e, t, th);
    SearchInvStable(sh, e, t, th);
  }

  lemma MarkStepKeeps(sh: Shared, t: nat, th: Thread)
    requires SharedInv(sh) && ThreadInv(sh, t, th) && (th.pc.KLoad? || th.pc.KCas?)
    ensures ThreadInv(Apply(sh, GoEffect(sh, t, th)), t, GoThread(sh, th))
  {
  }

  lemma StartKeeps(sh: Shared, t: nat, th: Thread)
    requires SharedInv(sh) && ThreadInv(sh, t, th) && th.pc.CLoad?
    ensures ThreadInv(sh, t, GoThread(sh, th))
  {
    LinkAt(sh, TOP);
    var th2 := GoThread(sh, th);
    forall n | n in th2.start ensures IsChained(sh, n) && Reach(sh, th2.cur, n) {
      assert StageOf(sh, n).Chained?;
      assert Reach(sh, TOP, n);
    }
  }

  lemma VisitKeeps(sh: Shared, t: nat, th: Thread)
    requires SharedInv(sh) && ThreadInv(sh, t, th) && (th.pc.CVisit? || th.pc.CNext?)
    ensures ThreadInv(sh, t, GoThread(sh, th))
  {
    LinkAt(sh, th.cur);
  }

  /** Whatever the next instruction is, the thread still knows what it must know. */
  lemma GoKeepsThread(sh: Shared, t: nat, th: Thread)
    requires SharedInv(sh) && ThreadInv(sh, t, th) && CanGo(th)
    ensures ThreadInv(Apply(sh, GoEffect(sh, t, th)), t, GoThread(sh, th))
  {
    match th.pc
    case RLoad | RStore | RCas => RegisterKeeps(sh, t, th);
    case SSet | SVer => LookAhead(sh, t, th);
    case SLook => LookKeeps(sh, t, th);
    case SCas => UnlinkStepKeeps(sh, t, th);
    case KLoad | KCas => MarkStepKeeps(sh, t, th);
    case CLoad => StartKeeps(sh, t, th);
    case _ => VisitKeeps(sh, t, th);
  }

  lemma OtherStepKeeps(s: State, a: Action)
    requires Inv(s) && Enabled(s, a) && Actor(a).Some? && !a.Go?
    ensures ThreadInv(Do(s, a).sh, a.t, ThreadAfter(s, a))
  {
    var sh, th := s.sh, s.threads[a.t];
    assert ThreadInv(sh, a.t, th);
    match a
    case CallRegister(t, n) => RegisterStarts(sh, t, th, n);
    case CallRemove(t) => RemoveStarts(sh, t, th);
    case Fail(t) => FailKeeps(sh, t, th, ThreadAfter(s, a));
    case CallScan(_) | Release(_) | EndScan(_) => PauseKeeps(sh, a.t, th);
    hide ThreadInv, SharedInv, ThreadsInv;
  }

  lemma RegisterStarts(sh: Shared, t: nat, th: Thread, n: Ref)
    requires ThreadInv(sh, t, th) && th.pc.Idle? && th.own == NULL && n != NULL && n != TOP
    ensures ThreadInv(Apply(sh, Own(n, t)), t, th.(own := n, marked := false, pc := RLoad))
  {
  }

  lemma RemoveStarts(sh: Shared, t: nat, th: Thread)
    requires ThreadInv(sh, t, th) && th.pc.Idle? && th.own != NULL
    ensures ThreadInv(sh, t, th.(pre := TOP, pc := SSet))
  {
  }

  lemma FailKeeps(sh: Shared, t: nat, th: Thread, th2: Thread)
    requires ThreadInv(sh, t, th)
    requires th.pc.RCas? ==> th2 == th.(x := Next(sh, TOP), pc := RStore)
    requires th.pc.SCas? ==> th2 == th.(pre := TOP, pc := SSet)
    requires th.pc.KCas? ==> th2 == th.(pc := KLoad)
    requires th.pc.RCas? || th.pc.SCas? || th.pc.KCas?
    ensures ThreadInv(sh, t, th2)
  {
  }

  lemma PauseKeeps(sh: Shared, t: nat, th: Thread)
    requires ThreadInv(sh, t, th)
    ensures th.pc.Idle? ==> ThreadInv(sh, t, th.(pc := CLoad))
    ensures th.pc.CEnd? ==> ThreadInv(sh, t, th.(pc := Idle))
    ensures th.pc.Check? && Marked(sh, th.own) ==> ThreadInv(sh, t, th.(own := NULL, marked := false, pc := Idle))
    ensures th.pc.Check? ==> Marked(sh, th.own)
  {
  }

  lemma EffectIsOk(s: State, a: Action)
    requires Inv(s) && Enabled(s, a)
    ensures EffectOk(s.sh, EffectOf(s, a))
    ensures forall u | 0 <= u < |s.threads| && Actor(a) != Some(u) :: Foreign(s.sh, EffectOf(s, a), u)
  {
    if a.Go? {
      assert ThreadInv(s.sh, a.t, s.threads[a.t]);
      GoIsOk(s.sh, a.t, s.threads[a.t]);
    }
  }

  lemma StepKeepsInv(s: State, a: Action)
    requires Inv(s) && Enabled(s, a)
    ensures Inv(Do(s, a))
  {
    var s2, e := Do(s, a), EffectOf(s, a);
    EffectIsOk(s, a);
    EffectKeepsInv(s.sh, e);
    forall u | 0 <= u < |s2.threads| ensures ThreadInv(s2.sh, u, s2.threads[u]) {
      if u < |s.threads| {
        assert ThreadInv(s.sh, u, s.threads[u]);
        if Actor(a) == Some(u) {
          if a.Go? { GoKeepsThread(s.sh, u, s.threads[u]); } else { OtherStepKeeps(s, a); }
        } else {
          OwnStable(s.sh, e, u, s.threads[u]);
          SearchInvStable(s.sh, e, u, s.threads[u]);
          ScanInvStable(s.sh, e, s.threads[u]);
        }
      }
    }
  }

  // ---- what every run keeps ----

  predicate ValidRun(s: State, run: seq<Action>)
    decreases |run|
  {
    run == [] || (Enabled(s, run[0]) && ValidRun(Do(s, run[0]), run[1..]))
  }

  function After(s: State, run: seq<Action>): State
    requires ValidRun(s, run)
    decreases |run|
  {
    if run == [] then s else After(Do(s, run[0]), run[1..])
  }

  lemma InitInv()
    ensures Inv(Init())
  {
    var sh := Init().sh;
    forall n ensures LinkOk(sh, n) && !IsChained(sh, n) {
      assert n !in sh.stage;
    }
    assert StageOf(sh, NULL).Unborn? && StageOf(sh, TOP).Unborn?;
    assert LinksInv(sh);
    assert ReachInv(sh) by {
      forall n ensures IsChained(sh, n) ==> Reach(sh, TOP, n) {
        assert !IsChained(sh, n);
      }
    }
  }

  lemma {:induction false} RunKeepsInv(s: State, run: seq<Action>)
    requires Inv(s) && ValidRun(s, run)
    ensures Inv(After(s, run))
    decreases |run|
  {
    if run != [] {
      StepKeepsInv(s, run[0]);
      RunKeepsInv(Do(s, run[0]), run[1..]);
    }
  }

  /** Scan completeness, step by step: n is one of the groups the running scan of thread t
      has to visit. */
  predicate MustVisit(s: State, t: nat, n: Ref) {
    t < |s.threads| && (s.threads[t].pc.CLoad? || (Scanning(s.threads[t].pc) && n in s.threads[t].start))
  }

  lemma MustVisitStable(s: State, a: Action, t: nat, n: Ref)
    requires Inv(s) && Enabled(s, a) && MustVisit(s, t, n) && a != EndScan(t)
    requires IsChained(s.sh, n) && !Marked(s.sh, n)
    ensures MustVisit(Do(s, a), t, n)
  {
  }

  lemma UnmarkedBefore(s: State, a: Action, n: Ref)
    requires Inv(s) && Enabled(s, a) && IsChained(s.sh, n)
    ensures IsChained(Do(s, a).sh, n)
    ensures !Marked(Do(s, a).sh, n) ==> !Marked(s.sh, n)
  {
    EffectIsOk(s, a);
    ChainedStable(s.sh, EffectOf(s, a), n);
  }

  /** A scan visits every group that is in the chain when the scan loads the top and that
      is not marked before the scan ends, whatever is registered, marked or unlinked
      meanwhile, and even while the scan stands on a group that is already unlinked. */
  lemma {:induction false} ScanIsComplete(s: State, run: seq<Action>, t: nat, n: Ref)
    requires Inv(s) && ValidRun(s, run) && MustVisit(s, t, n) && IsChained(s.sh, n)
    requires EndScan(t) !in run
    requires t < |After(s, run).threads| && After(s, run).threads[t].pc.CEnd? && !Marked(After(s, run).sh, n)
    ensures n in After(s, run).threads[t].seen
    decreases |run|
  {
    NeverMarked(s, run, n);
    if run == [] {
      assert ThreadInv(s.sh, t, s.threads[t]);
    } else {
      StepKeepsInv(s, run[0]);
      MustVisitStable(s, run[0], t, n);
      UnmarkedBefore(s, run[0], n);
      ScanIsComplete(Do(s, run[0]), run[1..], t, n);
    }
  }

  lemma {:induction false} NeverMarked(s: State, run: seq<Action>, n: Ref)
    requires Inv(s) && ValidRun(s, run) && IsChained(s.sh, n) && !Marked(After(s, run).sh, n)
    ensures !Marked(s.sh, n)
    decreases |run|
  {
    if run != [] {
      StepKeepsInv(s, run[0]);
      UnmarkedBefore(s, run[0], n);
      NeverMarked(Do(s, run[0]), run[1..], n);
    }
  }

  /** When a thread releases its group, no scan or search that starts at the top can
      meet it, and removing it has not raised an error. */
  lemma RemovedIsGone(s: State, t: nat)
    requires Inv(s) && Enabled(s, Release(t))
    ensures !Reach(s.sh, TOP, s.threads[t].own) && Marked(s.sh, s.threads[t].own)
    ensures Do(s, Release(t)).threads[t].pc == Idle
  {
    assert ThreadInv(s.sh, t, s.threads[t]);
  }

  /** A group that has left the chain stays out of it. */
  lemma {:induction false} GoneForever(s: State, run: seq<Action>, n: Ref)
    requires Inv(s) && ValidRun(s, run) && IsChained(s.sh, n) && !Reach(s.sh, TOP, n)
    ensures !Reach(After(s, run).sh, TOP, n)
    decreases |run|
  {
    if run != [] {
      EffectIsOk(s, run[0]);
      GoneStable(s.sh, EffectOf(s, run[0]), n);
      ChainedStable(s.sh, EffectOf(s, run[0]), n);
      StepKeepsInv(s, run[0]);
      GoneForever(Do(s, run[0]), run[1..], n);
    }
  }

  /** A group is in the chain from its registration until its owner marks it. */
  lemma RegisteredIsReachable(s: State, n: Ref)
    requires Inv(s) && IsChained(s.sh, n) && !Marked(s.sh, n)
    ensures Reach(s.sh, TOP, n)
  {
    assert StageOf(s.sh, n).Chained?;
  }
}
