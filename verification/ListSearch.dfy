/** The search of the list under interference: an element that satisfies the predicate and
    stays in the list for the whole call is not overlooked. */
module ListSearch {
  import opened MarkedLink
  import opened Reclaim
  import opened ListShared
  import opened ListThreads
  import opened ListSystem
  import opened ListTheorems
  import opened ListRecycling

  /** n is an element with a wanted value. */
  ghost predicate Present(sh: Shared, n: Ref, want: iset<Value>) {
    IsLinked(sh, n) && IsElement(sh, n) && ValOf(sh, n).Some? && ValOf(sh, n).value in want
  }

  /** n is such an element in every state of the run. */
  ghost predicate StaysPresent(s: State, run: seq<Action>, n: Ref, want: iset<Value>)
    requires ValidRun(s, run)
    decreases |run|
  {
    Present(s.sh, n, want) && (run != [] ==> StaysPresent(Do(s, run[0]), run[1..], n, want))
  }

  /** m stands before n, if it stands in the list at all. */
  predicate Before(sh: Shared, m: Ref, n: Ref) {
    IsLinked(sh, m) ==> IndexOf(sh.chain, m) < IndexOf(sh.chain, n)
  }

  predicate NotBehind(sh: Shared, m: Ref, n: Ref) {
    m == n || Before(sh, m, n)
  }

  /** The search of the thread has not got past n. */
  predicate Seeks(sh: Shared, th: Thread, n: Ref) {
    && (OnPrev(th.pc) ==> Before(sh, th.prev, n))
    && (OnCurr(th.pc) && !th.pc.RLoad? && !th.pc.RCas? && !th.pc.Pick? ==> NotBehind(sh, th.curr.p, n))
    && (OnNext(th.pc) && th.curr.p != n ==> NotBehind(sh, th.nx.p, n))
    && (th.pc.Fin? ==> !th.op.RemoveAll? && (th.op.RemoveOne? ==> th.lin.Some?))
  }

  // ---- the order of the nodes does not change ----

  lemma IndexIs(s: seq<Ref>, i: nat, n: Ref)
    requires Distinct(s) && i < |s| && s[i] == n
    ensures IndexOf(s, n) == i
  {
    var k := IndexOf(s, n);
    assert n in s;
  }

  lemma InsertAtOrder(s: seq<Ref>, i: nat, x: Ref, m: Ref, n: Ref)
    requires Distinct(s) && x !in s && i <= |s| && IndexOf(s, m) < IndexOf(s, n) < |s|
    ensures IndexOf(InsertAt(s, i, x), m) < IndexOf(InsertAt(s, i, x), n)
  {
    var a, b, r := IndexOf(s, m), IndexOf(s, n), InsertAt(s, i, x);
    assert Distinct(r);
    hide InsertAt, IndexOf;
    IndexIs(r, if a < i then a else a + 1, m);
    IndexIs(r, if b < i then b else b + 1, n);
  }

  lemma RemoveAtOrder(s: seq<Ref>, i: nat, m: Ref, n: Ref)
    requires Distinct(s) && i < |s| && s[i] != m && s[i] != n && IndexOf(s, m) < IndexOf(s, n) < |s|
    ensures IndexOf(RemoveAt(s, i), m) < IndexOf(RemoveAt(s, i), n)
  {
    var a, b, r := IndexOf(s, m), IndexOf(s, n), RemoveAt(s, i);
    assert Distinct(r);
    hide RemoveAt, IndexOf;
    IndexIs(r, if a < i then a else a - 1, m);
    IndexIs(r, if b < i then b else b - 1, n);
  }

  lemma OutIsNotIn(sh: Shared, x: Ref)
    requires Members(sh) && !IsLinked(sh, x)
    ensures x !in sh.chain
  {
  }

  lemma InsertKeepsOrder(sh: Shared, p: Ref, x: Ref, m: Ref, n: Ref)
    requires SharedInv(sh) && EffectOk(sh, Insert(p, x)) && IsLinked(sh, m) && IsLinked(sh, n)
    requires IndexOf(sh.chain, m) < IndexOf(sh.chain, n)
    ensures var c := Apply(sh, Insert(p, x)).chain; IndexOf(c, m) < IndexOf(c, n)
  {
    hide NodeInv, InsertAt, Links, Ends;
    var i := PlaceOf(sh, p);
    OutIsNotIn(sh, x);
    assert n in sh.chain;
    InsertAtOrder(sh.chain, i + 1, x, m, n);
  }

  lemma UnlinkKeepsOrder(sh: Shared, p: Ref, x: Ref, t: nat, m: Ref, n: Ref)
    requires SharedInv(sh) && EffectOk(sh, Unlink(p, x, t)) && IsLinked(sh, m) && IsLinked(sh, n) && m != x && n != x
    requires IndexOf(sh.chain, m) < IndexOf(sh.chain, n)
    ensures var c := Apply(sh, Unlink(p, x, t)).chain; IndexOf(c, m) < IndexOf(c, n)
  {
    hide NodeInv, RemoveAt;
    SuccessorLinked(sh, p);
    var i := PlaceOf(sh, x);
    assert n in sh.chain;
    RemoveAtOrder(sh.chain, i, m, n);
  }

  lemma OtherKeepsOrder(sh: Shared, e: Effect)
    requires !e.Insert? && !e.Unlink?
    ensures Apply(sh, e).chain == sh.chain
  {
  }

  lemma StaysOut(sh: Shared, e: Effect, n: Ref)
    requires EffectOk(sh, e) && (IsLinked(sh, n) || Gone(sh, n)) && IsLinked(Apply(sh, e), n)
    ensures IsLinked(sh, n) && (e.Unlink? ==> e.n != n)
  {
  }

  /** Whatever the effect, a node that somebody guards stays on its side of n. */
  lemma OrderStable(sh: Shared, e: Effect, m: Ref, n: Ref)
    requires SharedInv(sh) && EffectOk(sh, e) && (IsLinked(sh, m) || Gone(sh, m))
    requires IsLinked(sh, n) && IsLinked(Apply(sh, e), n) && Before(sh, m, n)
    ensures Before(Apply(sh, e), m, n)
  {
    hide SharedInv, Apply;
    if IsLinked(Apply(sh, e), m) {
      StaysOut(sh, e, m);
      StaysOut(sh, e, n);
      match e
      case Insert(p, x) => InsertKeepsOrder(sh, p, x, m, n);
      case Unlink(p, x, t) => UnlinkKeepsOrder(sh, p, x, t, m, n);
      case _ => OtherKeepsOrder(sh, e);
    }
  }

  /** What the thread holds has not been recycled. */
  predicate Around(sh: Shared, th: Thread) {
    && (OnPrev(th.pc) ==> IsLinked(sh, th.prev) || Gone(sh, th.prev))
    && (OnCurr(th.pc) ==> IsLinked(sh, th.curr.p) || Gone(sh, th.curr.p))
    && (OnNext(th.pc) ==> IsLinked(sh, th.nx.p) || Gone(sh, th.nx.p))
  }

  lemma GuardedIsAround(sh: Shared, t: nat, th: Thread)
    requires ThreadInv(sh, t, th)
    ensures Around(sh, th)
  {
  }

  /** An effect of anybody leaves the search before n. */
  lemma SeeksStable(sh: Shared, e: Effect, th: Thread, n: Ref)
    requires SharedInv(sh) && EffectOk(sh, e) && Around(sh, th) && Seeks(sh, th, n)
    requires IsLinked(sh, n) && IsLinked(Apply(sh, e), n)
    ensures Seeks(Apply(sh, e), th, n)
  {
    hide SharedInv, Apply, EffectOk, Before, IsLinked, Gone;
    if OnPrev(th.pc) { OrderStable(sh, e, th.prev, n); }
    if OnCurr(th.pc) && th.curr.p != n && Before(sh, th.curr.p, n) { OrderStable(sh, e, th.curr.p, n); }
    if OnNext(th.pc) && th.nx.p != n && Before(sh, th.nx.p, n) { OrderStable(sh, e, th.nx.p, n); }
  }

  // ---- a thread's own step ----

  /** n is ahead of the end; so is what follows a node before n. */
  lemma NextNotBehind(sh: Shared, m: Ref, n: Ref)
    requires SharedInv(sh) && IsLinked(sh, m) && IsLinked(sh, n) && n != SENTINEL && Before(sh, m, n)
    ensures var w := WordOf(sh, m).p; IsLinked(sh, w) && NotBehind(sh, w, n) && w != SENTINEL
  {
    hide NodeInv;
    var i := PlaceOf(sh, m);
    var j := PlaceOf(sh, n);
    var k := PlaceOf(sh, SENTINEL) by { assert sh.chain[|sh.chain| - 1] == SENTINEL; }
    IndexIs(sh.chain, |sh.chain| - 1, SENTINEL);
    IndexIs(sh.chain, i + 1, sh.chain[i + 1]);
  }

  lemma HeadIsBefore(sh: Shared, n: Ref)
    requires SharedInv(sh) && IsLinked(sh, n) && n != HEAD
    ensures IsLinked(sh, HEAD) && Before(sh, HEAD, n)
  {
    hide NodeInv;
    assert IsLinked(sh, HEAD) by { assert sh.chain[0] == HEAD; }
    var i := PlaceOf(sh, HEAD);
    var j := PlaceOf(sh, n);
  }

  /** The search arrives at curr, which is not behind n and not the end. */
  lemma ArrivesBefore(sh: Shared, th: Thread, n: Ref)
    requires Before(sh, th.prev, n) && NotBehind(sh, th.curr.p, n) && th.curr.p != SENTINEL
    ensures Seeks(sh, AtCurr(th), n)
  {
  }

  lemma HeadSeeks(sh: Shared, t: nat, th: Thread, n: Ref)
    requires SharedInv(sh) && ThreadInv(sh, t, th) && Present(sh, n, th.want) && Seeks(sh, th, n)
    requires th.pc.FStart? || th.pc.FHeadLoad? || th.pc.FHeadPub? || th.pc.FHeadVer? || th.pc.FHeadRepub?
    ensures Seeks(sh, HeadStep(sh, th), n)
  {
    HeadIsBefore(sh, n);
    if th.pc.FHeadVer? && WordOf(sh, HEAD) == th.curr {
      NextNotBehind(sh, HEAD, n);
      ArrivesBefore(sh, th, n);
    }
    hide SharedInv, ThreadInv;
  }

  lemma SentinelIsBehind(sh: Shared, n: Ref)
    requires SharedInv(sh) && IsLinked(sh, n) && n != SENTINEL
    ensures !NotBehind(sh, SENTINEL, n)
  {
    hide NodeInv;
    assert IsLinked(sh, SENTINEL) by { assert sh.chain[|sh.chain| - 1] == SENTINEL; }
    IndexIs(sh.chain, |sh.chain| - 1, SENTINEL);
    var j := PlaceOf(sh, n);
  }

  lemma LookSeeks(sh: Shared, t: nat, th: Thread, n: Ref)
    requires SharedInv(sh) && ThreadInv(sh, t, th) && Present(sh, n, th.want) && Seeks(sh, th, n)
    requires th.pc.FNextLoad? || th.pc.FNextPub? || th.pc.FNextVer? || th.pc.FNextRepub?
    ensures Seeks(sh, LookStep(sh, th), n)
  {
    LinkedFacts(sh, t, th);
    if th.pc.FNextVer? && !Marked(sh, th.curr.p) && th.curr.p != n {
      UnmarkedIsLinked(sh, t, th, th.kc, th.curr.p);
      NextNotBehind(sh, th.curr.p, n);
    }
    LookSeeksAt(sh, th, n);
  }

  lemma LookSeeksAt(sh: Shared, th: Thread, n: Ref)
    requires th.pc.FNextLoad? || th.pc.FNextPub? || th.pc.FNextVer? || th.pc.FNextRepub?
    requires Seeks(sh, th, n) && WordOf(sh, th.curr.p).p != NULL
    requires th.pc.FNextVer? && !Marked(sh, th.curr.p) && th.curr.p != n ==> NotBehind(sh, WordOf(sh, th.curr.p).p, n)
    ensures Seeks(sh, LookStep(sh, th), n)
  {
    hide Before;
  }

  /** The search does not go past n: the predicate holds there, and n has no mark. */
  lemma TestSeeks(sh: Shared, th: Thread, n: Ref)
    requires SharedInv(sh) && Present(sh, n, th.want) && Seeks(sh, th, n) && Selects(th.op)
    requires th.pc.FProbe? || th.pc.FMark?
    ensures Seeks(sh, TestStep(sh, th), n)
  {
    SentinelIsBehind(sh, n);
    hide SharedInv, Before, IsLinked;
    if th.curr.p != n {
      ArrivesBefore(sh, th.(prev := th.curr.p, curr := th.nx, nx := Word(th.prev, false), kp := th.kc, kc := th.kn, kn := th.kp), n);
    }
  }

  /** The steps that follow a search, and the clean-up. */
  lemma OtherSeeks(sh: Shared, t: nat, th: Thread, n: Ref)
    requires ThreadInv(sh, t, th) && Seeks(sh, th, n) && Selects(th.op)
    requires CanGo(th) && (!Searching(th.pc) || th.pc.FPurge? || th.pc.FPurgeRepub? || th.pc.PurgeClear? || th.pc.PurgeGive?)
    ensures Seeks(sh, GoThread(sh, th), n)
  {
    hide SharedInv, Before, PositionAfter, Position, IsLinked, OwnInv, PrevInv, CurrInv, NextInv, WantInv, PickInv;
  }

  lemma ThreadSeeks(sh: Shared, t: nat, th: Thread, n: Ref)
    requires SharedInv(sh) && ThreadInv(sh, t, th) && Present(sh, n, th.want) && Seeks(sh, th, n) && Selects(th.op) && CanGo(th)
    ensures Seeks(sh, GoThread(sh, th), n)
  {
    hide SharedInv, ThreadInv, Present, Seeks;
    match th.pc
    case FStart | FHeadLoad | FHeadPub | FHeadVer | FHeadRepub => HeadSeeks(sh, t, th, n);
    case FNextLoad | FNextPub | FNextVer | FNextRepub => LookSeeks(sh, t, th, n);
    case FProbe | FMark => TestSeeks(sh, th, n);
    case _ => OtherSeeks(sh, t, th, n);
  }

  /** After an instruction that writes, the thread holds nothing that it did not hold. */
  lemma WriterIsAround(sh: Shared, t: nat, th: Thread)
    requires ThreadInv(sh, t, th) && CanGo(th) && GoEffect(sh, t, th) != Nothing
    ensures Around(sh, GoThread(sh, th))
  {
    hide PositionAfter, Position, OwnInv, NextInv, WantInv, PickInv;
  }

  /** No instruction of the thread itself leads it past n. */
  lemma SeeksStep(sh: Shared, t: nat, th: Thread, n: Ref)
    requires SharedInv(sh) && ThreadInv(sh, t, th) && Present(sh, n, th.want) && Seeks(sh, th, n) && Selects(th.op) && CanGo(th)
    requires IsLinked(Apply(sh, GoEffect(sh, t, th)), n)
    ensures Seeks(Apply(sh, GoEffect(sh, t, th)), GoThread(sh, th), n)
  {
    hide SharedInv, ThreadInv, Seeks, GoThread, GoEffect, Around, IsElement, EffectOk;
    ThreadSeeks(sh, t, th, n);
    if GoEffect(sh, t, th) != Nothing {
      GoIsOk(sh, t, th);
      WriterIsAround(sh, t, th);
      SeeksStable(sh, GoEffect(sh, t, th), GoThread(sh, th), n);
    }
  }

  // ---- over whole runs ----

  lemma SearchKeepsWant(sh: Shared, th: Thread)
    ensures HeadStep(sh, th).want == LookStep(sh, th).want == TestStep(sh, th).want == th.want
  {
    hide WordOf, Hit, Advance, AtCurr, AtEnd, AtNode;
    FoundKeepsWant(th);
    FoundKeepsWant(Publish(th, th.kc, SENTINEL).(curr := Word(SENTINEL, false)));
  }

  lemma FoundKeepsWant(th: Thread)
    ensures AtCurr(th).want == AtEnd(th).want == AtNode(th).want == Advance(th).want == th.want
  {
  }

  lemma ChangeKeepsWant(sh: Shared, th: Thread)
    ensures PurgeStep(sh, th).want == InsertStep(sh, th).want == MarkStep(sh, th).want == RemoveStep(sh, th).want == th.want
  {
    hide WordOf, ValOf, PositionAfter, Position, ValueAt;
  }

  lemma KeepsWant(sh: Shared, th: Thread)
    ensures GoThread(sh, th).want == th.want
  {
    hide HeadStep, LookStep, TestStep, PurgeStep, InsertStep, MarkStep, RemoveStep;
    SearchKeepsWant(sh, th);
    ChangeKeepsWant(sh, th);
  }

  /** The call of thread t goes on. */
  predicate GoesOn(th: Thread, th2: Thread) {
    !th2.pc.Idle? && th2.op == th.op && th2.want == th.want
  }

  lemma SeeksOwnAction(s: State, a: Action, t: nat, n: Ref)
    requires Inv(s) && Enabled(s, a) && Actor(a) == Some(t) && a != Return(t) && !s.threads[t].pc.Idle?
    requires Present(s.sh, n, s.threads[t].want) && IsLinked(Do(s, a).sh, n)
    requires Seeks(s.sh, s.threads[t], n) && Selects(s.threads[t].op)
    ensures Seeks(Do(s, a).sh, Do(s, a).threads[t], n) && GoesOn(s.threads[t], Do(s, a).threads[t])
  {
    hide SharedInv, ThreadInv, Seeks, GoThread, GoEffect, Apply, Present, PickersDiffer;
    var th := s.threads[t];
    assert ThreadInv(s.sh, t, th);
    if a.Go? {
      SeeksStep(s.sh, t, th, n);
      KeepsOp(s.sh, th);
      KeepsWant(s.sh, th);
      NotIdleAfter(s.sh, th);
    } else {
      ClearSeeks(s.sh, th, a.k, n);
      assert Do(s, a).sh == s.sh by { NothingChanges(s.sh); }
    }
  }

  lemma NothingChanges(sh: Shared)
    ensures Apply(sh, Effect.Nothing) == sh
  {
  }

  lemma ClearSeeks(sh: Shared, th: Thread, k: nat, n: Ref)
    requires Seeks(sh, th, n)
    ensures Seeks(sh, Publish(th, k, NULL), n) && GoesOn(th, Publish(th, k, NULL)) == !th.pc.Idle?
  {
  }

  lemma SeeksAction(s: State, a: Action, t: nat, n: Ref)
    requires Inv(s) && Enabled(s, a) && t < |s.threads| && a != Return(t) && !s.threads[t].pc.Idle?
    requires Present(s.sh, n, s.threads[t].want) && IsLinked(Do(s, a).sh, n)
    requires Seeks(s.sh, s.threads[t], n) && Selects(s.threads[t].op)
    ensures t < |Do(s, a).threads|
    ensures Seeks(Do(s, a).sh, Do(s, a).threads[t], n) && GoesOn(s.threads[t], Do(s, a).threads[t])
  {
    hide SharedInv, ThreadInv, Seeks, GoThread, GoEffect, Apply, Around, PickersDiffer;
    assert ThreadInv(s.sh, t, s.threads[t]);
    if Actor(a) == Some(t) {
      SeeksOwnAction(s, a, t, n);
    } else {
      EffectIsOk(s, a);
      GuardedIsAround(s.sh, t, s.threads[t]);
      SeeksStable(s.sh, EffectOf(s, a), s.threads[t], n);
    }
  }

  lemma {:induction false} SeeksRun(s: State, run: seq<Action>, t: nat, n: Ref)
    requires Inv(s) && ValidRun(s, run) && t < |s.threads| && Return(t) !in run && !s.threads[t].pc.Idle?
    requires Selects(s.threads[t].op) && StaysPresent(s, run, n, s.threads[t].want) && Seeks(s.sh, s.threads[t], n)
    ensures var s2 := After(s, run);
            && Inv(s2) && t < |s2.threads| && Seeks(s2.sh, s2.threads[t], n) && GoesOn(s.threads[t], s2.threads[t])
            && Present(s2.sh, n, s.threads[t].want)
    decreases |run|
  {
    hide SharedInv, ThreadInv, Seeks, Do, PickersDiffer, ThreadsInv;
    if run != [] {
      assert StaysPresent(Do(s, run[0]), run[1..], n, s.threads[t].want);
      StepKeepsInv(s, run[0]);
      SeeksAction(s, run[0], t, n);
      SeeksRun(Do(s, run[0]), run[1..], t, n);
    }
  }

  /** run starts at the first instruction of a call of thread t, or where its search starts
      again, and n is an element that the call wants from there to the end of the run. */
  ghost predicate WantsAll(s: State, run: seq<Action>, t: nat, n: Ref)
    requires ValidRun(s, run)
  {
    && t < |s.threads| && s.threads[t].pc.FStart?
    && Return(t) !in run && StaysPresent(s, run, n, s.threads[t].want)
  }

  /** remove_one_if does not answer nothing while such an element is there throughout. */
  lemma RemoveOneFinds(s: State, run: seq<Action>, t: nat, n: Ref)
    requires Inv(s) && ValidRun(s, run) && WantsAll(s, run, t, n) && s.threads[t].op.RemoveOne?
    ensures var s2 := After(s, run); t < |s2.threads| && (s2.threads[t].pc.Fin? ==> s2.threads[t].res.Some?)
  {
    hide Do, PickersDiffer, SharedInv, Before;
    SeeksRun(s, run, t, n);
    var s2 := After(s, run);
    assert ThreadInv(s2.sh, t, s2.threads[t]);
  }

  /** remove_all_if does not end while such an element is there. */
  lemma RemoveAllGoesOn(s: State, run: seq<Action>, t: nat, n: Ref)
    requires Inv(s) && ValidRun(s, run) && WantsAll(s, run, t, n) && s.threads[t].op.RemoveAll?
    ensures var s2 := After(s, run); t < |s2.threads| && !s2.threads[t].pc.Fin?
  {
    SeeksRun(s, run, t, n);
  }

  lemma ElementsGrow(sh: Shared, s: seq<Ref>, i: nat, j: nat)
    requires i <= j <= |s|
    ensures |Elements(sh, s[..i])| <= |Elements(sh, s[..j])|
  {
    assert s[..j] == s[..i] + s[i..j];
    ElementsConcat(sh, s[..i], s[i..j]);
  }

  /** insert does not link behind such an element. */
  lemma InsertsNotBehind(s: State, run: seq<Action>, t: nat, n: Ref)
    requires Inv(s) && ValidRun(s, run) && WantsAll(s, run, t, n) && s.threads[t].op.InsertIf?
    requires Enabled(After(s, run), Go(t)) && EventOf(After(s, run), Go(t)).Some?
    ensures var e := EventOf(After(s, run), Go(t)).value; e.Inserted? && e.k <= Position(After(s, run).sh, n)
  {
    hide Do, PickersDiffer, SharedInv, Before, EventBy, IsLinked;
    SeeksRun(s, run, t, n);
    var s2 := After(s, run);
    assert ThreadInv(s2.sh, t, s2.threads[t]);
    InsertsBefore(s2.sh, t, s2.threads[t], n);
  }

  lemma InsertsBefore(sh: Shared, t: nat, th: Thread, n: Ref)
    requires SharedInv(sh) && ThreadInv(sh, t, th) && Seeks(sh, th, n) && IsLinked(sh, n) && n != SENTINEL
    requires CanGo(th) && th.op.InsertIf? && EventBy(sh, t, th).Some?
    ensures var e := EventBy(sh, t, th).value; e.Inserted? && e.k <= Position(sh, n)
  {
    OnlyInserts(sh, t, th);
    UnmarkedIsLinked(sh, t, th, th.kp, th.prev);
    assert n in sh.chain;
    ElementsGrow(sh, sh.chain, IndexOf(sh.chain, th.prev) + 1, IndexOf(sh.chain, n));
  }

  lemma OnlyInserts(sh: Shared, t: nat, th: Thread)
    requires Shape(th) && Recorded(th) && CanGo(th) && th.op.InsertIf? && EventBy(sh, t, th).Some?
    ensures th.pc.ICas? && GoEffect(sh, t, th) == Insert(th.prev, th.own) && !Marked(sh, th.prev)
  {
  }
}
