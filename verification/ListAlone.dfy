/** A call on the list that nobody interferes with, from any reachable state, also when
    marked nodes are still linked: it ends, and it has done to the elements what its name
    says. */
module ListAlone {
  import opened MarkedLink
  import opened Reclaim
  import opened ListShared
  import opened ListThreads
  import opened ListSystem
  import opened ListTheorems
  import opened ListRecycling
  import opened ListSearch

  // ---- the specification ----

  /** The index of the first wanted value, or the length if there is none. */
  ghost function FirstWanted(q: seq<Value>, want: iset<Value>): (k: nat)
    ensures k <= |q| && (k < |q| ==> q[k] in want) && forall i | 0 <= i < k :: q[i] !in want
  {
    if q == [] || q[0] in want then 0 else 1 + FirstWanted(q[1..], want)
  }

  /** The values that are not wanted, in their order. */
  ghost function Outside(q: seq<Value>, want: iset<Value>): seq<Value> {
    if q == [] then [] else (if q[0] in want then [] else [q[0]]) + Outside(q[1..], want)
  }

  ghost predicate NoneWanted(q: seq<Value>, want: iset<Value>) {
    forall i | 0 <= i < |q| :: q[i] !in want
  }

  /** Where a call with this operation has to act on q, whose event is e. */
  ghost predicate RightPlace(op: Op, want: iset<Value>, q: seq<Value>, e: Event) {
    match op
    case PushFront => e.Inserted? && e.k == 0
    case PushBack => e.Inserted? && e.k == |q|
    case InsertIf => e.Inserted? && e.k == FirstWanted(q, want)
    case PopFront => if q == [] then e.SawEmpty? else e.Removed? && e.k == 0
    case PopBack => if q == [] then e.SawEmpty? else e.Removed? && e.k == |q| - 1
    case RemoveOne => e.Removed? && e.k == FirstWanted(q, want)
    case RemoveAll => e.Removed? && e.k == FirstWanted(q, want)
  }

  lemma {:induction false} OutsideConcat(p: seq<Value>, q: seq<Value>, want: iset<Value>)
    ensures Outside(p + q, want) == Outside(p, want) + Outside(q, want)
  {
    if p == [] {
      assert p + q == q;
    } else {
      OutsideConcat(p[1..], q, want);
      assert (p + q)[1..] == p[1..] + q;
    }
  }

  /** Taking out a wanted value changes nothing outside. */
  lemma OutsideKept(q: seq<Value>, k: nat, want: iset<Value>)
    requires k < |q| && q[k] in want
    ensures Outside(RemoveAt(q, k), want) == Outside(q, want)
  {
    assert q == q[..k] + ([q[k]] + q[k + 1..]);
    OutsideConcat(q[..k], [q[k]] + q[k + 1..], want);
    OutsideConcat([q[k]], q[k + 1..], want);
    OutsideConcat(q[..k], q[k + 1..], want);
    assert [q[k]][1..] == [];
  }

  lemma {:induction false} OutsideAll(q: seq<Value>, want: iset<Value>)
    requires NoneWanted(q, want)
    ensures Outside(q, want) == q
  {
    if q != [] { OutsideAll(q[1..], want); }
  }

  lemma FirstWantedIs(q: seq<Value>, k: nat, want: iset<Value>)
    requires k <= |q| && NoneWanted(q[..k], want) && (k < |q| ==> q[k] in want)
    ensures FirstWanted(q, want) == k
  {
    forall i | 0 <= i < k ensures q[i] !in want { assert q[..k][i] == q[i]; }
  }

  // ---- what a thread knows that runs alone ----

  /** prev and curr are a pair that the search has verified. */
  predicate HasPair(pc: Pc) {
    || pc.FNextLoad? || pc.FNextPub? || pc.FNextVer? || pc.FPurge? || pc.FProbe? || pc.FMark?
    || pc.IStore? || pc.ICas? || pc.MLoad? || pc.MCas? || pc.TCas? || pc.RLoad? || pc.RCas?
  }

  /** Loops that only somebody else can cause. */
  predicate Disturbed(pc: Pc) {
    pc.FHeadRepub? || pc.FNextRepub? || pc.FPurgeRepub? || pc.IRepub? || pc.RRepub?
  }

  /** What the thread has read is still so. */
  predicate UpToDate(sh: Shared, th: Thread) {
    && !Disturbed(th.pc)
    && (th.pc.FHeadPub? ==> th.x == WordOf(sh, HEAD))
    && (th.pc.FHeadVer? ==> th.curr == WordOf(sh, HEAD))
    && (HasPair(th.pc) ==> WordOf(sh, th.prev) == Word(th.curr.p, false))
    && (th.pc.FNextPub? ==> th.x == WordOf(sh, th.curr.p))
    && (th.pc.FNextVer? || th.pc.FPurge? || th.pc.FProbe? || th.pc.FMark? ==> th.nx == WordOf(sh, th.curr.p))
    && (th.pc.FProbe? || th.pc.FMark? || th.pc.MLoad? || th.pc.MCas? || th.pc.TCas? ==> !Marked(sh, th.curr.p))
    && ((th.pc.IStore? || th.pc.ICas?) && th.curr.p != SENTINEL ==> !Marked(sh, th.curr.p))
    && (th.pc.MCas? ==> th.w == WordOf(sh, th.curr.p))
    && (th.pc.TCas? || (th.pc.FMark? && th.op.PopBack?) ==> WordOf(sh, th.curr.p) == Word(SENTINEL, false))
    && (HasPair(th.pc) && (th.op.PushFront? || th.op.PopFront?) ==> th.prev == HEAD)
  }

  /** The search has passed no wanted element. */
  ghost predicate PassedNone(sh: Shared, th: Thread) {
    && (Selects(th.op) && HasPair(th.pc) && !th.pc.RLoad? && !th.pc.RCas? ==> NoneWanted(Elements(sh, sh.chain[..Upto(sh, th.prev)]), th.want))
    && (th.pc.Fin? && (th.op.RemoveAll? || (th.op.RemoveOne? && th.lin.None?)) ==> NoneWanted(List(sh), th.want))
  }

  /** How many nodes stand at p or before it. */
  function Upto(sh: Shared, p: Ref): (k: nat)
    ensures k <= |sh.chain|
  {
    if IndexOf(sh.chain, p) < |sh.chain| then IndexOf(sh.chain, p) + 1 else |sh.chain|
  }

  /** What the call has done so far to the list, which was q when it began. */
  ghost predicate Outcome(sh: Shared, th: Thread, q: seq<Value>) {
    if th.op.RemoveAll? then
      Outside(List(sh), th.want) == Outside(q, th.want) && |List(sh)| + th.mine == |q|
    else
      match th.lin
      case None => List(sh) == q
      case Some(e) => RightPlace(th.op, th.want, q, e) && Spec(q, e) == Some(List(sh))
  }

  ghost predicate Solo(sh: Shared, t: nat, th: Thread, q: seq<Value>) {
    SharedInv(sh) && ThreadInv(sh, t, th) && UpToDate(sh, th) && PassedNone(sh, th) && Outcome(sh, th, q)
  }

  function NextShared(sh: Shared, t: nat, th: Thread): Shared {
    Apply(sh, GoEffect(sh, t, th))
  }

  // ---- one instruction ----

  lemma HeadUpToDate(sh: Shared, t: nat, th: Thread)
    requires ThreadInv(sh, t, th) && UpToDate(sh, th) && !Marked(sh, HEAD)
    requires th.pc.FStart? || th.pc.FHeadLoad? || th.pc.FHeadPub? || th.pc.FHeadVer?
    ensures UpToDate(sh, HeadStep(sh, th))
  {
    hide Recorded, OwnInv, PrevInv, CurrInv, NextInv, WantInv, PickInv;
  }

  lemma LookUpToDate(sh: Shared, t: nat, th: Thread)
    requires SharedInv(sh) && ThreadInv(sh, t, th) && UpToDate(sh, th)
    requires th.pc.FNextLoad? || th.pc.FNextPub? || th.pc.FNextVer?
    ensures UpToDate(sh, LookStep(sh, th))
  {
    LinkedFacts(sh, t, th);
    hide SharedInv, ThreadInv;
  }

  lemma TestUpToDate(sh: Shared, t: nat, th: Thread)
    requires ThreadInv(sh, t, th) && UpToDate(sh, th) && (th.pc.FProbe? || th.pc.FMark?)
    ensures UpToDate(sh, TestStep(sh, th))
    ensures th.op.PopBack? ==> !TestStep(sh, th).pc.FStart?
  {
    hide Recorded, OwnInv, PrevInv, CurrInv, WantInv, PickInv;
  }

  /** Both nodes of the pair are in the list, next to each other. */
  lemma PairIsLinked(sh: Shared, t: nat, th: Thread)
    requires SharedInv(sh) && ThreadInv(sh, t, th) && UpToDate(sh, th) && HasPair(th.pc)
    ensures IsLinked(sh, th.prev) && th.prev != SENTINEL && !Marked(sh, th.prev) && WordOf(sh, th.prev).p == th.curr.p
    ensures IsLinked(sh, th.curr.p) && th.curr.p !in {NULL, HEAD, th.prev}
    ensures OnCurr(th.pc) ==> th.curr.p != SENTINEL
  {
    hide SharedInv, Shape, Recorded, OwnInv, NextInv, WantInv, PickInv, Guards;
    UnmarkedIsLinked(sh, t, th, th.kp, th.prev);
    SuccessorLinked(sh, th.prev) by { assert ChainInv(sh) by { JustChain(sh); } }
  }

  lemma JustChain(sh: Shared)
    requires SharedInv(sh)
    ensures ChainInv(sh)
  {
  }

  lemma MarkUpToDate(sh: Shared, t: nat, th: Thread)
    requires SharedInv(sh) && ThreadInv(sh, t, th) && UpToDate(sh, th) && (th.pc.MLoad? || th.pc.MCas? || th.pc.TCas?)
    ensures UpToDate(NextShared(sh, t, th), MarkStep(sh, th))
  {
    hide SharedInv, Recorded, OwnInv, NextInv, WantInv, PickInv, Position;
    PairIsLinked(sh, t, th);
  }

  lemma ChangeUpToDate(sh: Shared, t: nat, th: Thread)
    requires SharedInv(sh) && ThreadInv(sh, t, th) && UpToDate(sh, th)
    requires th.pc.IStore? || th.pc.ICas? || th.pc.FPurge? || th.pc.PurgeClear? || th.pc.PurgeGive? || th.pc.RLoad? || th.pc.RCas? || th.pc.Pick?
    ensures UpToDate(NextShared(sh, t, th), GoThread(sh, th))
  {
    hide Recorded, NextInv, WantInv, PickInv, Position, PositionAfter, ChainInv;
  }

  lemma StepIsUpToDate(sh: Shared, t: nat, th: Thread)
    requires SharedInv(sh) && ThreadInv(sh, t, th) && UpToDate(sh, th) && CanGo(th)
    ensures UpToDate(NextShared(sh, t, th), GoThread(sh, th))
  {
    hide SharedInv, ThreadInv, HeadStep, LookStep, TestStep, MarkStep, PurgeStep, RemoveStep, InsertStep;
    match th.pc
    case FStart | FHeadLoad | FHeadPub | FHeadVer =>
      HeadIsUnmarked(sh);
      HeadUpToDate(sh, t, th);
    case FNextLoad | FNextPub | FNextVer => LookUpToDate(sh, t, th);
    case FProbe | FMark => TestUpToDate(sh, t, th);
    case MLoad | MCas | TCas => MarkUpToDate(sh, t, th);
    case _ => ChangeUpToDate(sh, t, th);
  }

  lemma HeadIsUnmarked(sh: Shared)
    requires SharedInv(sh)
    ensures !Marked(sh, HEAD)
  {
  }

  // ---- no wanted element is passed ----

  lemma EmptyPrefix(sh: Shared)
    requires SharedInv(sh)
    ensures IsLinked(sh, HEAD) && Upto(sh, HEAD) == 1 && Elements(sh, sh.chain[..1]) == []
  {
    hide NodeInv;
    assert IsLinked(sh, HEAD) by { assert sh.chain[0] == HEAD; }
    var i := PlaceOf(sh, HEAD);
    assert sh.chain[..1] == [HEAD];
    OneElement(sh, HEAD);
  }

  /** What stands up to c is what stands up to p, and c. */
  lemma NextPrefix(sh: Shared, p: Ref, c: Ref)
    requires SharedInv(sh) && IsLinked(sh, p) && IsLinked(sh, c) && p != SENTINEL && WordOf(sh, p).p == c
    ensures Upto(sh, c) == Upto(sh, p) + 1 && Upto(sh, p) == IndexOf(sh.chain, c)
    ensures Elements(sh, sh.chain[..Upto(sh, c)]) ==
            Elements(sh, sh.chain[..Upto(sh, p)]) + if IsElement(sh, c) then [ValueAt(sh, c)] else []
    ensures c == SENTINEL ==> List(sh) == Elements(sh, sh.chain[..Upto(sh, p)])
  {
    hide NodeInv;
    var i := PlaceOf(sh, p);
    var j := PlaceOf(sh, c);
    assert j == i + 1;
    assert sh.chain[..j + 1] == sh.chain[..j] + [c];
    ElementsConcat(sh, sh.chain[..j], [c]);
    OneElement(sh, c);
    if c == SENTINEL { SentinelIsLast(sh, j); }
  }

  lemma SentinelIsLast(sh: Shared, j: nat)
    requires ChainInv(sh) && j < |sh.chain| && sh.chain[j] == SENTINEL
    ensures sh.chain[..j + 1] == sh.chain
  {
  }

  /** The search arrives at curr. */
  lemma ArrivesPassed(sh: Shared, th: Thread)
    requires SharedInv(sh) && IsLinked(sh, th.prev) && IsLinked(sh, th.curr.p) && th.prev != SENTINEL && WordOf(sh, th.prev).p == th.curr.p
    requires NoneWanted(Elements(sh, sh.chain[..Upto(sh, th.prev)]), th.want)
    ensures PassedNone(sh, AtCurr(th))
  {
    hide SharedInv, List, Elements, NoneWanted, Upto, WordOf, IsElement, AtEnd;
    if th.curr.p == SENTINEL {
      NextPrefix(sh, th.prev, th.curr.p);
      EndKeeps(th);
    }
  }

  lemma EndKeeps(th: Thread)
    ensures var e := AtEnd(th);
            && e.op == th.op && e.want == th.want && e.prev == th.prev && e.curr == th.curr
            && (Selects(th.op) ==> e.lin == th.lin && (e.pc.Fin? || e.pc.IStore?))
            && (th.op.InsertIf? ==> e.pc.IStore?)
  {
  }

  lemma HeadPassed(sh: Shared, t: nat, th: Thread)
    requires SharedInv(sh) && ThreadInv(sh, t, th) && UpToDate(sh, th)
    requires th.pc.FStart? || th.pc.FHeadLoad? || th.pc.FHeadPub? || th.pc.FHeadVer?
    ensures PassedNone(sh, HeadStep(sh, th))
  {
    hide SharedInv, Recorded, OwnInv, PrevInv, CurrInv, NextInv, WantInv, PickInv, Elements, Upto, List, AtCurr;
    if th.pc.FHeadVer? {
      EmptyPrefix(sh);
      LinkedFacts(sh, t, th);
      ArrivesPassed(sh, th);
    }
  }

  lemma LookPassed(sh: Shared, t: nat, th: Thread)
    requires SharedInv(sh) && ThreadInv(sh, t, th) && UpToDate(sh, th) && PassedNone(sh, th)
    requires th.pc.FNextLoad? || th.pc.FNextPub? || th.pc.FNextVer?
    ensures PassedNone(sh, LookStep(sh, th))
  {
    hide SharedInv, ThreadInv, Elements, Upto, List, NoneWanted;
    LinkedFacts(sh, t, th);
  }

  lemma AdvancePassed(sh: Shared, t: nat, th: Thread)
    requires SharedInv(sh) && ThreadInv(sh, t, th) && UpToDate(sh, th) && PassedNone(sh, th) && th.pc.FProbe?
    requires Selects(th.op) && !Hit(sh, th)
    ensures PassedNone(sh, Advance(th))
  {
    hide SharedInv, ThreadInv, Elements, Upto, List, AtCurr;
    PairIsLinked(sh, t, th);
    NextPrefix(sh, th.prev, th.curr.p);
    LinkedFacts(sh, t, th);
    ArrivesPassed(sh, th.(prev := th.curr.p, curr := th.nx, nx := Word(th.prev, false), kp := th.kc, kc := th.kn, kn := th.kp));
  }

  lemma TestPassed(sh: Shared, t: nat, th: Thread)
    requires SharedInv(sh) && ThreadInv(sh, t, th) && UpToDate(sh, th) && PassedNone(sh, th) && (th.pc.FProbe? || th.pc.FMark?)
    ensures PassedNone(sh, TestStep(sh, th))
  {
    hide SharedInv, ThreadInv, Elements, Upto, List, NoneWanted, Hit;
    if Selects(th.op) && th.pc.FProbe? && !Hit(sh, th) { AdvancePassed(sh, t, th); }
    NotSelecting(th);
  }

  lemma NotSelecting(th: Thread)
    ensures !Selects(th.op) ==> !Selects(Advance(th).op) && !Selects(AtNode(th).op)
    ensures !AtNode(th).pc.Fin?
  {
  }

  lemma PrefixKept(sh: Shared, e: Effect, k: nat)
    requires SharedInv(sh) && EffectOk(sh, e) && e.WriteWord? && k <= |sh.chain|
    ensures Apply(sh, e).chain == sh.chain && Elements(Apply(sh, e), sh.chain[..k]) == Elements(sh, sh.chain[..k])
    ensures List(Apply(sh, e)) == List(sh)
  {
    ElementsFrame(sh, Apply(sh, e), sh.chain[..k]);
    ElementsFrame(sh, Apply(sh, e), sh.chain);
  }

  lemma StorePassed(sh: Shared, t: nat, th: Thread)
    requires SharedInv(sh) && ThreadInv(sh, t, th) && PassedNone(sh, th) && th.pc.IStore?
    ensures PassedNone(NextShared(sh, t, th), InsertStep(sh, th))
  {
    GoIsOk(sh, t, th);
    PrefixKept(sh, GoEffect(sh, t, th), Upto(sh, th.prev));
    hide SharedInv, ThreadInv, Elements, NoneWanted;
  }

  lemma MarkPassed(sh: Shared, t: nat, th: Thread)
    requires Shape(th) && UpToDate(sh, th) && PassedNone(sh, th) && (th.pc.MLoad? || th.pc.MCas? || th.pc.TCas?)
    ensures PassedNone(NextShared(sh, t, th), MarkStep(sh, th))
  {
    hide Elements, NoneWanted, Position, Upto;
  }

  lemma ChangePassed(sh: Shared, t: nat, th: Thread)
    requires Shape(th) && Recorded(th) && UpToDate(sh, th) && PassedNone(sh, th)
    requires th.pc.ICas? || th.pc.FPurge? || th.pc.PurgeClear? || th.pc.PurgeGive? || th.pc.RLoad? || th.pc.RCas? || th.pc.Pick?
    ensures PassedNone(NextShared(sh, t, th), GoThread(sh, th))
  {
    hide Elements, NoneWanted, Position, PositionAfter, Upto;
  }

  lemma StepPassesNone(sh: Shared, t: nat, th: Thread)
    requires SharedInv(sh) && ThreadInv(sh, t, th) && UpToDate(sh, th) && PassedNone(sh, th) && CanGo(th)
    ensures PassedNone(NextShared(sh, t, th), GoThread(sh, th))
  {
    hide SharedInv, HeadStep, LookStep, TestStep, MarkStep, PurgeStep, RemoveStep, InsertStep, PassedNone, Recorded, Shape, OwnInv, PrevInv, CurrInv, NextInv, WantInv, PickInv;
    match th.pc
    case FStart | FHeadLoad | FHeadPub | FHeadVer => HeadPassed(sh, t, th);
    case FNextLoad | FNextPub | FNextVer => LookPassed(sh, t, th);
    case FProbe | FMark => TestPassed(sh, t, th);
    case IStore => StorePassed(sh, t, th);
    case MLoad | MCas | TCas => MarkPassed(sh, t, th);
    case _ => ChangePassed(sh, t, th);
  }

  // ---- where the call acts ----

  /** The elements up to p are the first ones of the list. */
  lemma PrefixOfList(sh: Shared, p: Ref, c: Ref)
    requires SharedInv(sh) && IsLinked(sh, p) && IsLinked(sh, c) && p != SENTINEL && WordOf(sh, p).p == c
    ensures var k := PositionAfter(sh, p);
            && k <= |List(sh)| && List(sh)[..k] == Elements(sh, sh.chain[..Upto(sh, p)])
            && Position(sh, c) == k
            && (IsElement(sh, c) ==> k < |List(sh)| && List(sh)[k] == ValueAt(sh, c))
            && (c == SENTINEL ==> k == |List(sh)|)
  {
    hide SharedInv, Elements, IndexOf, List, IsElement;
    NextPrefix(sh, p, c);
    PrefixIs(sh, Upto(sh, p));
    PrefixIs(sh, Upto(sh, c));
  }

  lemma PrefixIs(sh: Shared, k: nat)
    requires k <= |sh.chain|
    ensures var e := Elements(sh, sh.chain[..k]); |e| <= |List(sh)| && List(sh)[..|e|] == e
  {
    assert sh.chain == sh.chain[..k] + sh.chain[k..];
    ElementsConcat(sh, sh.chain[..k], sh.chain[k..]);
  }

  lemma InsertPlace(sh: Shared, t: nat, th: Thread)
    requires SharedInv(sh) && ThreadInv(sh, t, th) && UpToDate(sh, th) && PassedNone(sh, th) && th.pc.ICas?
    ensures RightPlace(th.op, th.want, List(sh), Inserted(PositionAfter(sh, th.prev), th.v))
  {
    hide SharedInv, Elements, List, Upto, PositionAfter, Position, Guards;
    PairIsLinked(sh, t, th);
    PrefixOfList(sh, th.prev, th.curr.p);
    if th.op.PushFront? { EmptyPrefix(sh); }
    if th.op.InsertIf? {
      if th.curr.p != SENTINEL { ElementHasValue(sh, th.curr.p); }
      FirstWantedIs(List(sh), PositionAfter(sh, th.prev), th.want);
    }
  }

  lemma ElementHasValue(sh: Shared, n: Ref)
    requires SharedInv(sh) && IsLinked(sh, n) && IsElement(sh, n)
    ensures ValOf(sh, n).Some? && ValueAt(sh, n) == ValOf(sh, n).value
  {
    assert NodeOk(sh, n);
  }

  lemma MarkPlace(sh: Shared, t: nat, th: Thread)
    requires SharedInv(sh) && ThreadInv(sh, t, th) && UpToDate(sh, th) && PassedNone(sh, th) && (th.pc.MCas? || th.pc.TCas?)
    ensures var k, q := Position(sh, th.curr.p), List(sh);
            && k < |q| && q[k] == ValueAt(sh, th.curr.p) && RightPlace(th.op, th.want, q, Removed(k, q[k]))
  {
    hide SharedInv, Elements, List, Upto, PositionAfter, Position, Guards;
    PairIsLinked(sh, t, th);
    PrefixOfList(sh, th.prev, th.curr.p);
    ElementHasValue(sh, th.curr.p);
    if th.op.PopFront? { EmptyPrefix(sh); }
    if th.op.PopBack? { LastPosition(sh, th.curr.p); }
    if Selects(th.op) { FirstWantedIs(List(sh), Position(sh, th.curr.p), th.want); }
  }

  /** Alone, a call acts at the right place of the list. */
  lemma ActsRightly(sh: Shared, t: nat, th: Thread)
    requires SharedInv(sh) && ThreadInv(sh, t, th) && UpToDate(sh, th) && PassedNone(sh, th) && CanGo(th)
    requires EventBy(sh, t, th).Some?
    ensures RightPlace(th.op, th.want, List(sh), EventBy(sh, t, th).value)
  {
    hide SharedInv, Elements, List, Upto, PositionAfter, Position, PassedNone, RightPlace, OwnInv, PrevInv, CurrInv, NextInv, WantInv, PickInv;
    EventsBy(sh, t, th);
    match th.pc
    case ICas =>
      InsertPlace(sh, t, th);
      OwnValue(sh, t, th);
    case MCas | TCas => MarkPlace(sh, t, th);
    case _ => SawEmptyRightly(sh, th);
  }

  lemma OwnValue(sh: Shared, t: nat, th: Thread)
    requires OwnInv(sh, t, th) && th.own != NULL
    ensures ValueAt(sh, th.own) == th.v
  {
  }

  lemma SawEmptyRightly(sh: Shared, th: Thread)
    requires SharedInv(sh) && th.pc.FHeadVer? && Recorded(th) && GoThread(sh, th).lin == Some(SawEmpty)
    ensures RightPlace(th.op, th.want, List(sh), SawEmpty)
  {
    SawEmptyAtHead(sh, th);
    HeadAtSentinel(sh);
  }

  lemma EventsBy(sh: Shared, t: nat, th: Thread)
    requires Shape(th) && Recorded(th) && CanGo(th) && EventBy(sh, t, th).Some?
    ensures match th.pc
            case ICas => EventBy(sh, t, th) == Some(Inserted(PositionAfter(sh, th.prev), ValueAt(sh, th.own)))
            case MCas => EventBy(sh, t, th) == Some(Removed(Position(sh, th.curr.p), ValueAt(sh, th.curr.p)))
            case TCas => EventBy(sh, t, th) == Some(Removed(Position(sh, th.curr.p), ValueAt(sh, th.curr.p)))
            case FHeadVer => EventBy(sh, t, th) == Some(SawEmpty) && GoThread(sh, th).lin == Some(SawEmpty)
            case _ => false
  {
    hide Position, PositionAfter, ValueAt;
  }

  lemma RemoveAllOutcome(sh: Shared, sh2: Shared, th: Thread, e: Option<Event>, q: seq<Value>)
    requires th.op.RemoveAll? && Outcome(sh, th, q) && Matches(sh, sh2, e)
    requires e.Some? ==> e.value.Removed? && e.value.v in th.want
    ensures Outside(List(sh2), th.want) == Outside(q, th.want)
    ensures |List(sh2)| == |List(sh)| - (if e.Some? then 1 else 0)
  {
    if e.Some? { OutsideKept(List(sh), e.value.k, th.want); }
  }

  lemma RemoveAllEvents(sh: Shared, t: nat, th: Thread)
    requires SharedInv(sh) && ThreadInv(sh, t, th) && CanGo(th) && th.op.RemoveAll?
    ensures EventBy(sh, t, th).Some? <==> GoEffect(sh, t, th).SetMark?
    ensures EventBy(sh, t, th).Some? ==> EventBy(sh, t, th).value.Removed? && EventBy(sh, t, th).value.v in th.want
  {
    hide SharedInv, PositionAfter, Position, OwnInv, PrevInv, NextInv, PickInv;
    if GoEffect(sh, t, th).SetMark? {
      UnmarkedIsLinked(sh, t, th, th.kc, th.curr.p);
      ElementHasValue(sh, th.curr.p);
    }
  }

  lemma StepKeepsOutcome(sh: Shared, t: nat, th: Thread, q: seq<Value>)
    requires Solo(sh, t, th, q) && CanGo(th)
    ensures Outcome(NextShared(sh, t, th), GoThread(sh, th), q)
  {
    hide SharedInv, ThreadInv, UpToDate, PassedNone, GoThread, GoEffect, EventBy, Apply, RightPlace, List, CanGo;
    GoMatches(sh, t, th);
    KeepsOp(sh, th);
    KeepsWant(sh, th);
    if th.op.RemoveAll? {
      RemoveAllEvents(sh, t, th);
      RemoveAllOutcome(sh, NextShared(sh, t, th), th, EventBy(sh, t, th), q);
      CountsItsMarks(sh, t, th);
    } else {
      RecordsItsEvent(sh, t, th);
      if EventBy(sh, t, th).Some? { ActsRightly(sh, t, th); }
    }
  }

  // ---- how much is left to do ----

  /** Nodes that can still be unlinked and elements that can still be removed. */
  function Work(sh: Shared, th: Thread): nat {
    if th.lin.Some? then 0 else |sh.chain| + |List(sh)|
  }

  /** Nodes that the search has still to look at. */
  function Ahead(sh: Shared, th: Thread): nat {
    match th.pc
    case FStart | FHeadLoad | FHeadPub | FHeadVer | PurgeClear | PurgeGive => |sh.chain| + 1
    case FNextLoad | FNextPub | FNextVer | FPurge | FProbe | FMark => |sh.chain| + 1 - IndexOf(sh.chain, th.curr.p)
    case _ => 0
  }

  /** Instructions until the next node. */
  function PcRank(pc: Pc): nat {
    match pc
    case PurgeClear => 7 case PurgeGive => 6 case FStart => 5 case FHeadLoad => 4 case FHeadPub => 3 case FHeadVer => 2
    case FNextLoad => 4 case FNextPub => 3 case FNextVer => 2 case FPurge => 1 case FProbe => 1 case FMark => 0
    case IStore => 2 case ICas => 1 case MLoad => 2 case MCas => 1 case TCas => 1
    case RLoad => 2 case RCas => 1 case Pick => 1
    case _ => 0
  }

  predicate Closer(sh: Shared, th: Thread, sh2: Shared, th2: Thread) {
    || Work(sh2, th2) < Work(sh, th)
    || (Work(sh2, th2) == Work(sh, th) && Ahead(sh2, th2) < Ahead(sh, th))
    || (Work(sh2, th2) == Work(sh, th) && Ahead(sh2, th2) == Ahead(sh, th) && PcRank(th2.pc) < PcRank(th.pc))
  }

  /** The search goes on, or it ends at curr. */
  lemma ArrivesCloser(sh: Shared, th: Thread, before: Thread)
    requires th.lin == before.lin == None && |sh.chain| > 0
    requires th.curr.p != SENTINEL ==> |sh.chain| + 1 - IndexOf(sh.chain, th.curr.p) < Ahead(sh, before)
    requires Ahead(sh, before) > 0 && (th.curr.p == SENTINEL && (th.op.PopBack? || th.op.PopFront?) ==> th.prev == HEAD)
    ensures Closer(sh, before, sh, AtCurr(th))
  {
    hide List, IndexOf;
  }

  lemma HeadCloser(sh: Shared, t: nat, th: Thread)
    requires SharedInv(sh) && ThreadInv(sh, t, th) && UpToDate(sh, th)
    requires th.pc.FStart? || th.pc.FHeadLoad? || th.pc.FHeadPub? || th.pc.FHeadVer?
    ensures Closer(sh, th, sh, HeadStep(sh, th))
  {
    hide SharedInv, OwnInv, PrevInv, CurrInv, NextInv, WantInv, PickInv, List, IndexOf, AtCurr;
    if th.pc.FHeadVer? {
      EmptyPrefix(sh);
      LinkedFacts(sh, t, th);
      NextPrefix(sh, HEAD, th.curr.p);
      ArrivesCloser(sh, th, th);
    }
  }

  lemma LookCloser(sh: Shared, t: nat, th: Thread)
    requires SharedInv(sh) && ThreadInv(sh, t, th) && UpToDate(sh, th)
    requires th.pc.FNextLoad? || th.pc.FNextPub? || th.pc.FNextVer?
    ensures Closer(sh, th, sh, LookStep(sh, th))
  {
    hide SharedInv, ThreadInv, List, IndexOf;
    LinkedFacts(sh, t, th);
  }

  lemma TestCloser(sh: Shared, t: nat, th: Thread)
    requires SharedInv(sh) && ThreadInv(sh, t, th) && UpToDate(sh, th) && (th.pc.FProbe? || th.pc.FMark?)
    ensures Closer(sh, th, sh, TestStep(sh, th))
  {
    hide SharedInv, OwnInv, PrevInv, CurrInv, NextInv, WantInv, PickInv, List, IndexOf, AtCurr;
    PairIsLinked(sh, t, th);
    NextPrefix(sh, th.prev, th.curr.p);
    LinkedFacts(sh, t, th);
    NextPrefix(sh, th.curr.p, th.nx.p);
    var k := PlaceOf(sh, th.nx.p) by { JustChain(sh); }
    if th.pc.FProbe? && !Hit(sh, th) {
      ArrivesCloser(sh, th.(prev := th.curr.p, curr := th.nx, nx := Word(th.prev, false), kp := th.kc, kc := th.kn, kn := th.kp), th);
    }
  }

  lemma UnlinkCloser(sh: Shared, t: nat, th: Thread)
    requires SharedInv(sh) && ThreadInv(sh, t, th) && UpToDate(sh, th) && (th.pc.FPurge? || th.pc.RCas?)
    ensures Closer(sh, th, NextShared(sh, t, th), PurgeStep(sh, th.(pc := FPurge)))
    ensures GoThread(sh, th) == PurgeStep(sh, th.(pc := FPurge))
  {
    hide SharedInv, NextInv, WantInv, PickInv, PrevInv, OwnInv, List, IndexOf;
    PairIsLinked(sh, t, th);
    GoIsOk(sh, t, th);
    UnlinkKeepsList(sh, th.prev, th.curr.p, t);
    var k := PlaceOf(sh, th.curr.p) by { JustChain(sh); }
  }

  /** A mark ends the call, or leaves one element less to remove. */
  lemma MarkCloser(sh: Shared, t: nat, th: Thread)
    requires SharedInv(sh) && ThreadInv(sh, t, th) && UpToDate(sh, th) && (th.pc.MLoad? || th.pc.MCas? || th.pc.TCas?)
    ensures Closer(sh, th, NextShared(sh, t, th), MarkStep(sh, th))
  {
    hide SharedInv, NextInv, WantInv, PickInv, PrevInv, OwnInv, List, IndexOf, Position;
    PairIsLinked(sh, t, th);
    if !th.pc.MLoad? {
      GoIsOk(sh, t, th);
      MarkRemoves(sh, th.curr.p);
    }
  }

  lemma InsertCloser(sh: Shared, t: nat, th: Thread)
    requires SharedInv(sh) && ThreadInv(sh, t, th) && UpToDate(sh, th) && th.pc.ICas?
    ensures Closer(sh, th, NextShared(sh, t, th), InsertStep(sh, th))
  {
    hide SharedInv, Elements, IndexOf, PositionAfter, OwnInv, PrevInv, CurrInv, NextInv, WantInv, PickInv;
    EmptyPrefix(sh);
  }

  lemma RestCloser(sh: Shared, t: nat, th: Thread)
    requires SharedInv(sh) && ThreadInv(sh, t, th) && UpToDate(sh, th)
    requires th.pc.IStore? || th.pc.PurgeClear? || th.pc.PurgeGive? || th.pc.RLoad? || th.pc.Pick?
    ensures Closer(sh, th, NextShared(sh, t, th), GoThread(sh, th))
  {
    hide SharedInv, NextInv, WantInv, PickInv, PrevInv, CurrInv, OwnInv, List, IndexOf, EffectOk;
    GoIsOk(sh, t, th);
    OtherKeepsList(sh, GoEffect(sh, t, th));
  }

  lemma StepIsCloser(sh: Shared, t: nat, th: Thread)
    requires SharedInv(sh) && ThreadInv(sh, t, th) && UpToDate(sh, th) && CanGo(th)
    ensures Closer(sh, th, NextShared(sh, t, th), GoThread(sh, th))
  {
    hide SharedInv, ThreadInv, Closer, HeadStep, LookStep, TestStep, MarkStep, PurgeStep, RemoveStep, InsertStep;
    match th.pc
    case FStart | FHeadLoad | FHeadPub | FHeadVer => HeadCloser(sh, t, th);
    case FNextLoad | FNextPub | FNextVer => LookCloser(sh, t, th);
    case FProbe | FMark => TestCloser(sh, t, th);
    case FPurge | RCas => UnlinkCloser(sh, t, th);
    case MLoad | MCas | TCas => MarkCloser(sh, t, th);
    case ICas => InsertCloser(sh, t, th);
    case _ => RestCloser(sh, t, th);
  }

  /** One instruction of a call that runs alone. */
  lemma StepAlone(sh: Shared, t: nat, th: Thread, q: seq<Value>)
    requires Solo(sh, t, th, q) && CanGo(th)
    ensures Solo(NextShared(sh, t, th), t, GoThread(sh, th), q)
    ensures Closer(sh, th, NextShared(sh, t, th), GoThread(sh, th))
  {
    hide SharedInv, ThreadInv, UpToDate, PassedNone, Outcome, GoThread, GoEffect, Closer, Apply, EffectOk;
    GoIsOk(sh, t, th);
    EffectKeepsInv(sh, GoEffect(sh, t, th));
    GoKeepsThread(sh, t, th);
    StepIsUpToDate(sh, t, th);
    StepPassesNone(sh, t, th);
    StepKeepsOutcome(sh, t, th, q);
    StepIsCloser(sh, t, th);
  }

  // ---- runs in which only one thread acts ----

  /** Only thread t acts, inside one call. */
  predicate OnlySteps(run: seq<Action>, t: nat) {
    forall i | 0 <= i < |run| :: run[i] == Go(t)
  }

  /** Only thread t has moved, and it is still in the same call. */
  ghost predicate SameCall(s: State, s2: State, t: nat) {
    && t < |s.threads| == |s2.threads| && GoesOn(s.threads[t], s2.threads[t]) && s2.threads[t].v == s.threads[t].v
    && forall u | 0 <= u < |s.threads| && u != t :: s2.threads[u] == s.threads[u]
  }

  lemma DoGo(s: State, t: nat)
    requires Enabled(s, Go(t))
    ensures var s2, th := Do(s, Go(t)), s.threads[t];
            s2.sh == NextShared(s.sh, t, th) && s2.threads == s.threads[t := GoThread(s.sh, th)]
  {
    hide GoThread, GoEffect, Apply, CanGo;
  }

  lemma SearchKeepsValue(sh: Shared, th: Thread)
    ensures HeadStep(sh, th).v == LookStep(sh, th).v == TestStep(sh, th).v == th.v
  {
    hide WordOf, Hit, Advance, AtCurr, AtEnd, AtNode;
    FoundKeepsValue(th);
    FoundKeepsValue(Publish(th, th.kc, SENTINEL).(curr := Word(SENTINEL, false)));
  }

  lemma FoundKeepsValue(th: Thread)
    ensures AtCurr(th).v == AtEnd(th).v == AtNode(th).v == Advance(th).v == th.v
  {
  }

  lemma ChangeKeepsValue(sh: Shared, th: Thread)
    ensures PurgeStep(sh, th).v == InsertStep(sh, th).v == MarkStep(sh, th).v == RemoveStep(sh, th).v == th.v
  {
    hide WordOf, ValOf, PositionAfter, Position, ValueAt;
  }

  lemma KeepsValue(sh: Shared, th: Thread)
    ensures GoThread(sh, th).v == th.v
  {
    hide HeadStep, LookStep, TestStep, PurgeStep, InsertStep, MarkStep, RemoveStep;
    SearchKeepsValue(sh, th);
    ChangeKeepsValue(sh, th);
  }

  lemma ActionAlone(s: State, t: nat, q: seq<Value>)
    requires Enabled(s, Go(t)) && Solo(s.sh, t, s.threads[t], q)
    ensures var s2 := Do(s, Go(t));
            && SameCall(s, s2, t) && Solo(s2.sh, t, s2.threads[t], q)
            && Closer(s.sh, s.threads[t], s2.sh, s2.threads[t])
  {
    hide Solo, GoThread, GoEffect, Apply, Do, Closer, NextShared;
    DoGo(s, t);
    StepAlone(s.sh, t, s.threads[t], q);
    KeepsOp(s.sh, s.threads[t]);
    KeepsWant(s.sh, s.threads[t]);
    KeepsValue(s.sh, s.threads[t]);
    NotIdleAfter(s.sh, s.threads[t]);
  }

  /** However far the call has come, its knowledge is good and nothing has happened to the
      other threads. */
  lemma {:induction false} RunAlone(s: State, run: seq<Action>, t: nat, q: seq<Value>)
    requires ValidRun(s, run) && OnlySteps(run, t) && t < |s.threads| && Solo(s.sh, t, s.threads[t], q) && !s.threads[t].pc.Idle?
    ensures var s2 := After(s, run); SameCall(s, s2, t) && Solo(s2.sh, t, s2.threads[t], q)
    decreases |run|
  {
    hide Solo, Do, Enabled;
    if run != [] {
      ActionAlone(s, t, q);
      RunAlone(Do(s, run[0]), run[1..], t, q);
    }
  }

  /** The call ends: there are instructions that lead to its end. */
  lemma {:induction false} CallEnds(s: State, t: nat, q: seq<Value>) returns (run: seq<Action>)
    requires t < |s.threads| && Solo(s.sh, t, s.threads[t], q) && !s.threads[t].pc.Idle?
    ensures ValidRun(s, run) && OnlySteps(run, t)
    ensures t < |After(s, run).threads| && After(s, run).threads[t].pc.Fin?
    decreases Work(s.sh, s.threads[t]), Ahead(s.sh, s.threads[t]), PcRank(s.threads[t].pc)
  {
    hide Solo, Do, Work, Ahead, PcRank;
    run := [];
    if !s.threads[t].pc.Fin? {
      ActionAlone(s, t, q);
      var rest := CallEnds(Do(s, Go(t)), t, q);
      run := [Go(t)] + rest;
      assert run[1..] == rest;
    }
  }

  // ---- what each call does ----

  /** th is at the end of a call on the list q, which is q2 now. */
  ghost predicate Answers(th: Thread, q: seq<Value>, q2: seq<Value>) {
    match th.op
    case PushFront => q2 == [th.v] + q
    case PushBack => q2 == q + [th.v]
    case InsertIf => q2 == InsertAt(q, FirstWanted(q, th.want), th.v)
    case PopFront => if q == [] then th.res == None && q2 == q else th.res == Some(q[0]) && q2 == q[1..]
    case PopBack => if q == [] then th.res == None && q2 == q else th.res == Some(q[|q| - 1]) && q2 == q[..|q| - 1]
    case RemoveOne =>
      var k := FirstWanted(q, th.want);
      if NoneWanted(q, th.want) then th.res == None && q2 == q
      else k < |q| && th.res == Some(q[k]) && q2 == RemoveAt(q, k)
    case RemoveAll => q2 == Outside(q, th.want) && th.ans == |q| - |q2|
  }

  lemma EndsWith(sh: Shared, t: nat, th: Thread, q: seq<Value>)
    requires Solo(sh, t, th, q) && th.pc.Fin?
    ensures Answers(th, q, List(sh))
  {
    hide SharedInv, Shape, OwnInv, PrevInv, CurrInv, NextInv, WantInv, PickInv, UpToDate, List, FirstWanted, Outside;
    if th.op.RemoveAll? { OutsideAll(List(sh), th.want); }
  }

  /** The state after the step that begins the call. */
  lemma CallBegins(s: State, a: Action)
    requires Inv(s) && Enabled(s, a) && (a.Call? || a.CallInsert?)
    ensures var s2 := Do(s, a);
            && Inv(s2) && Solo(s2.sh, a.t, s2.threads[a.t], List(s.sh)) && s2.threads == s.threads[a.t := s2.threads[a.t]]
            && s2.threads[a.t].pc.FStart? && s2.threads[a.t].op == a.op && s2.threads[a.t].want == a.want
            && (a.CallInsert? ==> s2.threads[a.t].v == a.v)
  {
    hide SharedInv, Shape, Recorded, OwnInv, PrevInv, CurrInv, NextInv, WantInv, PickInv, PickersDiffer, List;
    StepKeepsInv(s, a);
    StepRefines(s, a);
    assert ThreadInv(Do(s, a).sh, a.t, Do(s, a).threads[a.t]);
  }

  lemma FirstOf(s: State, a: Action, run: seq<Action>)
    requires Enabled(s, a)
    ensures ValidRun(s, [a] + run) <==> ValidRun(Do(s, a), run)
    ensures ValidRun(s, [a] + run) ==> After(s, [a] + run) == After(Do(s, a), run)
  {
    assert ([a] + run)[1..] == run;
  }

  /** A call that runs alone, from any state of any run, also when nodes wait to be unlinked:
      as long as it has not ended its next instruction can run, and when it has ended it has
      done to the elements what its operation says, and nothing else has happened. */
  lemma CallAlone(s: State, a: Action, run: seq<Action>)
    requires Inv(s) && (a.Call? || a.CallInsert?) && ValidRun(s, [a] + run) && OnlySteps(run, a.t)
    ensures var s2 := After(s, [a] + run);
            && a.t < |s.threads| == |s2.threads|
            && s2.threads[a.t].op == a.op && s2.threads[a.t].want == a.want && (a.CallInsert? ==> s2.threads[a.t].v == a.v)
            && (s2.threads[a.t].pc.Fin? ==> Answers(s2.threads[a.t], List(s.sh), List(s2.sh)))
            && (!s2.threads[a.t].pc.Fin? ==> Enabled(s2, Go(a.t)))
            && forall u | 0 <= u < |s.threads| && u != a.t :: s2.threads[u] == s.threads[u]
  {
    hide Inv, Solo, Do, Answers, List, After, Closer;
    assert ([a] + run)[0] == a;
    FirstOf(s, a, run);
    CallBegins(s, a);
    var s1 := Do(s, a);
    RunAlone(s1, run, a.t, List(s.sh));
    var s2 := After(s1, run);
    if s2.threads[a.t].pc.Fin? { EndsWith(s2.sh, a.t, s2.threads[a.t], List(s.sh)); }
  }

  /** Such a call ends. */
  lemma CallAloneEnds(s: State, a: Action) returns (run: seq<Action>)
    requires Inv(s) && Enabled(s, a) && (a.Call? || a.CallInsert?)
    ensures ValidRun(s, [a] + run) && OnlySteps(run, a.t)
    ensures var s2 := After(s, [a] + run);
            && a.t < |s2.threads| && s2.threads[a.t].pc.Fin? && s2.threads[a.t].op == a.op && s2.threads[a.t].want == a.want
            && Answers(s2.threads[a.t], List(s.sh), List(s2.sh))
  {
    hide Inv, Solo, Do, Answers, List, After, ValidRun;
    CallBegins(s, a);
    run := CallEnds(Do(s, a), a.t, List(s.sh));
    FirstOf(s, a, run);
    CallAlone(s, a, run);
  }
}
