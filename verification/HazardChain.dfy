/** The valid chain of hazard-pointer groups: the memory, reachability along the links,
    and what registering, marking and unlinking a group do to it.  A removed group keeps
    its link, so that a scan standing on it can go on.  The top pointer of the chain is
    modelled as the link word of a pseudo group TOP, which never carries a mark. */
module HazardChain {
  import opened MarkedLink
  import opened Reclaim

  const TOP: Ref := 1

  /** Chained(t): the group has been registered by thread t, its owner. */
  datatype Stage = Unborn | Private(t: nat) | Chained(t: nat)

  /** rank and clock are auxiliary: the order in which the groups were registered. */
  datatype Shared = Shared(word: map<Ref, Word>, stage: map<Ref, Stage>, rank: map<Ref, nat>, clock: nat)

  function WordOf(sh: Shared, n: Ref): Word { Get(sh.word, n, Word(NULL, false)) }
  function Next(sh: Shared, n: Ref): Ref { WordOf(sh, n).p }
  predicate Marked(sh: Shared, n: Ref) { WordOf(sh, n).mark }
  function StageOf(sh: Shared, n: Ref): Stage { Get(sh.stage, n, Unborn) }
  predicate IsChained(sh: Shared, n: Ref) { StageOf(sh, n).Chained? }
  function Rank(sh: Shared, n: Ref): nat { if n == TOP then sh.clock else Get(sh.rank, n, 0) }

  /** Following the links from a leads to b. */
  predicate Reach(sh: Shared, a: Ref, b: Ref)
    decreases Rank(sh, a)
  {
    a == b || (a != NULL && Rank(sh, Next(sh, a)) < Rank(sh, a) && Reach(sh, Next(sh, a), b))
  }

  datatype Effect =
    | Nothing
    | WriteWord(n: Ref, w: Word)      // store to a group that is not registered yet
    | Own(n: Ref, t: nat)             // new hazard_ptr_group
    | Push(n: Ref, t: nat)            // CAS on the top
    | SetMark(n: Ref)                 // CAS on the word of n
    | Unlink(p: Ref, c: Ref)          // CAS on the word of p

  function Apply(sh: Shared, e: Effect): Shared {
    match e
    case Nothing => sh
    case WriteWord(n, w) => sh.(word := sh.word[n := w])
    case Own(n, t) => sh.(stage := sh.stage[n := Private(t)])
    case Push(n, t) =>
      sh.(word := sh.word[TOP := Word(n, false)], stage := sh.stage[n := Chained(t)],
          rank := sh.rank[n := sh.clock], clock := sh.clock + 1)
    case SetMark(n) => sh.(word := sh.word[n := Word(Next(sh, n), true)])
    case Unlink(p, c) => sh.(word := sh.word[p := Word(Next(sh, c), false)])
  }

  predicate EffectOk(sh: Shared, e: Effect) {
    match e
    case Nothing => true
    case WriteWord(n, w) => StageOf(sh, n).Private?
    case Own(n, t) => n != NULL && n != TOP && StageOf(sh, n).Unborn?
    case Push(n, t) => StageOf(sh, n) == Private(t) && WordOf(sh, n) == WordOf(sh, TOP)
    case SetMark(n) => IsChained(sh, n) && !Marked(sh, n)
    case Unlink(p, c) => (p == TOP || IsChained(sh, p)) && WordOf(sh, p) == Word(c, false) && IsChained(sh, c) && Marked(sh, c)
  }

  // ---- the invariant ----

  /** A link leads to a group that was registered earlier, or nowhere. */
  predicate LinkOk(sh: Shared, n: Ref) {
    (n == TOP || IsChained(sh, n)) ==>
      && (Next(sh, n) == NULL || IsChained(sh, Next(sh, n)))
      && Rank(sh, Next(sh, n)) < Rank(sh, n) && Rank(sh, n) <= sh.clock
      && (n != TOP ==> Rank(sh, n) < sh.clock)
  }

  ghost predicate LinksInv(sh: Shared) {
    && (forall n {:trigger StageOf(sh, n)} :: LinkOk(sh, n))
    && LinkOk(sh, TOP) && Rank(sh, NULL) == 0
    && StageOf(sh, NULL).Unborn? && StageOf(sh, TOP).Unborn? && !Marked(sh, TOP)
  }

  /** A registered group is in the chain until it is marked. */
  ghost predicate ReachInv(sh: Shared) {
    forall n {:trigger StageOf(sh, n)} :: IsChained(sh, n) && !Marked(sh, n) ==> Reach(sh, TOP, n)
  }

  ghost predicate SharedInv(sh: Shared) {
    LinksInv(sh) && ReachInv(sh)
  }

  lemma LinkAt(sh: Shared, n: Ref)
    requires LinksInv(sh)
    ensures LinkOk(sh, n)
  {
    var s := StageOf(sh, n);
  }

  lemma EffectKeepsLink(sh: Shared, e: Effect, n: Ref)
    requires LinksInv(sh) && EffectOk(sh, e)
    ensures LinkOk(Apply(sh, e), n)
  {
    LinkAt(sh, n);
    if e.Push? {
      LinkAt(sh, TOP);
    } else if e.Unlink? {
      LinkAt(sh, e.p);
      LinkAt(sh, e.c);
    }
  }

  lemma EffectKeepsGround(sh: Shared, e: Effect)
    requires EffectOk(sh, e)
    requires Rank(sh, NULL) == 0 && StageOf(sh, NULL).Unborn? && StageOf(sh, TOP).Unborn? && !Marked(sh, TOP)
    ensures var s2 := Apply(sh, e);
            Rank(s2, NULL) == 0 && StageOf(s2, NULL).Unborn? && StageOf(s2, TOP).Unborn? && !Marked(s2, TOP)
  {
  }

  lemma EffectKeepsLinks(sh: Shared, e: Effect)
    requires LinksInv(sh) && EffectOk(sh, e)
    ensures LinksInv(Apply(sh, e))
  {
    var s2 := Apply(sh, e);
    forall n ensures LinkOk(s2, n) { EffectKeepsLink(sh, e, n); }
    EffectKeepsGround(sh, e);
  }

  // ---- reachability and the effects ----

  /** Links lead to earlier groups only. */
  lemma {:induction false} ReachRank(sh: Shared, a: Ref, b: Ref)
    requires Reach(sh, a, b)
    ensures Rank(sh, b) <= Rank(sh, a) && (a != b ==> Rank(sh, b) < Rank(sh, a))
    decreases Rank(sh, a)
  {
    if a != b { ReachRank(sh, Next(sh, a), b); }
  }

  /** Effects that change no link of a registered group change no path. */
  lemma {:induction false} ReachFrame(sh: Shared, e: Effect, a: Ref, b: Ref)
    requires LinksInv(sh) && EffectOk(sh, e) && !e.Unlink?
    requires a == NULL || IsChained(sh, a) || (a == TOP && !e.Push?)
    ensures Reach(Apply(sh, e), a, b) <==> Reach(sh, a, b)
    decreases Rank(sh, a)
  {
    if a != NULL {
      LinkAt(sh, a);
      ReachFrame(sh, e, Next(sh, a), b);
      if Next(sh, a) != NULL { LinkAt(sh, Next(sh, a)); }
    }
  }

  /** Registering a group puts it in front and leaves the rest of the chain. */
  lemma ReachPush(sh: Shared, n: Ref, t: nat, b: Ref)
    requires LinksInv(sh) && EffectOk(sh, Push(n, t))
    ensures Reach(Apply(sh, Push(n, t)), TOP, b) <==> b == n || Reach(sh, TOP, b)
  {
    var s2 := Apply(sh, Push(n, t));
    var below := Next(sh, TOP);
    LinkAt(sh, TOP);
    if below != NULL { LinkAt(sh, below); }
    ReachFrame(sh, Push(n, t), below, b);
    assert Reach(s2, TOP, b) <==> b == TOP || Reach(s2, n, b);
    assert Reach(s2, n, b) <==> b == n || Reach(s2, below, b);
  }

  /** Unlinking c takes no other group off a path. */
  lemma {:induction false} ReachUnlink(sh: Shared, p: Ref, c: Ref, a: Ref, b: Ref)
    requires LinksInv(sh) && EffectOk(sh, Unlink(p, c))
    requires a == NULL || a == TOP || IsChained(sh, a)
    ensures Reach(sh, a, b) && b != c ==> Reach(Apply(sh, Unlink(p, c)), a, b)
    ensures Reach(Apply(sh, Unlink(p, c)), a, b) ==> Reach(sh, a, b)
    decreases Rank(sh, a)
  {
    if a != NULL {
      LinkAt(sh, a);
      ReachUnlink(sh, p, c, Next(sh, a), b);
      if a == p {
        LinkAt(sh, c);
        ReachUnlink(sh, p, c, Next(sh, c), b);
      }
    }
  }

  /** After c has been unlinked behind p nothing that reaches p reaches c. */
  lemma {:induction false} UnlinkCuts(sh: Shared, p: Ref, c: Ref, a: Ref)
    requires LinksInv(sh) && EffectOk(sh, Unlink(p, c)) && Reach(sh, a, p)
    requires a == TOP || IsChained(sh, a)
    ensures !Reach(Apply(sh, Unlink(p, c)), a, c)
    decreases Rank(sh, a)
  {
    LinkAt(sh, p);
    LinkAt(sh, a);
    ReachRank(sh, a, p);
    if a == p {
      CutAt(sh, p, c);
    } else {
      hide LinksInv;
      assert Next(sh, a) != NULL && Reach(sh, Next(sh, a), p);
      UnlinkCuts(sh, p, c, Next(sh, a));
      assert Next(Apply(sh, Unlink(p, c)), a) == Next(sh, a);
    }
  }

  lemma CutAt(sh: Shared, p: Ref, c: Ref)
    requires LinksInv(sh) && EffectOk(sh, Unlink(p, c))
    ensures !Reach(Apply(sh, Unlink(p, c)), p, c)
  {
    var s2 := Apply(sh, Unlink(p, c));
    LinkAt(sh, p);
    LinkAt(sh, c);
    hide LinksInv;
    if Reach(s2, Next(sh, c), c) { ReachRank(s2, Next(sh, c), c); }
  }

  lemma EffectKeepsReach(sh: Shared, e: Effect, n: Ref)
    requires SharedInv(sh) && EffectOk(sh, e)
    ensures var s2 := Apply(sh, e); IsChained(s2, n) && !Marked(s2, n) ==> Reach(s2, TOP, n)
  {
    var s2 := Apply(sh, e);
    if IsChained(s2, n) && !Marked(s2, n) {
      assert IsChained(sh, n) || (e.Push? && e.n == n);
      match e
      case Push(m, t) => ReachPush(sh, m, t, n);
      case Unlink(p, c) =>
        LinkAt(sh, c);
        ReachUnlink(sh, p, c, TOP, n);
      case _ => ReachFrame(sh, e, TOP, n);
    }
  }

  lemma EffectKeepsInv(sh: Shared, e: Effect)
    requires SharedInv(sh) && EffectOk(sh, e)
    ensures SharedInv(Apply(sh, e))
  {
    EffectKeepsLinks(sh, e);
    var s2 := Apply(sh, e);
    forall n ensures IsChained(s2, n) && !Marked(s2, n) ==> Reach(s2, TOP, n) { EffectKeepsReach(sh, e, n); }
  }

  /** What a walker at a registered group may count on: the unmarked groups ahead of it
      stay ahead of it, at every step of anybody. */
  lemma AheadStable(sh: Shared, e: Effect, a: Ref, n: Ref)
    requires SharedInv(sh) && EffectOk(sh, e)
    requires a == NULL || a == TOP || IsChained(sh, a)
    requires IsChained(sh, n) && Reach(sh, a, n) && !Marked(Apply(sh, e), n)
    ensures Reach(Apply(sh, e), a, n)
  {
    match e
    case Push(m, t) => if a == TOP { ReachPush(sh, m, t, n); } else { ReachFrame(sh, e, a, n); }
    case Unlink(p, c) =>
      LinkAt(sh, c);
      ReachUnlink(sh, p, c, a, n);
    case _ => ReachFrame(sh, e, a, n);
  }

  /** A group that has left the chain does not come back. */
  lemma GoneStable(sh: Shared, e: Effect, n: Ref)
    requires SharedInv(sh) && EffectOk(sh, e) && IsChained(sh, n) && !Reach(sh, TOP, n)
    ensures !Reach(Apply(sh, e), TOP, n)
  {
    match e
    case Push(m, t) => ReachPush(sh, m, t, n);
    case Unlink(p, c) => ReachUnlink(sh, p, c, TOP, n);
    case _ => ReachFrame(sh, e, TOP, n);
  }

  /** While g is in the chain, a walker that has it ahead keeps it ahead; the step that
      unlinks g takes it out of the chain for everybody who starts at the top. */
  lemma SearchStable(sh: Shared, e: Effect, a: Ref, g: Ref)
    requires SharedInv(sh) && EffectOk(sh, e) && IsChained(sh, g)
    requires a == NULL || a == TOP || IsChained(sh, a)
    requires Reach(sh, TOP, g) ==> Reach(sh, a, g)
    ensures Reach(Apply(sh, e), TOP, g) ==> Reach(Apply(sh, e), a, g)
  {
    match e
    case Push(m, t) =>
      ReachPush(sh, m, t, g);
      if a != TOP { ReachFrame(sh, e, a, g); }
    case Unlink(p, c) =>
      ReachUnlink(sh, p, c, TOP, g);
      ReachUnlink(sh, p, c, a, g);
      if c == g {
        assert Reach(sh, TOP, p);
        UnlinkCuts(sh, p, c, TOP);
      }
    case _ =>
      ReachFrame(sh, e, TOP, g);
      ReachFrame(sh, e, a, g);
  }
}
