/** What every run of the thread-local storage keeps: a cell is destroyed exactly once,
    with its current value, before its key or its head can be reused. */
module TlsProof {
  import opened Reclaim
  import opened TlsModel

  predicate IsClear(sh: Shared, h: nat, k: nat) { CellOf(sh, h, k).st.Uninitialized? }

  /** A cell holds something only for a key that is allocated, in a head that is owned,
      and for the current allocation of the key. */
  predicate CellOk(sh: Shared, h: nat, k: nat) {
    !IsClear(sh, h, k) ==>
      !KeyOf(sh, k).st.NOT_USED? && HeadInUse(sh, h) && CellOf(sh, h, k).gen == KeyOf(sh, k).gen
  }

  ghost predicate CellsInv(sh: Shared) {
    forall h: nat, k: nat {:trigger CellOf(sh, h, k)} :: CellOk(sh, h, k)
  }

  ghost predicate LiveInv(sh: Shared) {
    forall k | k in sh.live :: KeyOf(sh, k).st.USED?
  }

  ghost predicate AllClear(sh: Shared, k: nat) {
    forall h: nat {:trigger CellOf(sh, h, k)} :: IsClear(sh, h, k)
  }

  ghost predicate ClearFrom(sh: Shared, k: nat, pos: nat) {
    forall h: nat {:trigger CellOf(sh, h, k)} | h >= pos :: IsClear(sh, h, k)
  }

  ghost predicate ClearBut(sh: Shared, h: nat, todo: set<nat>) {
    forall k: nat {:trigger CellOf(sh, h, k)} | k !in todo :: IsClear(sh, h, k)
  }

  predicate Locked(pc: Pc) {
    || pc.RClaim? || pc.RTop? || pc.RHead? || pc.RCas? || pc.RCall? || pc.RClear? || pc.RDone? || pc.RUnlock?
    || pc.ENext? || pc.ECas? || pc.ECall? || pc.EClear? || pc.EUnlock?
  }

  predicate Allocating(pc: Pc) { pc.KAlloc? || pc.KDealloc? || pc.KReturn? }
  predicate UsingPc(pc: Pc) { pc.GLoad? || pc.GCall? || pc.GStore? || pc.SLoad? || pc.SStat? || pc.SData? }
  predicate Walking(pc: Pc) { pc.RHead? || pc.RCas? || pc.RCall? || pc.RClear? }
  predicate Releasing(pc: Pc) { pc.RTop? || Walking(pc) || pc.RDone? }
  predicate Exiting(pc: Pc) { pc.ENext? || pc.ECas? || pc.ECall? || pc.EClear? }
  predicate AtCell(pc: Pc) { pc.RCall? || pc.RClear? || pc.ECall? || pc.EClear? }

  /** The thread alone decides about its key. */
  predicate InCharge(pc: Pc) { Allocating(pc) || pc.RLock? || pc.RClaim? || Releasing(pc) }

  ghost predicate UserInv(sh: Shared, th: Thread) {
    && !th.pc.Error?
    && (th.head.Some? ==> HeadInUse(sh, th.head.value))
    && (UsingPc(th.pc) ==> th.head.Some? && th.k in sh.live && !CellOf(sh, OwnHead(th), th.k).st.Destructing?)
    && (th.pc.GCall? || th.pc.GStore? ==> IsClear(sh, OwnHead(th), th.k))
    && (th.pc.GStore? && KeyOf(sh, th.k).alloc ==> CellOf(sh, OwnHead(th), th.k).data == th.v)
    && (th.pc.SData? ==> CellOf(sh, OwnHead(th), th.k).st.InUse?)
    && (th.pc.ELock? ==> th.head.Some?)
  }

  ghost predicate KeyInv(sh: Shared, th: Thread) {
    && (InCharge(th.pc) ==> th.k !in sh.live)
    && (Allocating(th.pc) ==> KeyOf(sh, th.k).st.USED? && AllClear(sh, th.k))
    && (th.pc.RLock? || th.pc.RClaim? ==> KeyOf(sh, th.k).st.USED?)
    && (Releasing(th.pc) ==> KeyOf(sh, th.k).st.RELEASING?)
    && (th.pc.RHead? ==> ClearFrom(sh, th.k, th.pos))
    && (Walking(th.pc) && !th.pc.RHead? ==> ClearFrom(sh, th.k, th.h + 1))
    && (th.pc.RDone? ==> AllClear(sh, th.k))
  }

  ghost predicate ExitInv(sh: Shared, th: Thread) {
    && (Exiting(th.pc) ==> th.head == Some(th.h) && ClearBut(sh, th.h, th.todo))
    && (Exiting(th.pc) && !th.pc.ENext? ==> th.k in th.todo)
    && (AtCell(th.pc) ==> CellOf(sh, th.h, th.k).st.Destructing?)
  }

  ghost predicate ThreadInv(sh: Shared, t: nat, th: Thread) {
    (Locked(th.pc) <==> sh.lock == Some(t)) && UserInv(sh, th) && KeyInv(sh, th) && ExitInv(sh, th)
  }

  /** No two threads share a head or are in charge of one key. */
  predicate Apart(a: Thread, b: Thread) {
    && (a.head.Some? && b.head.Some? ==> a.head != b.head)
    && (InCharge(a.pc) && InCharge(b.pc) ==> a.k != b.k)
  }

  ghost predicate ThreadsInv(s: State) {
    && (forall t | 0 <= t < |s.threads| :: ThreadInv(s.sh, t, s.threads[t]))
    && (forall t, u | 0 <= t < u < |s.threads| :: Apart(s.threads[t], s.threads[u]))
  }

  /** The lock holder is the one who releases a key or destroys a cell. */
  ghost predicate HolderInv(s: State) {
    && (s.sh.lock.Some? ==> s.sh.lock.value < |s.threads|)
    && (forall k: nat {:trigger KeyOf(s.sh, k)} | KeyOf(s.sh, k).st.RELEASING? ::
          s.sh.lock.Some? && s.threads[s.sh.lock.value].k == k && Releasing(s.threads[s.sh.lock.value].pc))
    && (forall h: nat, k: nat {:trigger CellOf(s.sh, h, k)} | CellOf(s.sh, h, k).st.Destructing? ::
          && s.sh.lock.Some? && s.threads[s.sh.lock.value].h == h && s.threads[s.sh.lock.value].k == k
          && AtCell(s.threads[s.sh.lock.value].pc))
  }

  ghost predicate Inv(s: State) {
    CellsInv(s.sh) && LiveInv(s.sh) && ThreadsInv(s) && HolderInv(s)
  }

  // ---- the effects ----

  ghost predicate EffectOk(sh: Shared, e: Effect) {
    match e
    case Nothing => true
    case SetCell(h, k, c) =>
      !c.st.Uninitialized? ==> !KeyOf(sh, k).st.NOT_USED? && HeadInUse(sh, h) && c.gen == KeyOf(sh, k).gen
    case SetKey(k, key) =>
      && (k in sh.live ==> key.st.USED?)
      && (AllClear(sh, k) || (key.gen == KeyOf(sh, k).gen && !key.st.NOT_USED?))
    case SetHead(h, used) => h <= |sh.heads| && (used || ClearBut(sh, h, {}))
    case SetLock(holder) => true
    case SetLive(k, alive) => alive ==> KeyOf(sh, k).st.USED?
  }

  lemma EffectKeepsCells(sh: Shared, e: Effect)
    requires CellsInv(sh) && EffectOk(sh, e)
    ensures CellsInv(Apply(sh, e))
  {
    forall h: nat, k: nat ensures CellOk(Apply(sh, e), h, k) {
      assert CellOk(sh, h, k);
    }
  }

  lemma EffectKeepsLive(sh: Shared, e: Effect)
    requires LiveInv(sh) && EffectOk(sh, e)
    ensures LiveInv(Apply(sh, e))
  {
  }

  /** The effect does not meddle with what thread u, whose registers are th, relies on. */
  predicate Foreign(sh: Shared, e: Effect, u: nat, th: Thread) {
    match e
    case Nothing => true
    case SetCell(h, k, c) =>
      && !(UsingPc(th.pc) && OwnHead(th) == h && th.k == k)
      && (Allocating(th.pc) || Releasing(th.pc) ==> th.k != k || (c.st.Uninitialized? && !Releasing(th.pc)))
      && (Exiting(th.pc) ==> th.h != h)
    case SetKey(k, key) => InCharge(th.pc) || UsingPc(th.pc) ==> th.k != k
    case SetHead(h, used) => th.head == Some(h) ==> used
    case SetLock(holder) => !Locked(th.pc) && holder != Some(u)
    case SetLive(k, alive) => if alive then InCharge(th.pc) ==> th.k != k else !Using(th, k)
  }

  lemma UserStable(sh: Shared, e: Effect, u: nat, th: Thread)
    requires EffectOk(sh, e) && Foreign(sh, e, u, th) && UserInv(sh, th)
    ensures UserInv(Apply(sh, e), th)
  {
  }

  lemma CellAfter(sh: Shared, e: Effect, h: nat, k: nat)
    ensures CellOf(Apply(sh, e), h, k) == if e.SetCell? && e.h == h && e.k == k then e.c else CellOf(sh, h, k)
  {
  }

  lemma KeyAfter(sh: Shared, e: Effect, k: nat)
    ensures KeyOf(Apply(sh, e), k) == if e.SetKey? && e.k == k then e.key else KeyOf(sh, k)
  {
  }

  lemma ClearFromStable(sh: Shared, e: Effect, k: nat, pos: nat)
    requires ClearFrom(sh, k, pos) && (e.SetCell? ==> e.k != k || e.h < pos || e.c.st.Uninitialized?)
    ensures ClearFrom(Apply(sh, e), k, pos)
  {
    forall h: nat | h >= pos ensures IsClear(Apply(sh, e), h, k) { CellAfter(sh, e, h, k); }
  }

  lemma AllClearStable(sh: Shared, e: Effect, k: nat)
    requires AllClear(sh, k) && (e.SetCell? ==> e.k != k || e.c.st.Uninitialized?)
    ensures AllClear(Apply(sh, e), k)
  {
    forall h: nat ensures IsClear(Apply(sh, e), h, k) { CellAfter(sh, e, h, k); }
  }

  lemma ClearButStable(sh: Shared, e: Effect, h: nat, todo: set<nat>)
    requires ClearBut(sh, h, todo) && (e.SetCell? ==> e.h != h || e.k in todo || e.c.st.Uninitialized?)
    ensures ClearBut(Apply(sh, e), h, todo)
  {
    forall k: nat | k !in todo ensures IsClear(Apply(sh, e), h, k) { CellAfter(sh, e, h, k); }
  }

  lemma KeyStable(sh: Shared, e: Effect, u: nat, th: Thread)
    requires EffectOk(sh, e) && Foreign(sh, e, u, th) && KeyInv(sh, th)
    ensures KeyInv(Apply(sh, e), th)
  {
    if Allocating(th.pc) || th.pc.RDone? { AllClearStable(sh, e, th.k); }
    if Walking(th.pc) { ClearFromStable(sh, e, th.k, if th.pc.RHead? then th.pos else th.h + 1); }
  }

  lemma ExitStable(sh: Shared, e: Effect, u: nat, th: Thread)
    requires EffectOk(sh, e) && Foreign(sh, e, u, th) && ExitInv(sh, th)
    ensures ExitInv(Apply(sh, e), th)
  {
    if Exiting(th.pc) { ClearButStable(sh, e, th.h, th.todo); }
    CellAfter(sh, e, th.h, th.k);
  }

  lemma ThreadStable(sh: Shared, e: Effect, u: nat, th: Thread)
    requires EffectOk(sh, e) && Foreign(sh, e, u, th) && ThreadInv(sh, u, th)
    ensures ThreadInv(Apply(sh, e), u, th)
  {
    UserStable(sh, e, u, th);
    KeyStable(sh, e, u, th);
    ExitStable(sh, e, u, th);
  }

  // ---- a step of one thread ----

  lemma UserIsOk(s: State, t: nat, v: Value)
    requires Inv(s) && t < |s.threads| && IsUser(s.threads[t].pc)
    ensures EffectOk(s.sh, UserEffect(s.sh, s.threads[t], v))
  {
    assert ThreadInv(s.sh, t, s.threads[t]);
    assert CellOk(s.sh, OwnHead(s.threads[t]), s.threads[t].k);
  }

  lemma CellIsOk(s: State, t: nat)
    requires Inv(s) && t < |s.threads| && Destroying(s.threads[t].pc)
    ensures EffectOk(s.sh, CellEffect(s.sh, s.threads[t]))
  {
    assert CellOk(s.sh, s.threads[t].h, s.threads[t].k);
  }

  /** Leaving the exit loop, nothing is left in the head. */
  lemma LockedIsOk(s: State, t: nat, pick: nat)
    requires Inv(s) && t < |s.threads| && CanGo(s.sh, s.threads[t], pick)
    requires !IsUser(s.threads[t].pc) && !Destroying(s.threads[t].pc)
    ensures EffectOk(s.sh, LockedEffect(s.sh, t, s.threads[t]))
  {
    assert ThreadInv(s.sh, t, s.threads[t]);
  }

  lemma EffectIsOk(s: State, a: Action)
    requires Inv(s) && Enabled(s, a)
    ensures EffectOk(s.sh, EffectOf(s, a))
  {
    match a
    case Go(t, v, pick) =>
      if IsUser(s.threads[t].pc) { UserIsOk(s, t, v); }
      else if Destroying(s.threads[t].pc) { CellIsOk(s, t); }
      else { LockedIsOk(s, t, pick); }
    case CallAlloc(t, k, al, de) =>
      forall h: nat ensures IsClear(s.sh, h, k) { assert CellOk(s.sh, h, k); }
    case Attach(t, h) =>
    case _ =>
  }

  /** What thread t knows of thread u and the other way round. */
  lemma Pair(s: State, t: nat, u: nat)
    requires Inv(s) && t < |s.threads| && u < |s.threads| && t != u
    ensures Apart(s.threads[t], s.threads[u])
    ensures ThreadInv(s.sh, t, s.threads[t]) && ThreadInv(s.sh, u, s.threads[u])
    ensures !(Locked(s.threads[t].pc) && Locked(s.threads[u].pc))
  {
    if t < u { assert Apart(s.threads[t], s.threads[u]); } else { assert Apart(s.threads[u], s.threads[t]); }
  }

  lemma UserIsForeign(s: State, t: nat, v: Value, u: nat)
    requires Inv(s) && t < |s.threads| && u < |s.threads| && t != u && IsUser(s.threads[t].pc)
    ensures Foreign(s.sh, UserEffect(s.sh, s.threads[t], v), u, s.threads[u])
  {
    Pair(s, t, u);
  }

  lemma CellIsForeign(s: State, t: nat, u: nat)
    requires Inv(s) && t < |s.threads| && u < |s.threads| && t != u && Destroying(s.threads[t].pc)
    ensures Foreign(s.sh, CellEffect(s.sh, s.threads[t]), u, s.threads[u])
  {
    Pair(s, t, u);
  }

  lemma LockedIsForeign(s: State, t: nat, pick: nat, u: nat)
    requires Inv(s) && t < |s.threads| && u < |s.threads| && t != u && CanGo(s.sh, s.threads[t], pick)
    requires !IsUser(s.threads[t].pc) && !Destroying(s.threads[t].pc)
    ensures Foreign(s.sh, LockedEffect(s.sh, t, s.threads[t]), u, s.threads[u])
  {
    Pair(s, t, u);
  }

  lemma EffectIsForeign(s: State, a: Action, u: nat)
    requires Inv(s) && Enabled(s, a) && u < |s.threads| && (a.Spawn? || a.t != u)
    ensures Foreign(s.sh, EffectOf(s, a), u, s.threads[u])
  {
    assert ThreadInv(s.sh, u, s.threads[u]);
    match a
    case Go(t, v, pick) =>
      if IsUser(s.threads[t].pc) { UserIsForeign(s, t, v, u); }
      else if Destroying(s.threads[t].pc) { CellIsForeign(s, t, u); }
      else { LockedIsForeign(s, t, pick, u); }
    case _ =>
  }

  lemma AllocStepKeeps(sh: Shared, t: nat, th: Thread, v: Value)
    requires ThreadInv(sh, t, th) && Allocating(th.pc)
    ensures ThreadInv(Apply(sh, UserEffect(sh, th, v)), t, UserThread(sh, th, v))
  {
    AllClearStable(sh, UserEffect(sh, th, v), th.k);
  }

  lemma LookStepKeeps(sh: Shared, t: nat, th: Thread, v: Value)
    requires ThreadInv(sh, t, th) && (th.pc.GLoad? || th.pc.SLoad?)
    ensures ThreadInv(sh, t, UserThread(sh, th, v))
  {
  }

  lemma StoreStepKeeps(sh: Shared, t: nat, th: Thread, v: Value)
    requires ThreadInv(sh, t, th) && (th.pc.GCall? || th.pc.GStore? || th.pc.SStat? || th.pc.SData?)
    ensures ThreadInv(Apply(sh, UserEffect(sh, th, v)), t, UserThread(sh, th, v))
  {
    CellAfter(sh, UserEffect(sh, th, v), OwnHead(th), th.k);
  }

  lemma UserStepKeeps(s: State, t: nat, v: Value)
    requires Inv(s) && t < |s.threads| && IsUser(s.threads[t].pc)
    ensures ThreadInv(Apply(s.sh, UserEffect(s.sh, s.threads[t], v)), t, UserThread(s.sh, s.threads[t], v))
  {
    var th := s.threads[t];
    assert ThreadInv(s.sh, t, th);
    if Allocating(th.pc) { AllocStepKeeps(s.sh, t, th, v); }
    else if th.pc.GLoad? || th.pc.SLoad? { LookStepKeeps(s.sh, t, th, v); }
    else { StoreStepKeeps(s.sh, t, th, v); }
  }

  /** Nothing is being destroyed unless the lock holder stands at the cell. */
  lemma ClearUnlessInUse(s: State, t: nat, h: nat, k: nat)
    requires Inv(s) && t < |s.threads| && s.sh.lock == Some(t) && !AtCell(s.threads[t].pc)
    ensures IsClear(s.sh, h, k) || CellOf(s.sh, h, k).st.InUse?
  {
  }

  lemma WalkCellKeeps(sh: Shared, t: nat, th: Thread)
    requires ThreadInv(sh, t, th) && (th.pc.RCas? || th.pc.RCall? || th.pc.RClear?)
    requires th.pc.RCas? ==> IsClear(sh, th.h, th.k) || CellOf(sh, th.h, th.k).st.InUse?
    ensures ThreadInv(Apply(sh, CellEffect(sh, th)), t, CellThread(sh, th))
  {
    var e := CellEffect(sh, th);
    var s2, th2 := Apply(sh, e), CellThread(sh, th);
    CellAfter(sh, e, th.h, th.k);
    forall h: nat | h >= (if th2.pc.RHead? then th.h else th.h + 1) ensures IsClear(s2, h, th.k) {
      CellAfter(sh, e, h, th.k);
    }
  }

  lemma ExitCellKeeps(sh: Shared, t: nat, th: Thread)
    requires ThreadInv(sh, t, th) && (th.pc.ECas? || th.pc.ECall? || th.pc.EClear?)
    requires th.pc.ECas? ==> IsClear(sh, th.h, th.k) || CellOf(sh, th.h, th.k).st.InUse?
    ensures ThreadInv(Apply(sh, CellEffect(sh, th)), t, CellThread(sh, th))
  {
    var e := CellEffect(sh, th);
    var s2, th2 := Apply(sh, e), CellThread(sh, th);
    CellAfter(sh, e, th.h, th.k);
    forall k: nat | k !in th2.todo ensures IsClear(s2, th.h, k) { CellAfter(sh, e, th.h, k); }
  }

  lemma CellStepKeeps(s: State, t: nat)
    requires Inv(s) && t < |s.threads| && Destroying(s.threads[t].pc)
    ensures ThreadInv(Apply(s.sh, CellEffect(s.sh, s.threads[t])), t, CellThread(s.sh, s.threads[t]))
  {
    var th := s.threads[t];
    assert ThreadInv(s.sh, t, th);
    if !AtCell(th.pc) { ClearUnlessInUse(s, t, th.h, th.k); }
    if Walking(th.pc) { WalkCellKeeps(s.sh, t, th); } else { ExitCellKeeps(s.sh, t, th); }
  }

  lemma ExitStarts(sh: Shared, h: nat)
    ensures ClearBut(sh, h, KeysIn(sh, h))
  {
    forall k: nat | k !in KeysIn(sh, h) ensures IsClear(sh, h, k) {
      assert (h, k) in sh.cells ==> (h, k).1 in KeysIn(sh, h);
    }
  }

  lemma LockKeeps(sh: Shared, t: nat, th: Thread, pick: nat)
    requires ThreadInv(sh, t, th) && sh.lock.None? && (th.pc.RLock? || th.pc.ELock?)
    ensures ThreadInv(Apply(sh, LockedEffect(sh, t, th)), t, LockedThread(sh, th, pick))
  {
    if th.pc.ELock? {
      ExitStarts(sh, OwnHead(th));
      ClearButStable(sh, SetLock(Some(t)), OwnHead(th), KeysIn(sh, OwnHead(th)));
    }
  }

  lemma UnlockKeeps(sh: Shared, t: nat, th: Thread, pick: nat)
    requires ThreadInv(sh, t, th) && (th.pc.RUnlock? || th.pc.EUnlock? || th.pc.RClaim? || th.pc.RDone?)
    ensures ThreadInv(Apply(sh, LockedEffect(sh, t, th)), t, LockedThread(sh, th, pick))
  {
  }

  lemma WalkKeeps(sh: Shared, t: nat, th: Thread, pick: nat)
    requires ThreadInv(sh, t, th) && (th.pc.RTop? || th.pc.RHead?)
    requires CellsInv(sh)
    ensures ThreadInv(sh, t, LockedThread(sh, th, pick))
  {
    var th2 := LockedThread(sh, th, pick);
    if th2.pc.RHead? {
      forall h: nat | h >= th2.pos ensures IsClear(sh, h, th.k) { assert CellOk(sh, h, th.k); }
    } else if th2.pc.RDone? {
      forall h: nat ensures IsClear(sh, h, th.k) { assert CellOk(sh, h, th.k); }
    } else {
      forall h: nat | h >= th2.h + 1 ensures IsClear(sh, h, th.k) { assert CellOk(sh, h, th.k); }
    }
  }

  lemma ReleaseStepKeeps(s: State, t: nat, pick: nat)
    requires Inv(s) && t < |s.threads| && CanGo(s.sh, s.threads[t], pick)
    requires var pc := s.threads[t].pc; pc.RLock? || pc.RClaim? || pc.RTop? || pc.RHead? || pc.RDone? || pc.RUnlock?
    ensures ThreadInv(Apply(s.sh, LockedEffect(s.sh, t, s.threads[t])), t, LockedThread(s.sh, s.threads[t], pick))
  {
    var th := s.threads[t];
    assert ThreadInv(s.sh, t, th);
    if th.pc.RLock? { LockKeeps(s.sh, t, th, pick); }
    else if th.pc.RTop? || th.pc.RHead? { WalkKeeps(s.sh, t, th, pick); }
    else { UnlockKeeps(s.sh, t, th, pick); }
  }

  lemma NextKeeps(sh: Shared, t: nat, th: Thread, pick: nat)
    requires ThreadInv(sh, t, th) && th.pc.ENext? && pick in th.todo
    requires !KeyOf(sh, pick).st.USED? ==> IsClear(sh, th.h, pick)
    ensures ThreadInv(sh, t, LockedThread(sh, th, pick))
  {
    var th2 := LockedThread(sh, th, pick);
    forall k: nat | k !in th2.todo ensures IsClear(sh, th.h, k) {
      assert k !in th.todo ==> IsClear(sh, th.h, k) by { assert ClearBut(sh, th.h, th.todo); }
    }
  }

  lemma LeaveKeeps(sh: Shared, t: nat, th: Thread, pick: nat)
    requires ThreadInv(sh, t, th) && th.pc.ENext? && th.todo == {}
    ensures ThreadInv(Apply(sh, LockedEffect(sh, t, th)), t, LockedThread(sh, th, pick))
  {
  }

  lemma ExitStepKeeps(s: State, t: nat, pick: nat)
    requires Inv(s) && t < |s.threads| && CanGo(s.sh, s.threads[t], pick)
    requires s.threads[t].pc.ELock? || s.threads[t].pc.ENext? || s.threads[t].pc.EUnlock?
    ensures ThreadInv(Apply(s.sh, LockedEffect(s.sh, t, s.threads[t])), t, LockedThread(s.sh, s.threads[t], pick))
  {
    var th := s.threads[t];
    assert ThreadInv(s.sh, t, th);
    if th.pc.ELock? { LockKeeps(s.sh, t, th, pick); }
    else if th.pc.EUnlock? { UnlockKeeps(s.sh, t, th, pick); }
    else if th.todo == {} { LeaveKeeps(s.sh, t, th, pick); }
    else {
      assert CellOk(s.sh, th.h, pick);
      assert KeyOf(s.sh, pick).st != RELEASING;
      NextKeeps(s.sh, t, th, pick);
    }
  }

  lemma AttachKeeps(sh: Shared, t: nat, th: Thread, h: nat)
    requires ThreadInv(sh, t, th) && th.pc.Idle? && h <= |sh.heads|
    ensures ThreadInv(Apply(sh, SetHead(h, true)), t, th.(head := Some(h)))
  {
  }

  lemma AllocKeeps(sh: Shared, t: nat, th: Thread, k: nat, al: bool, de: bool, key: Key)
    requires ThreadInv(sh, t, th) && th.pc.Idle? && AllClear(sh, k) && key.st.USED? && k !in sh.live
    ensures ThreadInv(Apply(sh, SetKey(k, key)), t, th.(k := k, al := al, de := de, pc := KAlloc))
  {
    AllClearStable(sh, SetKey(k, key), k);
  }

  lemma CallKeeps(sh: Shared, t: nat, th: Thread, k: nat, v: Value)
    requires ThreadInv(sh, t, th) && th.pc.Idle? && th.head.Some?
    ensures k in sh.live && !CellOf(sh, OwnHead(th), k).st.Destructing? ==>
              ThreadInv(sh, t, th.(k := k, pc := GLoad)) && ThreadInv(sh, t, th.(k := k, v := v, pc := SLoad))
    ensures ThreadInv(sh, t, th.(pc := ELock))
  {
  }

  lemma ReleaseKeeps(sh: Shared, t: nat, th: Thread, k: nat)
    requires ThreadInv(sh, t, th) && th.pc.Idle? && KeyOf(sh, k).st.USED?
    ensures ThreadInv(Apply(sh, SetLive(k, false)), t, th.(k := k, pc := RLock))
  {
  }

  /** A thread that is not exiting finds no cell of a live key under destruction. */
  lemma AtRest(s: State, h: nat, k: nat, t: nat)
    requires Inv(s) && k in s.sh.live && t < |s.threads| && s.threads[t].head == Some(h) && s.threads[t].pc.Idle?
    ensures !CellOf(s.sh, h, k).st.Destructing?
  {
    if CellOf(s.sh, h, k).st.Destructing? {
      var u := s.sh.lock.value;
      assert ThreadInv(s.sh, u, s.threads[u]);
      Pair(s, t, u);
    }
  }

  lemma OtherStepKeeps(s: State, a: Action)
    requires Inv(s) && Enabled(s, a) && !a.Spawn? && !a.Go?
    ensures ThreadInv(Apply(s.sh, EffectOf(s, a)), a.t, ThreadAfter(s, a))
  {
    var th := s.threads[a.t];
    assert ThreadInv(s.sh, a.t, th);
    match a
    case Attach(t, h) => AttachKeeps(s.sh, t, th, h);
    case CallAlloc(t, k, al, de) =>
      forall h: nat ensures IsClear(s.sh, h, k) { assert CellOk(s.sh, h, k); }
      AllocKeeps(s.sh, t, th, k, al, de, EffectOf(s, a).key);
    case CallGet(t, k) =>
      AtRest(s, th.head.value, k, t);
      CallKeeps(s.sh, t, th, k, 0);
    case CallSet(t, k, v) =>
      AtRest(s, th.head.value, k, t);
      CallKeeps(s.sh, t, th, k, v);
    case CallRelease(t, k) => ReleaseKeeps(s.sh, t, th, k);
    case CallExit(t) => CallKeeps(s.sh, t, th, 0, 0);
  }

  lemma ActorKeeps(s: State, a: Action)
    requires Inv(s) && Enabled(s, a) && !a.Spawn?
    ensures ThreadInv(Apply(s.sh, EffectOf(s, a)), a.t, ThreadAfter(s, a))
  {
    match a
    case Go(t, v, pick) =>
      if IsUser(s.threads[t].pc) { UserStepKeeps(s, t, v); }
      else if Destroying(s.threads[t].pc) { CellStepKeeps(s, t); }
      else if s.threads[t].pc.ELock? || s.threads[t].pc.ENext? || s.threads[t].pc.EUnlock? { ExitStepKeeps(s, t, pick); }
      else { ReleaseStepKeeps(s, t, pick); }
    case _ => OtherStepKeeps(s, a);
  }

  // ---- heads and keys stay apart ----

  lemma KeepsHeadAndKey(sh: Shared, th: Thread, v: Value, pick: nat)
    ensures var th2 := GoThread(sh, th, v, pick);
            && (th2.head.Some? ==> th2.head == th.head)
            && (InCharge(th2.pc) ==> InCharge(th.pc) && th2.k == th.k)
  {
    hide KeyOf, CellOf, OwnHead;
  }

  lemma NewHeadOrKey(s: State, a: Action, u: nat)
    requires Inv(s) && Enabled(s, a) && !a.Spawn? && u < |s.threads| && u != a.t
    ensures Apart(ThreadAfter(s, a), s.threads[u])
  {
    Pair(s, a.t, u);
    if a.Go? { KeepsHeadAndKey(s.sh, s.threads[a.t], a.v, a.pick); }
    if a.CallAlloc? { assert InCharge(s.threads[u].pc) ==> !KeyOf(s.sh, s.threads[u].k).st.NOT_USED?; }
  }

  lemma StepKeepsThreads(s: State, a: Action)
    requires Inv(s) && Enabled(s, a)
    ensures ThreadsInv(Do(s, a))
  {
    var s2 := Do(s, a);
    EffectIsOk(s, a);
    forall u | 0 <= u < |s2.threads| ensures ThreadInv(s2.sh, u, s2.threads[u]) {
      if u < |s.threads| {
        if !a.Spawn? && a.t == u {
          ActorKeeps(s, a);
        } else {
          EffectIsForeign(s, a, u);
          assert ThreadInv(s.sh, u, s.threads[u]);
          ThreadStable(s.sh, EffectOf(s, a), u, s.threads[u]);
        }
      }
    }
    forall t, u | 0 <= t < u < |s2.threads| ensures Apart(s2.threads[t], s2.threads[u]) {
      if !a.Spawn? && (a.t == t || a.t == u) {
        NewHeadOrKey(s, a, if a.t == t then u else t);
      } else if u < |s.threads| {
        assert Apart(s.threads[t], s.threads[u]);
      }
    }
  }

  lemma HolderOfCell(s: State, a: Action, h: nat, k: nat)
    requires Inv(s) && Enabled(s, a) && !a.Spawn? && CellOf(Do(s, a).sh, h, k).st.Destructing?
    ensures var s2 := Do(s, a);
            && s2.sh.lock.Some? && s2.sh.lock.value < |s2.threads| && s2.threads[s2.sh.lock.value].h == h
            && s2.threads[s2.sh.lock.value].k == k && AtCell(s2.threads[s2.sh.lock.value].pc)
  {
    assert ThreadInv(s.sh, a.t, s.threads[a.t]);
    CellAfter(s.sh, EffectOf(s, a), h, k);
  }

  lemma HolderOfKey(s: State, a: Action, k: nat)
    requires Inv(s) && Enabled(s, a) && !a.Spawn? && KeyOf(Do(s, a).sh, k).st.RELEASING?
    ensures var s2 := Do(s, a);
            && s2.sh.lock.Some? && s2.sh.lock.value < |s2.threads|
            && s2.threads[s2.sh.lock.value].k == k && Releasing(s2.threads[s2.sh.lock.value].pc)
  {
    assert ThreadInv(s.sh, a.t, s.threads[a.t]);
    KeyAfter(s.sh, EffectOf(s, a), k);
  }

  lemma HolderExists(s: State, a: Action)
    requires Inv(s) && Enabled(s, a)
    ensures Do(s, a).sh.lock.Some? ==> Do(s, a).sh.lock.value < |Do(s, a).threads|
  {
  }

  lemma StepKeepsHolder(s: State, a: Action)
    requires Inv(s) && Enabled(s, a)
    ensures HolderInv(Do(s, a))
  {
    var s2 := Do(s, a);
    HolderExists(s, a);
    if !a.Spawn? {
      forall k: nat | KeyOf(s2.sh, k).st.RELEASING?
        ensures s2.sh.lock.Some? && s2.threads[s2.sh.lock.value].k == k && Releasing(s2.threads[s2.sh.lock.value].pc)
      {
        HolderOfKey(s, a, k);
      }
      forall h: nat, k: nat | CellOf(s2.sh, h, k).st.Destructing?
        ensures s2.sh.lock.Some? && s2.threads[s2.sh.lock.value].h == h && s2.threads[s2.sh.lock.value].k == k
        ensures AtCell(s2.threads[s2.sh.lock.value].pc)
      {
        HolderOfCell(s, a, h, k);
      }
    }
  }

  lemma StepKeepsInv(s: State, a: Action)
    requires Inv(s) && Enabled(s, a)
    ensures Inv(Do(s, a))
  {
    EffectIsOk(s, a);
    EffectKeepsCells(s.sh, EffectOf(s, a));
    EffectKeepsLive(s.sh, EffectOf(s, a));
    StepKeepsThreads(s, a);
    StepKeepsHolder(s, a);
  }

  lemma InitInv()
    ensures Inv(Init())
  {
    var sh := Init().sh;
    forall h: nat, k: nat ensures CellOk(sh, h, k) && IsClear(sh, h, k) { assert (h, k) !in sh.cells; }
    forall k: nat ensures KeyOf(sh, k).st.NOT_USED? { assert k !in sh.keys; }
  }
}
