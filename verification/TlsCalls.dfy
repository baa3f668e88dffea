/** What a call on the thread-local storage has done when it returns, whatever the other
    threads do meanwhile; and that it returns. */
module TlsCalls {
  import opened Reclaim
  import opened TlsModel
  import opened TlsProof
  import opened TlsTheorems

  /** Thread t begins no call in the run. */
  predicate NoCalls(run: seq<Action>, t: nat) {
    forall i | 0 <= i < |run| :: run[i].Spawn? || run[i].t != t || run[i].Go?
  }

  /** What a call has to bring about before it returns: set_tls a value in its cell,
      get_tls an answer from its cell, release_key and thread exit the freedom of their key
      and their head. */
  datatype Duty = Store(h: nat, k: nat, v: Value) | Answer(h: nat, k: nat) | FreeKey(k: nat) | FreeHead(h: nat)

  predicate Fulfills(e: Event, d: Duty) {
    match d
    case Store(h, k, v) => e == Put(h, k, v)
    case Answer(h, k) => (e.Got? || e.Put?) && e.h == h && e.k == k
    case FreeKey(k) => e == KeyFreed(k)
    case FreeHead(h) => e == HeadFreed(h)
  }

  ghost predicate Fulfilled(events: seq<Event>, d: Duty) {
    exists i :: 0 <= i < |events| && Fulfills(events[i], d)
  }

  /** The thread is in the middle of a call that has this duty. */
  predicate Owes(th: Thread, d: Duty) {
    match d
    case Store(h, k, v) => (th.pc.SLoad? || th.pc.SStat? || th.pc.SData?) && OwnHead(th) == h && th.k == k && th.v == v
    case Answer(h, k) => (th.pc.GLoad? || th.pc.GCall? || th.pc.GStore?) && OwnHead(th) == h && th.k == k
    case FreeKey(k) => (th.pc.RLock? || th.pc.RClaim? || Releasing(th.pc)) && th.k == k
    case FreeHead(h) => (th.pc.ELock? && OwnHead(th) == h) || (Exiting(th.pc) && th.h == h)
  }

  /** A step of the call does its duty, or leaves it to be done. */
  lemma StepFulfills(sh: Shared, t: nat, th: Thread, v: Value, pick: nat, d: Duty)
    requires ThreadInv(sh, t, th) && CanGo(sh, th, pick) && Owes(th, d)
    ensures (GoEvent(sh, th).Some? && Fulfills(GoEvent(sh, th).value, d)) || Owes(GoThread(sh, th, v, pick), d)
  {
  }

  lemma {:induction false} ThreadsStay(s: State, run: seq<Action>, t: nat)
    requires ValidRun(s, run) && t < |s.threads|
    ensures t < |After(s, run).threads|
    decreases |run|
  {
    if run != [] { ThreadsStay(Do(s, run[0]), run[1..], t); }
  }

  lemma FirstEvent(s: State, run: seq<Action>, d: Duty)
    requires run != [] && ValidRun(s, run)
    requires (EventOf(s, run[0]).Some? && Fulfills(EventOf(s, run[0]).value, d)) || Fulfilled(Events(Do(s, run[0]), run[1..]), d)
    ensures Fulfilled(Events(s, run), d)
  {
    hide Fulfills;
    var e, rest := EventOf(s, run[0]), Events(Do(s, run[0]), run[1..]);
    if e.Some? && Fulfills(e.value, d) {
      assert Events(s, run)[0] == e.value;
    } else {
      var i :| 0 <= i < |rest| && Fulfills(rest[i], d);
      assert Events(s, run)[if e.Some? then i + 1 else i] == rest[i];
    }
  }

  lemma {:induction false} RunFulfills(s: State, run: seq<Action>, t: nat, d: Duty)
    requires Inv(s) && ValidRun(s, run) && NoCalls(run, t) && t < |s.threads| && Owes(s.threads[t], d)
    ensures t < |After(s, run).threads| && (Fulfilled(Events(s, run), d) || Owes(After(s, run).threads[t], d))
    decreases |run|
  {
    if run != [] {
      hide Owes, Fulfills, Fulfilled;
      var a := run[0];
      StepKeepsInv(s, a);
      if !a.Spawn? && a.t == t {
        assert ThreadInv(s.sh, t, s.threads[t]);
        StepFulfills(s.sh, t, s.threads[t], a.v, a.pick, d);
      }
      if Owes(Do(s, a).threads[t], d) {
        RunFulfills(Do(s, a), run[1..], t, d);
        if Fulfilled(Events(Do(s, a), run[1..]), d) { FirstEvent(s, run, d); }
      } else {
        FirstEvent(s, run, d);
        ThreadsStay(Do(s, a), run[1..], t);
      }
    }
  }

  function DutyOf(s: State, a: Action): (d: Duty)
    requires Enabled(s, a) && (a.CallSet? || a.CallGet? || a.CallRelease? || a.CallExit?)
  {
    match a
    case CallSet(t, k, v) => Store(OwnHead(s.threads[t]), k, v)
    case CallGet(t, k) => Answer(OwnHead(s.threads[t]), k)
    case CallRelease(t, k) => FreeKey(k)
    case CallExit(t) => FreeHead(OwnHead(s.threads[t]))
  }

  lemma CallOwes(s: State, a: Action)
    requires Enabled(s, a) && (a.CallSet? || a.CallGet? || a.CallRelease? || a.CallExit?)
    ensures Owes(Do(s, a).threads[a.t], DutyOf(s, a))
  {
  }

  /** A call that has returned has done its duty: set_tls has put its value into the table,
      get_tls has got the value of the table or put one there, release_key has freed its key
      and thread exit its head; with all that this requires of the table. */
  lemma DoesItsDuty(s: State, a: Action, run: seq<Action>)
    requires Inv(s) && Enabled(s, a) && (a.CallSet? || a.CallGet? || a.CallRelease? || a.CallExit?)
    requires ValidRun(Do(s, a), run) && NoCalls(run, a.t)
    ensures var s2 := After(Do(s, a), run);
            a.t < |s2.threads| && (s2.threads[a.t].pc.Idle? ==> Fulfilled(Events(Do(s, a), run), DutyOf(s, a)))
  {
    StepKeepsInv(s, a);
    CallOwes(s, a);
    RunFulfills(Do(s, a), run, a.t, DutyOf(s, a));
    hide Do, Inv;
  }

  // ---- allocate_key ----

  /** The key has been handed out with its allocator and its deallocator. */
  predicate HandedOut(sh: Shared, k: nat, al: bool, de: bool) {
    k in sh.live && KeyOf(sh, k).st.USED? && KeyOf(sh, k).alloc == al && KeyOf(sh, k).dealloc == de
  }

  ghost predicate WasHandedOut(s: State, run: seq<Action>, k: nat, al: bool, de: bool)
    requires ValidRun(s, run)
    decreases |run|
  {
    HandedOut(s.sh, k, al, de) || (run != [] && WasHandedOut(Do(s, run[0]), run[1..], k, al, de))
  }

  /** The call is still preparing the key, and what it has stored stands. */
  predicate Preparing(sh: Shared, th: Thread, k: nat, al: bool, de: bool) {
    && Allocating(th.pc) && th.k == k && th.al == al && th.de == de
    && (th.pc.KDealloc? || th.pc.KReturn? ==> KeyOf(sh, k).alloc == al)
    && (th.pc.KReturn? ==> KeyOf(sh, k).dealloc == de)
  }

  lemma PreparingStep(s: State, a: Action, t: nat, k: nat, al: bool, de: bool)
    requires Inv(s) && Enabled(s, a) && t < |s.threads| && Preparing(s.sh, s.threads[t], k, al, de)
    ensures t < |Do(s, a).threads|
    ensures Preparing(Do(s, a).sh, Do(s, a).threads[t], k, al, de) || HandedOut(Do(s, a).sh, k, al, de)
  {
    assert ThreadInv(s.sh, t, s.threads[t]);
    if a.Spawn? || a.t != t {
      EffectIsForeign(s, a, t);
      KeyAfter(s.sh, EffectOf(s, a), k);
    }
  }

  /** A key is handed out as it was asked for before allocate_key returns. */
  lemma {:induction false} AllocHandsOut(s: State, run: seq<Action>, t: nat, k: nat, al: bool, de: bool)
    requires Inv(s) && ValidRun(s, run) && t < |s.threads| && Preparing(s.sh, s.threads[t], k, al, de)
    ensures t < |After(s, run).threads|
    ensures After(s, run).threads[t].pc.Idle? ==> WasHandedOut(s, run, k, al, de)
    decreases |run|
  {
    if run != [] {
      hide HandedOut;
      StepKeepsInv(s, run[0]);
      PreparingStep(s, run[0], t, k, al, de);
      if Preparing(Do(s, run[0]).sh, Do(s, run[0]).threads[t], k, al, de) {
        AllocHandsOut(Do(s, run[0]), run[1..], t, k, al, de);
      } else {
        ThreadsStay(Do(s, run[0]), run[1..], t);
        NowIsPart(Do(s, run[0]), run[1..], k, al, de);
      }
    }
  }

  lemma NowIsPart(s: State, run: seq<Action>, k: nat, al: bool, de: bool)
    requires ValidRun(s, run) && HandedOut(s.sh, k, al, de)
    ensures WasHandedOut(s, run, k, al, de)
  {
  }

  lemma AllocBegins(s: State, t: nat, k: nat, al: bool, de: bool)
    requires Enabled(s, CallAlloc(t, k, al, de))
    ensures Preparing(Do(s, CallAlloc(t, k, al, de)).sh, Do(s, CallAlloc(t, k, al, de)).threads[t], k, al, de)
  {
  }

  /** allocate_key that has returned has handed out its key. */
  lemma KeyIsHandedOut(s: State, t: nat, k: nat, al: bool, de: bool, run: seq<Action>)
    requires Inv(s) && Enabled(s, CallAlloc(t, k, al, de)) && ValidRun(Do(s, CallAlloc(t, k, al, de)), run)
    ensures var s1 := Do(s, CallAlloc(t, k, al, de)); var s2 := After(s1, run);
            t < |s2.threads| && (s2.threads[t].pc.Idle? ==> WasHandedOut(s1, run, k, al, de))
  {
    StepKeepsInv(s, CallAlloc(t, k, al, de));
    AllocBegins(s, t, k, al, de);
    AllocHandsOut(Do(s, CallAlloc(t, k, al, de)), run, t, k, al, de);
    hide Do, Inv;
  }

  // ---- calls return ----

  /** The steps that are left, if no other thread moves. */
  function StepsLeft(sh: Shared, th: Thread): nat {
    match th.pc
    case Idle => 0 case Error => 0
    case KAlloc => 3 case KDealloc => 2 case KReturn => 1
    case GLoad => 3 case GCall => 2 case GStore => 1
    case SLoad => 3 case SStat => 2 case SData => 1
    case RLock => 4 * |sh.heads| + 6 case RClaim => 4 * |sh.heads| + 5 case RTop => 4 * |sh.heads| + 4
    case RHead => 4 * th.pos + 3
    case RCas => 4 * th.h + 6 case RCall => 4 * th.h + 5 case RClear => 4 * th.h + 4
    case RDone => 2 case RUnlock => 1
    case ELock => 4 * |KeysIn(sh, OwnHead(th))| + 3
    case ENext => 4 * |th.todo| + 2
    case ECas => 4 * |th.todo| + 1 case ECall => 4 * |th.todo|
    case EClear => if th.todo == {} then 0 else 4 * |th.todo| - 1
    case EUnlock => 1
  }

  lemma OneLess(todo: set<nat>, k: nat)
    requires k in todo
    ensures |todo - {k}| == |todo| - 1
  {
  }

  lemma UserIsCloser(sh: Shared, th: Thread, v: Value)
    requires IsUser(th.pc)
    ensures StepsLeft(Apply(sh, UserEffect(sh, th, v)), UserThread(sh, th, v)) < StepsLeft(sh, th)
  {
    hide CellOf, KeyOf, Apply;
  }

  lemma WalkIsCloser(sh: Shared, t: nat, th: Thread, pick: nat)
    requires th.pc.RLock? || th.pc.RClaim? || Releasing(th.pc) || th.pc.RUnlock?
    ensures StepsLeft(Apply(sh, GoEffect(sh, t, th, 0)), GoThread(sh, th, 0, pick)) < StepsLeft(sh, th)
    ensures GoEffect(sh, t, th, 0) == if Destroying(th.pc) then CellEffect(sh, th) else LockedEffect(sh, t, th)
    ensures GoThread(sh, th, 0, pick) == if Destroying(th.pc) then CellThread(sh, th) else LockedThread(sh, th, pick)
  {
    hide CellOf, KeyOf, HeadInUse, KeysIn;
  }

  lemma ExitLoopIsCloser(sh: Shared, th: Thread, sh2: Shared, pick: nat)
    requires th.pc.ENext? && (th.todo == {} || pick in th.todo)
    ensures StepsLeft(sh2, LockedThread(sh, th, pick)) < StepsLeft(sh, th)
  {
    hide CellOf, KeyOf, HeadInUse, KeysIn, OwnHead;
    if th.todo != {} { OneLess(th.todo, pick); }
  }

  lemma ExitCellIsCloser(sh: Shared, th: Thread, sh2: Shared)
    requires (th.pc.ECas? || th.pc.ECall? || th.pc.EClear?) && th.k in th.todo
    ensures StepsLeft(sh2, CellThread(sh, th)) < StepsLeft(sh, th)
  {
    hide CellOf, KeyOf, HeadInUse, KeysIn, OwnHead;
    OneLess(th.todo, th.k);
  }

  lemma ExitEndIsCloser(sh: Shared, th: Thread, sh2: Shared, pick: nat)
    requires th.pc.ELock? || th.pc.EUnlock?
    ensures StepsLeft(sh2, LockedThread(sh, th, pick)) < StepsLeft(sh, th)
  {
    hide CellOf, KeyOf, HeadInUse, KeysIn, OwnHead;
  }

  lemma StepIsCloser(sh: Shared, t: nat, th: Thread, v: Value, pick: nat)
    requires ThreadInv(sh, t, th) && CanGo(sh, th, pick)
    ensures StepsLeft(Apply(sh, GoEffect(sh, t, th, v)), GoThread(sh, th, v, pick)) < StepsLeft(sh, th)
  {
    hide StepsLeft, Apply, CellEffect, CellThread, LockedEffect, LockedThread, UserEffect, UserThread, KeyInv, UserInv;
    if IsUser(th.pc) { UserIsCloser(sh, th, v); }
    else if th.pc.RLock? || th.pc.RClaim? || Releasing(th.pc) || th.pc.RUnlock? { WalkIsCloser(sh, t, th, pick); }
    else if th.pc.ENext? { ExitLoopIsCloser(sh, th, Apply(sh, GoEffect(sh, t, th, v)), pick); }
    else if th.pc.ELock? || th.pc.EUnlock? { ExitEndIsCloser(sh, th, Apply(sh, GoEffect(sh, t, th, v)), pick); }
    else { ExitCellIsCloser(sh, th, Apply(sh, GoEffect(sh, t, th, v))); }
  }

  /** Only thread t moves in the run, inside one call. */
  predicate OnlySteps(run: seq<Action>, t: nat) {
    forall i | 0 <= i < |run| :: run[i].Go? && run[i].t == t
  }

  /** Some step of thread t can run, if no other thread holds the lock. */
  lemma CanMove(s: State, t: nat) returns (pick: nat)
    requires Inv(s) && t < |s.threads| && !s.threads[t].pc.Idle? && (s.sh.lock.None? || s.sh.lock == Some(t))
    ensures Enabled(s, Go(t, 0, pick))
  {
    assert ThreadInv(s.sh, t, s.threads[t]);
    pick := 0;
    if s.threads[t].pc.ENext? && s.threads[t].todo != {} { pick :| pick in s.threads[t].todo; }
  }

  lemma LockStaysMine(s: State, t: nat, v: Value, pick: nat)
    requires Inv(s) && Enabled(s, Go(t, v, pick)) && (s.sh.lock.None? || s.sh.lock == Some(t))
    ensures var l := Do(s, Go(t, v, pick)).sh.lock; l.None? || l == Some(t)
  {
    assert ThreadInv(s.sh, t, s.threads[t]);
  }

  /** A call that runs while nobody else does and nobody else holds the lock returns. */
  lemma {:induction false} CallReturns(s: State, t: nat) returns (run: seq<Action>)
    requires Inv(s) && t < |s.threads| && (s.sh.lock.None? || s.sh.lock == Some(t))
    ensures ValidRun(s, run) && OnlySteps(run, t)
    ensures t < |After(s, run).threads| && After(s, run).threads[t].pc.Idle?
    decreases StepsLeft(s.sh, s.threads[t])
  {
    run := [];
    if !s.threads[t].pc.Idle? {
      var pick := CanMove(s, t);
      var a := Go(t, 0, pick);
      StepKeepsInv(s, a);
      LockStaysMine(s, t, 0, pick);
      assert ThreadInv(s.sh, t, s.threads[t]);
      StepIsCloser(s.sh, t, s.threads[t], 0, pick);
      hide Inv, StepsLeft, Enabled;
      var rest := CallReturns(Do(s, a), t);
      run := [a] + rest;
      assert run[1..] == rest;
    }
  }
}
