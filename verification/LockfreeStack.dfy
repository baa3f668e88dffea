/** The lock-free stack in which the node pool keeps spare nodes.  A popped node goes to
    its user at once, without a look at the hazard slots, and the user may overwrite its
    link; only on the way back to the stack is it scanned for.  The model shows that this
    is enough: no head CAS of a pop installs a stale successor. */
module LockfreeStack {
  import opened Reclaim

  /** Life is used as follows: Linked is in the stack, Retired is in the hands of a user,
      Free has been scanned and may be pushed, Owned(t) is being pushed by thread t.
      stack is an auxiliary variable: the nodes from the top to the bottom. */
  datatype Shared = Shared(head: Ref, next: map<Ref, Ref>, life: map<Ref, Life>, stack: seq<Ref>)

  datatype Event = Pushed(n: Ref) | Popped(n: Ref) | SawEmpty

  datatype Pc =
    | Idle
    | PushLoad | PushStore | PushCas
    | PopLoad | PopPub | PopVer | PopNext | PopCas
    | Fin

  /** slot is the hazard slot of hp_cur_head, x a loaded head that is not published yet
      or the expected head of a push, nw is p_new_head. */
  datatype Thread = Thread(pc: Pc, own: Ref, x: Ref, nw: Ref, slot: Ref, res: Ref)

  datatype State = State(sh: Shared, threads: seq<Thread>)

  datatype Action =
    | Spawn
    | CallPush(t: nat, n: Ref)
    | CallPop(t: nat)
    | Go(t: nat)
    | ClearSlot(t: nat)
    | Return(t: nat)
    | Allocate(n: Ref)                         // new: a node comes into the hands of a user
    | Scribble(n: Ref, m: Ref)                 // a user or the pool writes the link of a node
    | StartScan(n: Ref)
    | ReadSlot(n: Ref, t: nat, k: nat)
    | StopScan(n: Ref)
    | EndScan(n: Ref)
    | HandOut(n: Ref)                          // a scanned node goes to a user without passing the stack

  const SLOT: nat := 0

  function NextOf(sh: Shared, n: Ref): Ref { Get(sh.next, n, NULL) }
  function Alive(sh: Shared, n: Ref): Life { LifeOf(sh.life, n) }
  predicate IsLinked(sh: Shared, n: Ref) { Alive(sh, n).Linked? }
  function Top(s: seq<Ref>): Ref { if s == [] then NULL else s[0] }

  function Init(): State { State(Shared(NULL, map[], map[], []), []) }
  function IdleThread(): Thread { Thread(Idle, NULL, NULL, NULL, NULL, NULL) }

  predicate CanGo(th: Thread) { !th.pc.Idle? && !th.pc.Fin? }

  predicate PushSucceeds(sh: Shared, th: Thread) { th.pc.PushCas? && sh.head == th.x }
  predicate PopSucceeds(sh: Shared, th: Thread) { th.pc.PopCas? && sh.head == th.slot }

  function GoShared(sh: Shared, th: Thread): Shared {
    if th.pc.PushStore? then sh.(next := sh.next[th.own := th.x])
    else if PushSucceeds(sh, th) then sh.(head := th.own, life := sh.life[th.own := Linked], stack := [th.own] + sh.stack)
    else if PopSucceeds(sh, th) then
      sh.(head := th.nw, life := sh.life[th.slot := Retired], stack := if sh.stack == [] then [] else sh.stack[1..])
    else sh
  }

  function GoThread(sh: Shared, th: Thread): Thread {
    match th.pc
    case PushLoad => th.(x := sh.head, pc := PushStore)
    case PushStore => th.(pc := PushCas)
    case PushCas => if sh.head == th.x then th.(own := NULL, pc := Fin) else th.(x := sh.head, pc := PushStore)
    case PopLoad => th.(x := sh.head, pc := PopPub)
    case PopPub => th.(slot := th.x, pc := PopVer)
    case PopVer =>
      if sh.head != th.slot then th.(x := sh.head, pc := PopPub)
      else if th.slot == NULL then th.(res := NULL, pc := Fin)
      else th.(pc := PopNext)
    case PopNext => th.(nw := NextOf(sh, th.slot), pc := PopCas)
    case PopCas => if sh.head == th.slot then th.(res := th.slot, pc := Fin) else th.(x := sh.head, pc := PopPub)
    case _ => th
  }

  function EventBy(sh: Shared, th: Thread): Option<Event> {
    if PushSucceeds(sh, th) then Some(Pushed(th.own))
    else if PopSucceeds(sh, th) then Some(Popped(th.slot))
    else if th.pc.PopVer? && sh.head == th.slot == NULL then Some(SawEmpty)
    else None
  }

  predicate Enabled(s: State, a: Action) {
    match a
    case Spawn => true
    case CallPush(t, n) => t < |s.threads| && s.threads[t].pc.Idle? && n != NULL && Alive(s.sh, n).Free?
    case CallPop(t) => t < |s.threads| && s.threads[t].pc.Idle?
    case Go(t) => t < |s.threads| && CanGo(s.threads[t])
    case ClearSlot(t) => t < |s.threads| && s.threads[t].pc.Fin?
    case Return(t) => t < |s.threads| && s.threads[t].pc.Fin? && s.threads[t].slot == NULL
    case Allocate(n) => n != NULL && Alive(s.sh, n).Fresh?
    case Scribble(n, m) => !IsLinked(s.sh, n) && !Alive(s.sh, n).Owned?
    case StartScan(n) => Alive(s.sh, n).Retired?
    case ReadSlot(n, t, k) => Alive(s.sh, n).Scanning? && (k == SLOT && t < |s.threads| ==> s.threads[t].slot != n)
    case StopScan(n) => Alive(s.sh, n).Scanning?
    case EndScan(n) => Alive(s.sh, n).Scanning? && Alive(s.sh, n).todo == {}
    case HandOut(n) => Alive(s.sh, n).Free?
  }

  function SharedAfter(s: State, a: Action): Shared
    requires Enabled(s, a)
  {
    match a
    case CallPush(t, n) => s.sh.(life := s.sh.life[n := Owned(t)])
    case Go(t) => GoShared(s.sh, s.threads[t])
    case Allocate(n) => s.sh.(life := s.sh.life[n := Retired])
    case Scribble(n, m) => s.sh.(next := s.sh.next[n := m])
    case StartScan(n) => s.sh.(life := s.sh.life[n := Scanning(AllSlots(|s.threads|))])
    case ReadSlot(n, t, k) => s.sh.(life := s.sh.life[n := Scanning(Alive(s.sh, n).todo - {(t, k)})])
    case StopScan(n) => s.sh.(life := s.sh.life[n := Retired])
    case EndScan(n) => s.sh.(life := s.sh.life[n := Free])
    case HandOut(n) => s.sh.(life := s.sh.life[n := Retired])
    case _ => s.sh
  }

  function Actor(a: Action): Option<nat> {
    match a
    case CallPush(t, _) => Some(t)
    case CallPop(t) => Some(t)
    case Go(t) => Some(t)
    case ClearSlot(t) => Some(t)
    case Return(t) => Some(t)
    case _ => None
  }

  function ThreadAfter(s: State, a: Action): Thread
    requires Enabled(s, a) && Actor(a).Some?
  {
    var th := s.threads[Actor(a).value];
    match a
    case CallPush(t, n) => IdleThread().(own := n, pc := PushLoad)
    case CallPop(t) => IdleThread().(pc := PopLoad)
    case Go(t) => GoThread(s.sh, th)
    case ClearSlot(t) => th.(slot := NULL)
    case _ => IdleThread()
  }

  function Do(s: State, a: Action): State
    requires Enabled(s, a)
  {
    State(
      SharedAfter(s, a),
      if a.Spawn? then s.threads + [IdleThread()]
      else if Actor(a).Some? then s.threads[Actor(a).value := ThreadAfter(s, a)]
      else s.threads)
  }

  function EventOf(s: State, a: Action): Option<Event>
    requires Enabled(s, a)
  {
    if a.Go? then EventBy(s.sh, s.threads[a.t]) else None
  }

  // ---- the invariant ----

  ghost predicate StackInv(sh: Shared) {
    && sh.head == Top(sh.stack)
    && (forall i | 0 <= i < |sh.stack| :: sh.stack[i] != NULL && Alive(sh, sh.stack[i]).Linked?)
    && (forall n | Alive(sh, n).Linked? :: n in sh.stack)
    && Distinct(sh.stack)
    && (forall i, j | 0 <= i < j < |sh.stack| && j == i + 1 :: NextOf(sh, sh.stack[i]) == sh.stack[j])
    && (sh.stack != [] ==> NextOf(sh, sh.stack[|sh.stack| - 1]) == NULL)
  }

  /** The head has been seen to be the node in the slot. */
  predicate Verified(pc: Pc) { pc.PopNext? || pc.PopCas? }

  predicate ThreadInv(sh: Shared, t: nat, th: Thread) {
    && (th.pc.PushLoad? || th.pc.PushStore? || th.pc.PushCas? ==> th.own != NULL && Alive(sh, th.own) == Owned(t))
    && (th.pc.PushCas? ==> NextOf(sh, th.own) == th.x)
    && (Verified(th.pc) ==> th.slot != NULL && Protected(sh.life, t, SLOT, th.slot))
    && (th.pc.PopCas? && IsLinked(sh, th.slot) ==> NextOf(sh, th.slot) == th.nw)
  }

  ghost predicate ThreadsInv(sh: Shared, threads: seq<Thread>) {
    forall t | 0 <= t < |threads| :: ThreadInv(sh, t, threads[t])
  }

  ghost predicate Inv(s: State) {
    StackInv(s.sh) && ThreadsInv(s.sh, s.threads) && Alive(s.sh, NULL).Fresh?
  }

  /** When the head CAS of a pop is about to succeed, the node in the slot is the top and
      the successor read earlier is still its successor. */
  lemma PopInstallsSuccessor(s: State, t: nat)
    requires Inv(s) && Enabled(s, Go(t)) && PopSucceeds(s.sh, s.threads[t])
    ensures var th := s.threads[t];
            && s.sh.stack != [] && th.slot == s.sh.stack[0]
            && th.nw == NextOf(s.sh, th.slot) == Top(s.sh.stack[1..])
  {
    assert ThreadInv(s.sh, t, s.threads[t]);
    assert s.sh.stack != [];
    if |s.sh.stack| > 1 { assert NextOf(s.sh, s.sh.stack[0]) == s.sh.stack[1]; }
  }

  lemma UnstackTop(sh: Shared, s2: Shared)
    requires StackInv(sh) && sh.stack != []
    requires s2 == sh.(head := Top(sh.stack[1..]), life := sh.life[sh.stack[0] := Retired], stack := sh.stack[1..])
    ensures StackInv(s2)
  {
    assert forall i | 0 <= i < |s2.stack| :: s2.stack[i] == sh.stack[i + 1];
    OnlyTopOff(sh, s2);
    assert Distinct(s2.stack);
    hide Distinct;
  }

  lemma OnlyTopOff(sh: Shared, s2: Shared)
    requires sh.stack != [] && forall n | Alive(sh, n).Linked? :: n in sh.stack
    requires s2 == sh.(head := Top(sh.stack[1..]), life := sh.life[sh.stack[0] := Retired], stack := sh.stack[1..])
    ensures forall n | Alive(s2, n).Linked? :: n in s2.stack
  {
    forall n | Alive(s2, n).Linked? ensures n in s2.stack {
      assert Alive(sh, n).Linked? && n != sh.stack[0];
      assert sh.stack == [sh.stack[0]] + s2.stack;
    }
  }

  lemma StackOn(sh: Shared, s2: Shared, n: Ref)
    requires StackInv(sh) && n != NULL && !IsLinked(sh, n) && NextOf(sh, n) == sh.head
    requires s2 == sh.(head := n, life := sh.life[n := Linked], stack := [n] + sh.stack)
    ensures StackInv(s2)
  {
    assert forall i | 1 <= i < |s2.stack| :: s2.stack[i] == sh.stack[i - 1];
    assert s2.stack[0] == n;
    assert Distinct(s2.stack);
    OnlyNewOn(sh, s2, n);
    hide Distinct;
  }

  lemma OnlyNewOn(sh: Shared, s2: Shared, n: Ref)
    requires forall m | Alive(sh, m).Linked? :: m in sh.stack
    requires s2 == sh.(head := n, life := sh.life[n := Linked], stack := [n] + sh.stack)
    ensures forall m | Alive(s2, m).Linked? :: m in s2.stack
  {
    forall m | Alive(s2, m).Linked? ensures m in s2.stack {
      if m != n { assert Alive(sh, m).Linked?; }
    }
  }

  lemma StackFrame(a: Shared, b: Shared)
    requires StackInv(a) && a.head == b.head && a.stack == b.stack
    requires forall n :: Alive(a, n).Linked? <==> Alive(b, n).Linked?
    requires forall n | Alive(a, n).Linked? :: NextOf(b, n) == NextOf(a, n)
    ensures StackInv(b)
  {
  }

  lemma StepKeepsStack(s: State, a: Action)
    requires Inv(s) && Enabled(s, a)
    ensures StackInv(Do(s, a).sh)
  {
    if a.Go? && PopSucceeds(s.sh, s.threads[a.t]) {
      PopInstallsSuccessor(s, a.t);
      UnstackTop(s.sh, Do(s, a).sh);
    } else if a.Go? && PushSucceeds(s.sh, s.threads[a.t]) {
      assert ThreadInv(s.sh, a.t, s.threads[a.t]);
      StackOn(s.sh, Do(s, a).sh, s.threads[a.t].own);
    } else {
      if a.Go? { assert ThreadInv(s.sh, a.t, s.threads[a.t]); }
      StackFrame(s.sh, Do(s, a).sh);
    }
  }

  /** A node that thread u holds in a verified slot does not come back to the stack, and
      while it is in the stack its link does not change. */
  lemma SlotStable(s: State, a: Action, u: nat)
    requires Inv(s) && Enabled(s, a) && u < |s.threads| && Actor(a) != Some(u) && Verified(s.threads[u].pc)
    ensures var n := s.threads[u].slot;
            && Protected(Do(s, a).sh.life, u, SLOT, n)
            && (IsLinked(Do(s, a).sh, n) ==> IsLinked(s.sh, n) && NextOf(Do(s, a).sh, n) == NextOf(s.sh, n))
  {
    assert ThreadInv(s.sh, u, s.threads[u]);
    if a.Go? { assert ThreadInv(s.sh, a.t, s.threads[a.t]); }
  }

  lemma OwnStable(s: State, a: Action, u: nat)
    requires Inv(s) && Enabled(s, a) && u < |s.threads| && Actor(a) != Some(u)
    requires Alive(s.sh, s.threads[u].own) == Owned(u)
    ensures Alive(Do(s, a).sh, s.threads[u].own) == Owned(u)
    ensures NextOf(Do(s, a).sh, s.threads[u].own) == NextOf(s.sh, s.threads[u].own)
  {
    if a.Go? {
      assert ThreadInv(s.sh, a.t, s.threads[a.t]);
      if PopSucceeds(s.sh, s.threads[a.t]) { PopInstallsSuccessor(s, a.t); }
    }
  }

  lemma OtherKeepsThread(s: State, a: Action, u: nat)
    requires Inv(s) && Enabled(s, a) && u < |s.threads| && Actor(a) != Some(u)
    ensures ThreadInv(Do(s, a).sh, u, s.threads[u])
  {
    var th := s.threads[u];
    assert ThreadInv(s.sh, u, th);
    if Verified(th.pc) { SlotStable(s, a, u); }
    if Alive(s.sh, th.own) == Owned(u) { OwnStable(s, a, u); }
  }

  lemma HeadIsLinked(sh: Shared)
    requires StackInv(sh) && sh.head != NULL
    ensures IsLinked(sh, sh.head)
  {
    assert sh.stack[0] == sh.head;
  }

  lemma GoKeepsThread(sh: Shared, t: nat, th: Thread)
    requires StackInv(sh) && ThreadInv(sh, t, th) && CanGo(th)
    ensures ThreadInv(GoShared(sh, th), t, GoThread(sh, th))
  {
    if sh.head != NULL { HeadIsLinked(sh); }
  }

  lemma StepKeepsThreads(s: State, a: Action)
    requires Inv(s) && Enabled(s, a)
    ensures ThreadsInv(Do(s, a).sh, Do(s, a).threads)
  {
    var s2 := Do(s, a);
    forall u | 0 <= u < |s2.threads| ensures ThreadInv(s2.sh, u, s2.threads[u]) {
      if u < |s.threads| {
        if Actor(a) == Some(u) {
          assert ThreadInv(s.sh, u, s.threads[u]);
          if a.Go? { GoKeepsThread(s.sh, u, s.threads[u]); }
        } else {
          OtherKeepsThread(s, a, u);
        }
      }
    }
  }

  lemma StepKeepsInv(s: State, a: Action)
    requires Inv(s) && Enabled(s, a)
    ensures Inv(Do(s, a))
  {
    StepKeepsStack(s, a);
    StepKeepsThreads(s, a);
    if a.Go? {
      assert ThreadInv(s.sh, a.t, s.threads[a.t]);
    }
  }

  // ---- refinement of a sequential stack ----

  /** The sequential stack: what an event requires of q and what it leaves. */
  function Spec(q: seq<Ref>, e: Event): Option<seq<Ref>> {
    match e
    case Pushed(n) => Some([n] + q)
    case Popped(n) => if q != [] && q[0] == n then Some(q[1..]) else None
    case SawEmpty => if q == [] then Some(q) else None
  }

  /** Every step is a step of the sequential stack or leaves it alone. */
  lemma StepRefines(s: State, a: Action)
    requires Inv(s) && Enabled(s, a)
    ensures match EventOf(s, a)
            case Some(e) => Spec(s.sh.stack, e) == Some(Do(s, a).sh.stack)
            case None => Do(s, a).sh.stack == s.sh.stack
  {
    if a.Go? && PopSucceeds(s.sh, s.threads[a.t]) { PopInstallsSuccessor(s, a.t); }
  }

  predicate ValidRun(s: State, run: seq<Action>)
    decreases |run|
  {
    run == [] || (Enabled(s, run[0]) && ValidRun(Do(s, run[0]), run[1..]))
  }

  function After(s: State, run: seq<Action>): State
    requires ValidRun(s, run)
    decreases |run|
  {
    if run == [] then s else After(Do(s, run[0]), run[1..])
  }

  function Events(s: State, run: seq<Action>): seq<Event>
    requires ValidRun(s, run)
    decreases |run|
  {
    if run == [] then []
    else
      var rest := Events(Do(s, run[0]), run[1..]);
      match EventOf(s, run[0])
      case Some(e) => [e] + rest
      case None => rest
  }

  function Replay(q: seq<Ref>, events: seq<Event>): Option<seq<Ref>>
    decreases |events|
  {
    if events == [] then Some(q)
    else
      match Spec(q, events[0])
      case Some(q2) => Replay(q2, events[1..])
      case None => None
  }

  lemma ReplayStep(s: State, run: seq<Action>)
    requires Inv(s) && run != [] && ValidRun(s, run)
    ensures Replay(s.sh.stack, Events(s, run)) == Replay(Do(s, run[0]).sh.stack, Events(Do(s, run[0]), run[1..]))
  {
    StepRefines(s, run[0]);
    var rest := Events(Do(s, run[0]), run[1..]);
    match EventOf(s, run[0])
    case Some(e) => assert ([e] + rest)[1..] == rest;
    case None =>
  }

  /** The pushes and pops of any run, in the order of their CAS steps, are a legal history
      of a sequential stack, whatever the users do with popped nodes. */
  lemma {:induction false} RunIsSequential(s: State, run: seq<Action>)
    requires Inv(s) && ValidRun(s, run)
    ensures Inv(After(s, run))
    ensures Replay(s.sh.stack, Events(s, run)) == Some(After(s, run).sh.stack)
    decreases |run|
  {
    if run != [] {
      StepKeepsInv(s, run[0]);
      RunIsSequential(Do(s, run[0]), run[1..]);
      ReplayStep(s, run);
    }
  }

  lemma StackIsLinearizable(run: seq<Action>)
    requires ValidRun(Init(), run)
    ensures Replay([], Events(Init(), run)) == Some(After(Init(), run).sh.stack)
  {
    assert Inv(Init());
    RunIsSequential(Init(), run);
  }

  // ---- why the scan is needed ----

  /** What a pop that has verified its slot may still believe: either its node has stayed
      in the stack, and then the link it reads is the link at the CAS; or it has left, and
      then it cannot be in the stack again before the slot lets go of it. */
  lemma {:induction false} LeavesForGood(s: State, run: seq<Action>, u: nat)
    requires Inv(s) && ValidRun(s, run) && u < |s.threads| && Verified(s.threads[u].pc)
    requires forall i | 0 <= i < |run| :: Actor(run[i]) != Some(u)
    ensures var s2, n := After(s, run), s.threads[u].slot;
            && u < |s2.threads| && s2.threads[u] == s.threads[u]
            && (IsLinked(s2.sh, n) ==> IsLinked(s.sh, n) && NextOf(s2.sh, n) == NextOf(s.sh, n))
    decreases |run|
  {
    hide Inv, SharedAfter, ThreadAfter, EventOf;
    if run != [] {
      assert Actor(run[0]) != Some(u);
      SlotStable(s, run[0], u);
      StepKeepsInv(s, run[0]);
      assert forall i | 0 <= i < |run[1..]| :: run[1..][i] == run[i + 1];
      LeavesForGood(Do(s, run[0]), run[1..], u);
    }
  }
}
