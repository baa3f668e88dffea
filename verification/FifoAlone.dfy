/** A call on the FIFO that nobody interferes with, from any reachable state, also when the
    tail lags behind: it ends, and it has done to the queue what its name says.  And under
    interference: push_front links at the tail only after it has met the queue empty. */
module FifoAlone {
  import opened Reclaim
  import opened FifoShared
  import opened FifoThreads
  import opened FifoSystem
  import opened FifoTheorems

  // ---- push_front leaves the head only for an empty queue ----

  /** The queue was empty in some state of the run. */
  ghost predicate WasEmpty(s: State, run: seq<Action>)
    requires ValidRun(s, run)
    decreases |run|
  {
    Queue(s.sh) == [] || (run != [] && WasEmpty(Do(s, run[0]), run[1..]))
  }

  /** push_front is on its way to a link at the tail. */
  predicate TurnsToTail(th: Thread) {
    th.op.PushFront? && (th.pc.TLoad? || th.pc.TPub? || th.pc.TVer? || th.pc.TNext? || th.pc.THelp? || th.pc.TSetW? || th.pc.TLink?)
  }

  lemma OnlyEmptyTurns(sh: Shared, t: nat, th: Thread)
    requires SharedInv(sh) && ThreadInv(sh, t, th) && CanGo(th) && TurnsToTail(GoThread(sh, th)) && !TurnsToTail(th)
    ensures Queue(sh) == []
  {
    TurnsAtHead(sh, th);
    NoSuccessor(sh, t, th);
  }

  lemma TurnsAtHead(sh: Shared, th: Thread)
    requires CanGo(th) && Shape(th) && TurnsToTail(GoThread(sh, th)) && !TurnsToTail(th)
    ensures th.pc.HNext? && NextOf(sh, th.sH) == NULL
  {
  }

  lemma {:induction false} TailTurnRun(s: State, run: seq<Action>, t: nat, seen: bool)
    requires Inv(s) && ValidRun(s, run) && t < |s.threads| && (TurnsToTail(s.threads[t]) ==> seen)
    ensures t < |After(s, run).threads|
    ensures TurnsToTail(After(s, run).threads[t]) ==> seen || WasEmpty(s, run)
    decreases |run|
  {
    if run != [] {
      StepKeepsInv(s, run[0]);
      TailTurnStep(s, run[0], t);
      TailTurnRun(Do(s, run[0]), run[1..], t, seen || Queue(s.sh) == []);
    }
  }

  lemma TailTurnStep(s: State, a: Action, t: nat)
    requires Inv(s) && Enabled(s, a) && t < |s.threads|
    ensures t < |Do(s, a).threads|
    ensures TurnsToTail(Do(s, a).threads[t]) ==> TurnsToTail(s.threads[t]) || Queue(s.sh) == []
  {
    hide SharedInv, Shape, Recorded, OwnInv, TailSlotInv, HeadSlotInv, PickInv, Queue, GoThread, GoEffect, Apply;
    if a == Go(t) && TurnsToTail(Do(s, a).threads[t]) && !TurnsToTail(s.threads[t]) {
      assert ThreadInv(s.sh, t, s.threads[t]);
      OnlyEmptyTurns(s.sh, t, s.threads[t]);
    }
  }

  /** If push_front links at the tail, the queue was empty at some instant since it last was
      not on its way there.  With a run that starts where the call does: since it began. */
  lemma AppendedFrontSawEmpty(s: State, run: seq<Action>, t: nat)
    requires Inv(s) && ValidRun(s, run) && t < |s.threads| && !TurnsToTail(s.threads[t])
    requires var s2 := After(s, run); t < |s2.threads| && Enabled(s2, Go(t)) && s2.threads[t].op.PushFront?
    requires var e := EventOf(After(s, run), Go(t)); e.Some? && e.value.AppendedFront?
    ensures WasEmpty(s, run)
  {
    RunIsSequential(s, run);
    TailTurnRun(s, run, t, false);
    LinksAtTail(After(s, run).sh, After(s, run).threads[t]);
  }

  lemma LinksAtTail(sh: Shared, th: Thread)
    requires CanGo(th) && th.op.PushFront? && EventBy(sh, th).Some? && EventBy(sh, th).value.AppendedFront?
    ensures TurnsToTail(th)
  {
  }

  // ---- a call that runs alone ----

  /** The shared memory and the thread after one instruction of the thread. */
  function NextShared(sh: Shared, th: Thread): Shared {
    Apply(sh, GoEffect(sh, th))
  }

  /** What a thread has read since it began is still so: the pointers it took over are those
      that stand there now.  push_front goes to the tail with an empty queue only. */
  ghost predicate UpToDate(sh: Shared, th: Thread) {
    && (th.pc.TPub? ==> th.x == sh.tail)
    && (th.pc.TVer? || th.pc.TNext? || th.pc.THelp? || th.pc.TSetW? || th.pc.TLink? ==> th.sT == sh.tail)
    && (th.pc.TSetW? || th.pc.TLink? ==> NextOf(sh, th.sT) == NULL)
    && (th.pc.HPub? ==> th.x == sh.head)
    && (th.pc.HVer? || HeadVerified(th.pc) ==> th.sH == sh.head)
    && !th.pc.TPubDrop? && !th.pc.TDrop? && !th.pc.NRepub?
    && (TurnsToTail(th) ==> |sh.chain| == 1)
  }

  /** What the call has done so far to the queue, which was q when it began. */
  predicate Outcome(sh: Shared, th: Thread, q: seq<Value>) {
    match th.lin
    case None => Queue(sh) == q
    case Some(e) => Spec(q, e) == Some(Queue(sh)) && (e.AppendedFront? ==> q == [])
  }

  ghost predicate Solo(sh: Shared, t: nat, th: Thread, q: seq<Value>) {
    SharedInv(sh) && ThreadInv(sh, t, th) && UpToDate(sh, th) && Outcome(sh, th, q)
  }

  /** How far the instruction is from the end of the call. */
  function PcRank(pc: Pc): nat {
    match pc
    case Idle => 0 case Fin => 0 case Pick => 1 case TSwing => 1
    case HCas => 2 case HSetW => 3 case NVer => 4 case NPub => 5 case HHelp => 6 case HTail => 7
    case TLink => 30 case TSetW => 31 case THelp => 32 case TNext => 33 case TVer => 34 case TPub => 35 case TLoad => 36
    case B0 => 37 case HNext => 38 case HVer => 39 case HPub => 40 case HLoad => 41 case F0 => 42
    case A1 => 43 case TPubDrop => 44 case TDrop => 44 case NRepub => 44
  }

  /** The instructions that are left; a tail that lags costs another turn of the loop. */
  function Rank(sh: Shared, th: Thread): nat {
    PcRank(th.pc) + if |sh.chain| > 0 && sh.tail == Last(sh) then 0 else 20
  }

  lemma AloneChain(sh: Shared)
    requires SharedInv(sh) && |sh.chain| == 1
    ensures sh.tail == sh.head == Last(sh) && NextOf(sh, sh.tail) == NULL && Queue(sh) == []
  {
  }

  /** The tail pointer is linked, and lags exactly if it has a successor. */
  lemma TailLags(sh: Shared)
    requires SharedInv(sh)
    ensures IsLinked(sh, sh.tail) && sh.tail != NULL
    ensures NextOf(sh, sh.tail) == NULL <==> sh.tail == Last(sh)
    ensures sh.tail != Last(sh) ==> NextOf(sh, sh.tail) == Last(sh)
  {
    if sh.tail != Last(sh) { NonNullAt(sh, |sh.chain| - 1); }
  }

  /** Reads find what they found before. */
  lemma ReadStep(sh: Shared, th: Thread)
    requires |sh.chain| > 0 && CanGo(th) && Shape(th) && GoEffect(sh, th) == Nothing && UpToDate(sh, th)
    requires NextOf(sh, sh.tail) == NULL <==> sh.tail == Last(sh)
    requires |sh.chain| == 1 ==> NextOf(sh, sh.tail) == NULL
    requires th.pc.HNext? && NextOf(sh, th.sH) == NULL ==> |sh.chain| == 1
    requires th.pc.NVer? ==> NextOf(sh, th.sH) == th.sN
    requires !th.pc.THelp? && !th.pc.TLink? && !th.pc.HCas? && !th.pc.TSwing?
    ensures UpToDate(sh, GoThread(sh, th)) && Rank(sh, GoThread(sh, th)) < Rank(sh, th)
  {
  }

  lemma ReadKeepsSolo(sh: Shared, t: nat, th: Thread)
    requires SharedInv(sh) && ThreadInv(sh, t, th) && UpToDate(sh, th) && CanGo(th) && GoEffect(sh, th) == Nothing
    requires !th.pc.THelp? && !th.pc.TLink? && !th.pc.HCas? && !th.pc.TSwing?
    ensures UpToDate(sh, GoThread(sh, th)) && Rank(sh, GoThread(sh, th)) < Rank(sh, th)
  {
    TailLags(sh);
    if |sh.chain| == 1 { AloneChain(sh); }
    if th.pc.HNext? && NextOf(sh, th.sH) == NULL { LastOnly(sh, sh.head); }
    ReadStep(sh, th);
  }

  /** The tail is moved on by a thread that found it lagging. */
  lemma HelpStep(sh: Shared, t: nat, th: Thread)
    requires SharedInv(sh) && ThreadInv(sh, t, th) && UpToDate(sh, th) && (th.pc.THelp? || (th.pc.HHelp? && sh.tail == th.sH))
    ensures UpToDate(NextShared(sh, th), GoThread(sh, th))
    ensures Rank(NextShared(sh, th), GoThread(sh, th)) < Rank(sh, th)
  {
    TailLags(sh);
    if |sh.chain| == 1 { AloneChain(sh); }
  }

  /** A node that no other thread can reach is prepared. */
  lemma WriteStep(sh: Shared, t: nat, th: Thread)
    requires SharedInv(sh) && ThreadInv(sh, t, th) && UpToDate(sh, th) && GoEffect(sh, th).WriteNext?
    ensures UpToDate(NextShared(sh, th), GoThread(sh, th))
    ensures Rank(NextShared(sh, th), GoThread(sh, th)) < Rank(sh, th)
  {
    TailLags(sh);
  }

  /** The compare-and-exchange that acts on the queue succeeds, and the call is over but for
      the move of the tail and the pick-up of the value. */
  lemma LinkStep(sh: Shared, t: nat, th: Thread)
    requires SharedInv(sh) && ThreadInv(sh, t, th) && UpToDate(sh, th) && th.pc.TLink?
    ensures UpToDate(NextShared(sh, th), GoThread(sh, th)) && GoThread(sh, th).lin.Some?
    ensures Rank(NextShared(sh, th), GoThread(sh, th)) < Rank(sh, th)
  {
  }

  lemma HeadCasStep(sh: Shared, t: nat, th: Thread)
    requires SharedInv(sh) && ThreadInv(sh, t, th) && UpToDate(sh, th) && th.pc.HCas?
    ensures UpToDate(NextShared(sh, th), GoThread(sh, th)) && GoThread(sh, th).lin.Some?
    ensures Rank(NextShared(sh, th), GoThread(sh, th)) < Rank(sh, th)
  {
    SecondNode(sh);
  }

  lemma EndStep(sh: Shared, t: nat, th: Thread)
    requires SharedInv(sh) && ThreadInv(sh, t, th) && UpToDate(sh, th) && (th.pc.TSwing? || th.pc.Pick?)
    ensures UpToDate(NextShared(sh, th), GoThread(sh, th))
    ensures Rank(NextShared(sh, th), GoThread(sh, th)) < Rank(sh, th)
  {
    TailLags(sh);
  }

  lemma StepIsUpToDate(sh: Shared, t: nat, th: Thread)
    requires SharedInv(sh) && ThreadInv(sh, t, th) && UpToDate(sh, th) && CanGo(th)
    ensures UpToDate(NextShared(sh, th), GoThread(sh, th))
    ensures Rank(NextShared(sh, th), GoThread(sh, th)) < Rank(sh, th)
  {
    if th.pc.TLink? { LinkStep(sh, t, th); }
    else if th.pc.HCas? { HeadCasStep(sh, t, th); }
    else if th.pc.TSwing? || th.pc.Pick? { EndStep(sh, t, th); }
    else if th.pc.THelp? || (th.pc.HHelp? && sh.tail == th.sH) { HelpStep(sh, t, th); }
    else if GoEffect(sh, th).WriteNext? { WriteStep(sh, t, th); }
    else { ReadKeepsSolo(sh, t, th); }
    hide SharedInv, ThreadInv, UpToDate, GoThread;
  }

  /** push_front records a link at the tail only when it was on its way there; what is
      recorded stays, and so do the operation and its value. */
  lemma StepRecords(sh: Shared, th: Thread)
    requires CanGo(th) && Recorded(th)
    ensures th.lin.Some? ==> GoThread(sh, th).lin == th.lin
    ensures th.lin.None? && GoThread(sh, th).lin.Some? && GoThread(sh, th).lin.value.AppendedFront? ==> TurnsToTail(th)
    ensures GoThread(sh, th).op == th.op && GoThread(sh, th).v == th.v
  {
  }

  lemma StepKeepsOutcome(sh: Shared, t: nat, th: Thread, q: seq<Value>)
    requires Solo(sh, t, th, q) && CanGo(th)
    ensures Outcome(NextShared(sh, th), GoThread(sh, th), q)
  {
    GoMatches(sh, t, th);
    StepRecords(sh, th);
    if |sh.chain| == 1 { AloneChain(sh); }
    hide SharedInv, ThreadInv, GoThread, GoEffect, Queue, Apply;
  }

  /** One instruction of a call that runs alone: it knows what there is to know and is closer
      to its end. */
  lemma StepAlone(sh: Shared, t: nat, th: Thread, q: seq<Value>)
    requires Solo(sh, t, th, q) && CanGo(th)
    ensures Solo(NextShared(sh, th), t, GoThread(sh, th), q)
    ensures Rank(NextShared(sh, th), GoThread(sh, th)) < Rank(sh, th)
  {
    GoIsOk(sh, t, th);
    EffectKeepsInv(sh, GoEffect(sh, th));
    GoKeepsThread(sh, t, th);
    StepIsUpToDate(sh, t, th);
    StepKeepsOutcome(sh, t, th, q);
  }

  /** The weak compare-and-exchange at the end of push_back may fail; the tail lags then. */
  lemma SwingFailsAlone(sh: Shared, t: nat, th: Thread, q: seq<Value>)
    requires Solo(sh, t, th, q) && th.pc.TSwing?
    ensures Solo(sh, t, th.(pc := Fin), q) && Rank(sh, th.(pc := Fin)) < Rank(sh, th)
  {
    hide SharedInv, Spec, Queue;
  }

  // ---- runs in which only one thread acts ----

  /** Only thread t acts, inside one call. */
  predicate OnlySteps(run: seq<Action>, t: nat) {
    forall i | 0 <= i < |run| :: run[i] == Go(t) || run[i] == SwingFails(t)
  }

  /** Thread t is in the middle of a call. */
  predicate InCall(th: Thread) {
    !th.pc.Idle? && !th.pc.A1?
  }

  /** Only thread t has moved, and it is still in the same call. */
  predicate SameCall(s: State, s2: State, t: nat) {
    && t < |s.threads| == |s2.threads|
    && InCall(s2.threads[t]) && s2.threads[t].op == s.threads[t].op && s2.threads[t].v == s.threads[t].v
    && forall u | 0 <= u < |s.threads| && u != t :: s2.threads[u] == s.threads[u]
  }

  lemma DoGo(s: State, t: nat)
    requires Enabled(s, Go(t))
    ensures var s2, th := Do(s, Go(t)), s.threads[t];
            s2.sh == NextShared(s.sh, th) && s2.threads == s.threads[t := GoThread(s.sh, th)]
  {
    hide GoThread, GoEffect, Apply, CanGo;
  }

  lemma DoSwingFails(s: State, t: nat)
    requires Enabled(s, SwingFails(t))
    ensures var s2 := Do(s, SwingFails(t)); s2.sh == s.sh && s2.threads == s.threads[t := s.threads[t].(pc := Fin)]
  {
  }

  lemma ActionAlone(s: State, a: Action, t: nat, q: seq<Value>)
    requires t < |s.threads| && Solo(s.sh, t, s.threads[t], q) && InCall(s.threads[t])
    requires Enabled(s, a) && (a == Go(t) || a == SwingFails(t))
    ensures var s2 := Do(s, a);
            && SameCall(s, s2, t) && Solo(s2.sh, t, s2.threads[t], q)
            && Rank(s2.sh, s2.threads[t]) < Rank(s.sh, s.threads[t])
  {
    hide Do, Rank, GoThread, GoEffect, Apply, NextShared, CanGo, SharedInv, Shape, OwnInv, TailSlotInv, HeadSlotInv, PickInv, UpToDate, Outcome;
    var th := s.threads[t];
    if a == Go(t) {
      DoGo(s, t);
      StepAlone(s.sh, t, th, q);
      StepRecords(s.sh, th);
      StaysInCall(s.sh, th);
    } else {
      DoSwingFails(s, t);
      SwingFailsAlone(s.sh, t, th, q);
    }
  }

  lemma StaysInCall(sh: Shared, th: Thread)
    requires CanGo(th)
    ensures InCall(GoThread(sh, th))
  {
  }

  /** However the instructions of the call go on: its knowledge stays good, every one of them
      brings it closer to its end, and nothing happens to the other threads. */
  lemma {:induction false} RunAlone(s: State, run: seq<Action>, t: nat, q: seq<Value>)
    requires ValidRun(s, run) && OnlySteps(run, t) && t < |s.threads| && Solo(s.sh, t, s.threads[t], q) && InCall(s.threads[t])
    ensures var s2 := After(s, run);
            && SameCall(s, s2, t) && Solo(s2.sh, t, s2.threads[t], q)
            && |run| + Rank(s2.sh, s2.threads[t]) <= Rank(s.sh, s.threads[t])
    decreases |run|
  {
    hide Solo, Rank, Do, Enabled;
    if run != [] {
      ActionAlone(s, run[0], t, q);
      RunAlone(Do(s, run[0]), run[1..], t, q);
    }
  }

  /** The call is over, or its next instruction can run. */
  lemma EndsOrGoes(s: State, t: nat)
    requires t < |s.threads| && InCall(s.threads[t])
    ensures s.threads[t].pc.Fin? || Enabled(s, Go(t))
  {
  }

  const LONGEST: nat := 62

  /** What the call has recorded is what it hands back. */
  lemma EndsWith(sh: Shared, t: nat, th: Thread, q: seq<Value>)
    requires Solo(sh, t, th, q) && th.pc.Fin?
    ensures th.op.PushFront? ==> Queue(sh) == [th.v] + q
    ensures th.op.PushBack? ==> Queue(sh) == q + [th.v]
    ensures th.op.Pop? ==> if q == [] then th.res == None && Queue(sh) == q
                           else th.res == Some(q[0]) && Queue(sh) == q[1..]
  {
    hide SharedInv, Shape, OwnInv, TailSlotInv, HeadSlotInv, PickInv, UpToDate, Queue;
  }

  /** How a call that began in s with queue q and ran alone stands in s2. */
  predicate RanAlone(s: State, s2: State, t: nat, steps: nat) {
    && steps <= LONGEST && t < |s.threads| == |s2.threads|
    && (s2.threads[t].pc.Fin? || Enabled(s2, Go(t)))
    && forall u | 0 <= u < |s.threads| && u != t :: s2.threads[u] == s.threads[u]
  }

  lemma CallAlone(s: State, run: seq<Action>, t: nat, q: seq<Value>)
    requires ValidRun(s, run) && OnlySteps(run, t) && t < |s.threads| && Solo(s.sh, t, s.threads[t], q) && InCall(s.threads[t])
    ensures var s2 := After(s, run);
            RanAlone(s, s2, t, |run|) && SameCall(s, s2, t) && Solo(s2.sh, t, s2.threads[t], q)
  {
    hide Solo, Enabled, Do, Rank, After, ValidRun;
    RunAlone(s, run, t, q);
    RankIsSmall(s.sh, t, s.threads[t], q);
    EndsOrGoes(After(s, run), t);
  }

  lemma RankIsSmall(sh: Shared, t: nat, th: Thread, q: seq<Value>)
    requires Solo(sh, t, th, q) && InCall(th)
    ensures Rank(sh, th) <= LONGEST
  {
    hide SharedInv, ThreadInv, Outcome;
  }

  /** The state right after the steps that give a call its nodes. */
  lemma CallsBegin(s: State, a: Action, t: nat)
    requires Inv(s) && Enabled(s, a) && Actor(a) == Some(t)
    requires a.CallPushBack? || a.CallPop? || a.GetSentinel?
    ensures var s2 := Do(s, a); Inv(s2) && Solo(s2.sh, t, s2.threads[t], Queue(s.sh)) && InCall(s2.threads[t])
    ensures var s2 := Do(s, a); s2.threads == s.threads[t := s2.threads[t]]
    ensures a.CallPushBack? ==> Do(s, a).threads[t].op.PushBack? && Do(s, a).threads[t].v == a.v
    ensures a.CallPop? ==> Do(s, a).threads[t].op.Pop?
    ensures a.GetSentinel? ==> Do(s, a).threads[t].op == s.threads[t].op && Do(s, a).threads[t].v == s.threads[t].v
  {
    StepKeepsInv(s, a);
    StepRefines(s, a);
    var s2 := Do(s, a);
    assert ThreadInv(s2.sh, t, s2.threads[t]);
    assert ThreadInv(s.sh, t, s.threads[t]);
  }

  lemma FirstOf(s: State, a: Action, run: seq<Action>)
    requires ValidRun(s, [a] + run)
    ensures Enabled(s, a) && ValidRun(Do(s, a), run) && After(s, [a] + run) == After(Do(s, a), run)
  {
    assert ([a] + run)[1..] == run;
  }

  lemma GivesValue(s: State, t: nat, v: Value, n: Ref)
    requires Inv(s) && Enabled(s, CallPushFront(t, v, n))
    ensures var s2 := Do(s, CallPushFront(t, v, n));
            && Inv(s2) && Queue(s2.sh) == Queue(s.sh) && s2.threads == s.threads[t := s2.threads[t]]
            && s2.threads[t].op.PushFront? && s2.threads[t].v == v
  {
    StepKeepsInv(s, CallPushFront(t, v, n));
    StepRefines(s, CallPushFront(t, v, n));
  }

  /** push_front alone.  The first two steps give it its nodes.  Whatever the state it begins
      in, also with a tail that lags, it ends after at most 62 instructions, and then the
      queue is the old one with v in front. */
  lemma PushFrontAlone(s: State, t: nat, v: Value, n: Ref, sen: Ref, run: seq<Action>)
    requires Inv(s) && ValidRun(s, [CallPushFront(t, v, n), GetSentinel(t, sen)] + run) && OnlySteps(run, t)
    ensures var s2 := After(s, [CallPushFront(t, v, n), GetSentinel(t, sen)] + run);
            && RanAlone(s, s2, t, |run|)
            && (s2.threads[t].pc.Fin? ==> Queue(s2.sh) == [v] + Queue(s.sh))
  {
    hide Do, Enabled, ValidRun, After, Solo, Queue, Inv;
    assert [CallPushFront(t, v, n), GetSentinel(t, sen)] + run == [CallPushFront(t, v, n)] + ([GetSentinel(t, sen)] + run);
    FirstOf(s, CallPushFront(t, v, n), [GetSentinel(t, sen)] + run);
    var s0 := Do(s, CallPushFront(t, v, n));
    FirstOf(s0, GetSentinel(t, sen), run);
    GivesValue(s, t, v, n);
    CallsBegin(s0, GetSentinel(t, sen), t);
    var s1 := Do(s0, GetSentinel(t, sen));
    CallAlone(s1, run, t, Queue(s.sh));
    var s2 := After(s1, run);
    if s2.threads[t].pc.Fin? { EndsWith(s2.sh, t, s2.threads[t], Queue(s.sh)); }
  }

  /** push_back alone. */
  lemma PushBackAlone(s: State, t: nat, v: Value, n: Ref, run: seq<Action>)
    requires Inv(s) && ValidRun(s, [CallPushBack(t, v, n)] + run) && OnlySteps(run, t)
    ensures var s2 := After(s, [CallPushBack(t, v, n)] + run);
            && RanAlone(s, s2, t, |run|)
            && (s2.threads[t].pc.Fin? ==> Queue(s2.sh) == Queue(s.sh) + [v])
  {
    hide Do, Enabled, ValidRun, After, Solo, Queue, Inv;
    FirstOf(s, CallPushBack(t, v, n), run);
    CallsBegin(s, CallPushBack(t, v, n), t);
    var s1 := Do(s, CallPushBack(t, v, n));
    CallAlone(s1, run, t, Queue(s.sh));
    var s2 := After(s1, run);
    if s2.threads[t].pc.Fin? { EndsWith(s2.sh, t, s2.threads[t], Queue(s.sh)); }
  }

  /** pop_front alone: it takes the value in front, and answers nothing if there is none. */
  lemma PopAlone(s: State, t: nat, run: seq<Action>)
    requires Inv(s) && ValidRun(s, [CallPop(t)] + run) && OnlySteps(run, t)
    ensures var s2, q := After(s, [CallPop(t)] + run), Queue(s.sh);
            && RanAlone(s, s2, t, |run|)
            && (s2.threads[t].pc.Fin? ==>
                  if q == [] then s2.threads[t].res == None && Queue(s2.sh) == []
                  else s2.threads[t].res == Some(q[0]) && Queue(s2.sh) == q[1..])
  {
    hide Do, Enabled, ValidRun, After, Solo, Queue, Inv;
    FirstOf(s, CallPop(t), run);
    CallsBegin(s, CallPop(t), t);
    var s1 := Do(s, CallPop(t));
    CallAlone(s1, run, t, Queue(s.sh));
    var s2 := After(s1, run);
    if s2.threads[t].pc.Fin? { EndsWith(s2.sh, t, s2.threads[t], Queue(s.sh)); }
  }
}
