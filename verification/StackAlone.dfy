/** A push or a pop of the lock-free stack that nobody interferes with, from any reachable
    state: it ends within a few instructions and has done what its name says. */
module StackAlone {
  import opened Reclaim
  import opened LockfreeStack

  /** What the thread has read is still so. */
  predicate UpToDate(sh: Shared, th: Thread) {
    && (th.pc.PushStore? || th.pc.PushCas? ==> th.x == sh.head)
    && (th.pc.PopPub? ==> th.x == sh.head)
    && (th.pc.PopVer? || Verified(th.pc) ==> th.slot == sh.head)
  }

  /** What the call makes of the stack q: with a node to push, or as a pop. */
  predicate Outcome(sh: Shared, th: Thread, q: seq<Ref>, n: Ref) {
    if !th.pc.Fin? then sh.stack == q && (n != NULL ==> th.own == n) && (n != NULL <==> Pushing(th.pc))
    else if n != NULL then sh.stack == [n] + q
    else if q == [] then th.res == NULL && sh.stack == []
    else th.res == q[0] && sh.stack == q[1..]
  }

  predicate Pushing(pc: Pc) { pc.PushLoad? || pc.PushStore? || pc.PushCas? }

  function StepsLeft(pc: Pc): nat {
    match pc
    case PushLoad => 3 case PushStore => 2 case PushCas => 1
    case PopLoad => 5 case PopPub => 4 case PopVer => 3 case PopNext => 2 case PopCas => 1
    case _ => 0
  }

  lemma ActionAlone(s: State, t: nat, q: seq<Ref>, n: Ref)
    requires Inv(s) && Enabled(s, Go(t)) && UpToDate(s.sh, s.threads[t]) && Outcome(s.sh, s.threads[t], q, n)
    ensures var s2 := Do(s, Go(t));
            && UpToDate(s2.sh, s2.threads[t]) && Outcome(s2.sh, s2.threads[t], q, n)
            && StepsLeft(s2.threads[t].pc) < StepsLeft(s.threads[t].pc) && !s2.threads[t].pc.Idle?
  {
    if PopSucceeds(s.sh, s.threads[t]) { PopInstallsSuccessor(s, t); }
  }

  predicate OnlySteps(run: seq<Action>, t: nat) {
    forall i | 0 <= i < |run| :: run[i] == Go(t)
  }

  lemma {:induction false} RunAlone(s: State, run: seq<Action>, t: nat, q: seq<Ref>, n: Ref)
    requires Inv(s) && ValidRun(s, run) && OnlySteps(run, t) && t < |s.threads| && !s.threads[t].pc.Idle?
    requires UpToDate(s.sh, s.threads[t]) && Outcome(s.sh, s.threads[t], q, n)
    ensures var s2 := After(s, run);
            && t < |s2.threads| == |s.threads| && !s2.threads[t].pc.Idle? && Outcome(s2.sh, s2.threads[t], q, n)
            && |run| + StepsLeft(s2.threads[t].pc) <= StepsLeft(s.threads[t].pc)
            && forall u | 0 <= u < |s.threads| && u != t :: s2.threads[u] == s.threads[u]
    decreases |run|
  {
    if run != [] {
      StepKeepsInv(s, run[0]);
      ActionAlone(s, t, q, n);
      hide Inv, UpToDate, Outcome, StepsLeft;
      RunAlone(Do(s, run[0]), run[1..], t, q, n);
    }
  }

  lemma CallBegins(s: State, a: Action)
    requires Inv(s) && Enabled(s, a) && (a.CallPush? || a.CallPop?)
    ensures var s2 := Do(s, a);
            && Inv(s2) && UpToDate(s2.sh, s2.threads[a.t]) && !s2.threads[a.t].pc.Idle? && StepsLeft(s2.threads[a.t].pc) <= 5
            && Outcome(s2.sh, s2.threads[a.t], s.sh.stack, if a.CallPush? then a.n else NULL)
            && s2.threads == s.threads[a.t := s2.threads[a.t]]
  {
    StepKeepsInv(s, a);
  }

  /** A call that runs alone from any state of any run takes at most five instructions, of
      which the next one can always run; then a push has put its node on top, and a pop has
      taken the top node, or nothing if and only if there was none. */
  lemma CallAlone(s: State, a: Action, run: seq<Action>)
    requires Inv(s) && (a.CallPush? || a.CallPop?) && ValidRun(s, [a] + run) && OnlySteps(run, a.t)
    ensures var s2, q := After(s, [a] + run), s.sh.stack;
            && |run| <= 5 && a.t < |s2.threads| == |s.threads|
            && (s2.threads[a.t].pc.Fin? || Enabled(s2, Go(a.t)))
            && (s2.threads[a.t].pc.Fin? ==>
                  if a.CallPush? then s2.sh.stack == [a.n] + q
                  else if q == [] then s2.threads[a.t].res == NULL && s2.sh.stack == []
                  else s2.threads[a.t].res == q[0] && s2.sh.stack == q[1..])
            && forall u | 0 <= u < |s.threads| && u != a.t :: s2.threads[u] == s.threads[u]
  {
    hide Inv, Do, UpToDate, StepsLeft;
    assert ([a] + run)[0] == a && ([a] + run)[1..] == run;
    CallBegins(s, a);
    RunAlone(Do(s, a), run, a.t, s.sh.stack, if a.CallPush? then a.n else NULL);
  }
}
