/** The thread-local storage refines a table of live values: every value that is put into
    a cell is dropped exactly once, with the value it then has, before anybody else can
    get its key or its head. */
module TlsTheorems {
  import opened Reclaim
  import opened TlsModel
  import opened TlsProof

  type Table = map<(nat, nat), Value>

  /** The cell's value has not been given to a deallocator yet. */
  predicate IsAlive(s: State, h: nat, k: nat) {
    CellOf(s.sh, h, k).st.InUse?
    || (CellOf(s.sh, h, k).st.Destructing? && s.sh.lock.Some? && s.sh.lock.value < |s.threads|
        && (s.threads[s.sh.lock.value].pc.RCall? || s.threads[s.sh.lock.value].pc.ECall?))
  }

  function Values(s: State): Table {
    map c | c in s.sh.cells && IsAlive(s, c.0, c.1) :: CellOf(s.sh, c.0, c.1).data
  }

  /** The table: what an event requires of it and what it leaves. */
  ghost function Spec(m: Table, e: Event): Option<Table> {
    match e
    case Put(h, k, v) => Some(m[(h, k) := v])
    case Got(h, k, v) => if (h, k) in m && m[(h, k)] == v then Some(m) else None
    case Drop(h, k, v) => if (h, k) in m && m[(h, k)] == v then Some(m - {(h, k)}) else None
    case KeyFreed(k) => if forall c | c in m :: c.1 != k then Some(m) else None
    case HeadFreed(h) => if forall c | c in m :: c.0 != h then Some(m) else None
  }

  lemma InValues(s: State, h: nat, k: nat)
    ensures (h, k) in Values(s) <==> IsAlive(s, h, k)
    ensures IsAlive(s, h, k) ==> Values(s)[(h, k)] == CellOf(s.sh, h, k).data
  {
    if IsAlive(s, h, k) { assert (h, k) in s.sh.cells; }
  }

  /** Two tables that agree cell by cell are the same. */
  lemma SameTable(s: State, m: Table)
    requires forall h: nat, k: nat :: (h, k) in m <==> IsAlive(s, h, k)
    requires forall h: nat, k: nat | IsAlive(s, h, k) :: (h, k) in m && m[(h, k)] == CellOf(s.sh, h, k).data
    ensures Values(s) == m
  {
    forall c | c in m ensures c in Values(s) && Values(s)[c] == m[c] {
      InValues(s, c.0, c.1);
      assert c == (c.0, c.1);
    }
    forall c | c in Values(s) ensures c in m {
      InValues(s, c.0, c.1);
      assert c == (c.0, c.1);
    }
  }

  /** Only the cell the step works on can change. */
  predicate Touches(th: Thread, h: nat, k: nat) {
    th.k == k && ((IsUser(th.pc) && OwnHead(th) == h) || (Destroying(th.pc) && th.h == h))
  }

  lemma Untouched(s: State, t: nat, v: Value, pick: nat, h: nat, k: nat)
    requires Inv(s) && Enabled(s, Go(t, v, pick)) && !Touches(s.threads[t], h, k)
    ensures var s2 := Do(s, Go(t, v, pick));
            IsAlive(s2, h, k) == IsAlive(s, h, k) && (IsAlive(s, h, k) ==> CellOf(s2.sh, h, k).data == CellOf(s.sh, h, k).data)
  {
    var th := s.threads[t];
    assert ThreadInv(s.sh, t, th);
    CellAfter(s.sh, EffectOf(s, Go(t, v, pick)), h, k);
  }

  lemma UserTouch(s: State, t: nat, v: Value, pick: nat)
    requires Inv(s) && Enabled(s, Go(t, v, pick)) && IsUser(s.threads[t].pc) && s.threads[t].head.Some?
    ensures var s2, th := Do(s, Go(t, v, pick)), s.threads[t];
            var h, k := OwnHead(th), th.k;
            match GoEvent(s.sh, th)
            case Some(Put(_, _, w)) => IsAlive(s2, h, k) && CellOf(s2.sh, h, k).data == w
            case _ => IsAlive(s2, h, k) == IsAlive(s, h, k) && (IsAlive(s, h, k) ==> CellOf(s2.sh, h, k).data == CellOf(s.sh, h, k).data)
  {
    var th := s.threads[t];
    assert ThreadInv(s.sh, t, th);
    CellAfter(s.sh, EffectOf(s, Go(t, v, pick)), OwnHead(th), th.k);
  }

  lemma CellTouch(s: State, t: nat, v: Value, pick: nat)
    requires Inv(s) && Enabled(s, Go(t, v, pick)) && Destroying(s.threads[t].pc)
    ensures var s2, th := Do(s, Go(t, v, pick)), s.threads[t];
            if th.pc.RCall? || th.pc.ECall? then IsAlive(s, th.h, th.k) && !IsAlive(s2, th.h, th.k)
            else IsAlive(s2, th.h, th.k) == IsAlive(s, th.h, th.k) && CellOf(s2.sh, th.h, th.k).data == CellOf(s.sh, th.h, th.k).data
  {
    var th := s.threads[t];
    assert ThreadInv(s.sh, t, th);
    CellAfter(s.sh, EffectOf(s, Go(t, v, pick)), th.h, th.k);
  }

  /** The table goes from that of s to that of s2 by the event, or stays as it is. */
  ghost predicate Matches(s: State, s2: State, event: Option<Event>) {
    match event
    case Some(e) => Spec(Values(s), e) == Some(Values(s2))
    case None => Values(s2) == Values(s)
  }

  lemma GoKeepsTable(s: State, t: nat, v: Value, pick: nat)
    requires Inv(s) && Enabled(s, Go(t, v, pick))
    requires var e := GoEvent(s.sh, s.threads[t]); e.Some? ==> !e.value.Put? && !e.value.Drop?
    ensures Values(Do(s, Go(t, v, pick))) == Values(s)
  {
    var s2, th := Do(s, Go(t, v, pick)), s.threads[t];
    assert ThreadInv(s.sh, t, th);
    forall h: nat, k: nat
      ensures IsAlive(s2, h, k) == IsAlive(s, h, k)
      ensures IsAlive(s, h, k) ==> CellOf(s2.sh, h, k).data == CellOf(s.sh, h, k).data
      ensures (h, k) in Values(s) <==> IsAlive(s, h, k)
      ensures IsAlive(s, h, k) ==> Values(s)[(h, k)] == CellOf(s.sh, h, k).data
    {
      InValues(s, h, k);
      if !Touches(th, h, k) { Untouched(s, t, v, pick, h, k); }
      else if IsUser(th.pc) {
        if th.head.Some? { UserTouch(s, t, v, pick); } else { CellAfter(s.sh, EffectOf(s, Go(t, v, pick)), h, k); }
      } else { CellTouch(s, t, v, pick); }
    }
    SameTable(s2, Values(s));
  }

  lemma PutMatches(s: State, t: nat, v: Value, pick: nat)
    requires Inv(s) && Enabled(s, Go(t, v, pick))
    requires var e := GoEvent(s.sh, s.threads[t]); e.Some? && e.value.Put?
    ensures Matches(s, Do(s, Go(t, v, pick)), GoEvent(s.sh, s.threads[t]))
  {
    var s2, th := Do(s, Go(t, v, pick)), s.threads[t];
    assert ThreadInv(s.sh, t, th);
    var e := GoEvent(s.sh, th).value;
    var m := Values(s)[(e.h, e.k) := e.v];
    UserTouch(s, t, v, pick);
    forall h: nat, k: nat
      ensures (h, k) in m <==> IsAlive(s2, h, k)
      ensures IsAlive(s2, h, k) ==> m[(h, k)] == CellOf(s2.sh, h, k).data
    {
      InValues(s, h, k);
      if !Touches(th, h, k) { Untouched(s, t, v, pick, h, k); }
    }
    SameTable(s2, m);
  }

  lemma DropMatches(s: State, t: nat, v: Value, pick: nat)
    requires Inv(s) && Enabled(s, Go(t, v, pick)) && (s.threads[t].pc.RCall? || s.threads[t].pc.ECall?)
    ensures Matches(s, Do(s, Go(t, v, pick)), GoEvent(s.sh, s.threads[t]))
  {
    var s2, th := Do(s, Go(t, v, pick)), s.threads[t];
    var m := Values(s) - {(th.h, th.k)};
    CellTouch(s, t, v, pick);
    InValues(s, th.h, th.k);
    forall h: nat, k: nat
      ensures (h, k) in m <==> IsAlive(s2, h, k)
      ensures IsAlive(s2, h, k) ==> m[(h, k)] == CellOf(s2.sh, h, k).data
    {
      InValues(s, h, k);
      if !Touches(th, h, k) { Untouched(s, t, v, pick, h, k); }
    }
    SameTable(s2, m);
  }

  /** When a key becomes reusable no thread has a value for it; when a head becomes
      reusable it has no value for any key. */
  lemma FreedIsEmpty(s: State, t: nat)
    requires Inv(s) && t < |s.threads|
    ensures s.threads[t].pc.RDone? ==> forall c | c in Values(s) :: c.1 != s.threads[t].k
    ensures s.threads[t].pc.ENext? && s.threads[t].todo == {} ==> forall c | c in Values(s) :: c.0 != s.threads[t].h
  {
    assert ThreadInv(s.sh, t, s.threads[t]);
    forall c | c in Values(s) ensures !IsClear(s.sh, c.0, c.1) {
      InValues(s, c.0, c.1);
    }
  }

  lemma OtherMatches(s: State, a: Action)
    requires Inv(s) && Enabled(s, a) && !a.Go?
    ensures Values(Do(s, a)) == Values(s)
  {
    var s2 := Do(s, a);
    forall h: nat, k: nat
      ensures IsAlive(s2, h, k) == IsAlive(s, h, k)
      ensures IsAlive(s, h, k) ==> CellOf(s2.sh, h, k).data == CellOf(s.sh, h, k).data
      ensures (h, k) in Values(s) <==> IsAlive(s, h, k)
      ensures IsAlive(s, h, k) ==> Values(s)[(h, k)] == CellOf(s.sh, h, k).data
    {
      InValues(s, h, k);
      CellAfter(s.sh, EffectOf(s, a), h, k);
      if !a.Spawn? { assert ThreadInv(s.sh, a.t, s.threads[a.t]); }
    }
    SameTable(s2, Values(s));
  }

  lemma GotMatches(s: State, t: nat)
    requires Inv(s) && t < |s.threads| && s.threads[t].pc.GLoad? && CellOf(s.sh, OwnHead(s.threads[t]), s.threads[t].k).st.InUse?
    ensures Spec(Values(s), GoEvent(s.sh, s.threads[t]).value) == Some(Values(s))
  {
    InValues(s, OwnHead(s.threads[t]), s.threads[t].k);
  }

  /** Every step of the machine is a step of the table or leaves it alone. */
  lemma StepRefines(s: State, a: Action)
    requires Inv(s) && Enabled(s, a)
    ensures Matches(s, Do(s, a), EventOf(s, a))
  {
    if a.Go? {
      match GoEvent(s.sh, s.threads[a.t])
      case Some(Put(_, _, _)) => PutMatches(s, a.t, a.v, a.pick);
      case Some(Drop(_, _, _)) => DropMatches(s, a.t, a.v, a.pick);
      case Some(Got(_, _, _)) =>
        GoKeepsTable(s, a.t, a.v, a.pick);
        GotMatches(s, a.t);
      case _ =>
        GoKeepsTable(s, a.t, a.v, a.pick);
        FreedIsEmpty(s, a.t);
    } else {
      OtherMatches(s, a);
    }
  }

  // ---- runs ----

  predicate ValidRun(s: State, run: seq<Action>)
    decreases |run|
  {
    run == [] || (Enabled(s, run[0]) && ValidRun(Do(s, run[0]), run[1..]))
  }

  function After(s: State, run: seq<Action>): State
    requires ValidRun(s, run)
    decreases |run|
  {
    if run == [] then s else After(Do(s, run[0]), run[1..])
  }

  function Events(s: State, run: seq<Action>): seq<Event>
    requires ValidRun(s, run)
    decreases |run|
  {
    if run == [] then []
    else
      var rest := Events(Do(s, run[0]), run[1..]);
      match EventOf(s, run[0])
      case Some(e) => [e] + rest
      case None => rest
  }

  ghost function Replay(m: Table, events: seq<Event>): Option<Table>
    decreases |events|
  {
    if events == [] then Some(m)
    else
      match Spec(m, events[0])
      case Some(m2) => Replay(m2, events[1..])
      case None => None
  }

  lemma ReplayStep(s: State, run: seq<Action>)
    requires run != [] && ValidRun(s, run) && Matches(s, Do(s, run[0]), EventOf(s, run[0]))
    ensures Replay(Values(s), Events(s, run)) == Replay(Values(Do(s, run[0])), Events(Do(s, run[0]), run[1..]))
  {
    var rest := Events(Do(s, run[0]), run[1..]);
    match EventOf(s, run[0])
    case Some(e) => assert ([e] + rest)[1..] == rest;
    case None =>
  }

  /** Over every run of key allocation and release, get, set, thread exit and reuse of
      content heads the events are a legal history of the table: a get returns the value
      of its cell, a deallocator receives the value of its cell and each value only once,
      and a key or a head is never freed while a value is left. */
  lemma {:induction false} RunIsSequential(s: State, run: seq<Action>)
    requires Inv(s) && ValidRun(s, run)
    ensures Inv(After(s, run))
    ensures Replay(Values(s), Events(s, run)) == Some(Values(After(s, run)))
    decreases |run|
  {
    if run != [] {
      StepKeepsInv(s, run[0]);
      StepRefines(s, run[0]);
      RunIsSequential(Do(s, run[0]), run[1..]);
      ReplayStep(s, run);
    }
  }

  lemma TlsIsSafe(run: seq<Action>)
    requires ValidRun(Init(), run)
    ensures Replay(map[], Events(Init(), run)) == Some(Values(After(Init(), run)))
  {
    InitInv();
    assert Values(Init()) == map[];
    RunIsSequential(Init(), run);
  }

  /** How often cell c begins to hold a value, and how often it is dropped, in a legal
      history that starts with table m. */
  ghost function Begins(m: Table, events: seq<Event>, c: (nat, nat)): nat
    requires Replay(m, events).Some?
    decreases |events|
  {
    if events == [] then 0
    else
      (if events[0].Put? && (events[0].h, events[0].k) == c && c !in m then 1 else 0)
      + Begins(Spec(m, events[0]).value, events[1..], c)
  }

  function Drops(events: seq<Event>, c: (nat, nat)): nat
    decreases |events|
  {
    if events == [] then 0
    else (if events[0].Drop? && (events[0].h, events[0].k) == c then 1 else 0) + Drops(events[1..], c)
  }

  function Holds(m: Table, c: (nat, nat)): nat { if c in m then 1 else 0 }

  /** A cell is destroyed as often as it was initialized, up to the one time it may be in
      use at the end. */
  lemma {:induction false} ExactlyOnce(m: Table, events: seq<Event>, c: (nat, nat))
    requires Replay(m, events).Some?
    ensures Holds(m, c) + Begins(m, events, c) == Drops(events, c) + Holds(Replay(m, events).value, c)
    decreases |events|
  {
    if events != [] { ExactlyOnce(Spec(m, events[0]).value, events[1..], c); }
  }

  // ---- states ----

  /** An unused key has no initialized cell in any thread. */
  lemma UnusedKeyIsClear(s: State, h: nat, k: nat)
    requires Inv(s) && KeyOf(s.sh, k).st.NOT_USED?
    ensures IsClear(s.sh, h, k)
  {
    assert CellOk(s.sh, h, k);
  }

  /** A deallocator runs for the allocation of the key for which the cell was initialized. */
  lemma DropsUnderItsKey(s: State, t: nat)
    requires Inv(s) && t < |s.threads| && (s.threads[t].pc.RCall? || s.threads[t].pc.ECall?)
    ensures var th := s.threads[t]; CellOf(s.sh, th.h, th.k).gen == KeyOf(s.sh, th.k).gen && !KeyOf(s.sh, th.k).st.NOT_USED?
  {
    var th := s.threads[t];
    assert ThreadInv(s.sh, t, th);
    assert CellOk(s.sh, th.h, th.k);
  }

  /** With an allocator the first get_tls of a thread for a key stores and returns what the
      allocator made, whatever an earlier key has left in the cell. */
  lemma FirstGetIsFresh(s: State, t: nat, v: Value, pick: nat)
    requires Inv(s) && Enabled(s, Go(t, v, pick)) && s.threads[t].pc.GStore? && KeyOf(s.sh, s.threads[t].k).alloc
    ensures EventOf(s, Go(t, v, pick)) == Some(Put(OwnHead(s.threads[t]), s.threads[t].k, s.threads[t].v))
  {
    assert ThreadInv(s.sh, t, s.threads[t]);
  }

  /** get_tls and set_tls never meet a cell that is being destroyed. */
  lemma NoUnexpectedState(s: State, t: nat)
    requires Inv(s) && t < |s.threads|
    ensures s.threads[t].pc != Error
  {
    assert ThreadInv(s.sh, t, s.threads[t]);
  }
}
