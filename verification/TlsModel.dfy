/** Dynamic thread-local storage as a state machine: keys are allocated, used and
    released, threads come and go and their content heads are taken over by later threads.
    Two events compete to destroy a cell, the release of its key and the exit of its
    thread; both run under one global mutex. */
module TlsModel {
  import opened Reclaim

  datatype KeyStat = NOT_USED | USED | RELEASING
  datatype CellStat = Uninitialized | InUse | Destructing

  /** gen is auxiliary: how often the key has been allocated. */
  datatype Key = Key(st: KeyStat, alloc: bool, dealloc: bool, gen: nat)

  /** gen is auxiliary: for which allocation of the key the cell was initialized. */
  datatype Cell = Cell(st: CellStat, data: Value, gen: nat)

  /** keys by index, content heads by age, cells by head and key index. */
  datatype Shared = Shared(
    keys: map<nat, Key>, heads: seq<bool>, cells: map<(nat, nat), Cell>, lock: Option<nat>, live: set<nat>)

  function KeyOf(sh: Shared, k: nat): Key { if k in sh.keys then sh.keys[k] else Key(NOT_USED, false, false, 0) }
  function CellOf(sh: Shared, h: nat, k: nat): Cell {
    if (h, k) in sh.cells then sh.cells[(h, k)] else Cell(Uninitialized, 0, 0)
  }
  predicate HeadInUse(sh: Shared, h: nat) { h < |sh.heads| && sh.heads[h] }

  datatype Pc =
    | Idle
    | KAlloc | KDealloc | KReturn                         // allocate_key after its CAS
    | GLoad | GCall | GStore                              // get_tls
    | SLoad | SStat | SData                               // set_tls
    | RLock | RClaim | RTop | RHead | RCas | RCall | RClear | RDone | RUnlock    // release_key
    | ELock | ENext | ECas | ECall | EClear | EUnlock     // thread exit
    | Error                                               // a state the source calls unexpected

  /** head is the content head of the thread; k the key of the call; h the head whose cell
      is at work; pos counts the heads a release has yet to visit, todo the keys an exit
      has yet to visit; v is the argument of set_tls or what the
      allocator has returned, al and de are arguments of allocate_key. */
  datatype Thread = Thread(pc: Pc, head: Option<nat>, k: nat, h: nat, pos: nat, todo: set<nat>, v: Value, al: bool, de: bool)

  function NewThread(): Thread { Thread(Idle, None, 0, 0, 0, {}, 0, false, false) }

  datatype State = State(sh: Shared, threads: seq<Thread>)

  datatype Action =
    | Spawn
    | Attach(t: nat, h: nat)
    | CallAlloc(t: nat, k: nat, al: bool, de: bool)
    | CallGet(t: nat, k: nat)
    | CallSet(t: nat, k: nat, v: Value)
    | CallRelease(t: nat, k: nat)
    | CallExit(t: nat)
    | Go(t: nat, v: Value, pick: nat)     // v is what an allocator returns, pick the next key of an exit

  /** What a step does to the live values: Put is a value stored in a cell, Got one that
      get_tls returned, Drop the destruction of a cell with the value that the deallocator
      receives, KeyFreed and HeadFreed the moments from which others may reuse them. */
  datatype Event =
    | Put(h: nat, k: nat, v: Value)
    | Got(h: nat, k: nat, v: Value)
    | Drop(h: nat, k: nat, v: Value)
    | KeyFreed(k: nat)
    | HeadFreed(h: nat)

  function Init(): State { State(Shared(map[], [], map[], None, {}), []) }

  /** The thread is inside get_tls or set_tls for key k. */
  predicate Using(th: Thread, k: nat) {
    th.k == k && (th.pc.GLoad? || th.pc.GCall? || th.pc.GStore? || th.pc.SLoad? || th.pc.SStat? || th.pc.SData?)
  }

  predicate CanGo(sh: Shared, th: Thread, pick: nat) {
    match th.pc
    case Idle => false
    case Error => false
    case RLock => sh.lock.None?
    case ELock => sh.lock.None?
    case ENext => th.todo == {} || pick in th.todo
    case _ => true
  }

  /** live holds the keys that a user may use: allocated, returned and not given to
      release_key yet.  A key is released when nobody is inside a call for it. */
  predicate Enabled(s: State, a: Action) {
    match a
    case Spawn => true
    case Attach(t, h) =>
      t < |s.threads| && s.threads[t].pc.Idle? && s.threads[t].head.None? && h <= |s.sh.heads| && !HeadInUse(s.sh, h)
    case CallAlloc(t, k, al, de) => t < |s.threads| && s.threads[t].pc.Idle? && KeyOf(s.sh, k).st.NOT_USED?
    case CallGet(t, k) => t < |s.threads| && s.threads[t].pc.Idle? && s.threads[t].head.Some? && k in s.sh.live
    case CallSet(t, k, v) => t < |s.threads| && s.threads[t].pc.Idle? && s.threads[t].head.Some? && k in s.sh.live
    case CallRelease(t, k) =>
      t < |s.threads| && s.threads[t].pc.Idle? && k in s.sh.live && forall u | 0 <= u < |s.threads| :: !Using(s.threads[u], k)
    case CallExit(t) => t < |s.threads| && s.threads[t].pc.Idle? && s.threads[t].head.Some?
    case Go(t, v, pick) => t < |s.threads| && CanGo(s.sh, s.threads[t], pick)
  }

  datatype Effect =
    | Nothing
    | SetCell(h: nat, k: nat, c: Cell)
    | SetKey(k: nat, key: Key)
    | SetHead(h: nat, used: bool)
    | SetLock(holder: Option<nat>)
    | SetLive(k: nat, alive: bool)

  function Apply(sh: Shared, e: Effect): Shared {
    match e
    case Nothing => sh
    case SetCell(h, k, c) => sh.(cells := sh.cells[(h, k) := c])
    case SetKey(k, key) => sh.(keys := sh.keys[k := key])
    case SetHead(h, used) =>
      sh.(heads := if h < |sh.heads| then sh.heads[h := used] else sh.heads + [used])
    case SetLock(holder) => sh.(lock := holder)
    case SetLive(k, alive) => sh.(live := if alive then sh.live + {k} else sh.live - {k})
  }

  /** The keys whose cells exist in a head. */
  function KeysIn(sh: Shared, h: nat): set<nat> { set c | c in sh.cells && c.0 == h :: c.1 }

  function OwnHead(th: Thread): nat { if th.head.Some? then th.head.value else 0 }

  function UserEffect(sh: Shared, th: Thread, v: Value): Effect {
    var c := CellOf(sh, OwnHead(th), th.k);
    match th.pc
    case KAlloc => SetKey(th.k, KeyOf(sh, th.k).(alloc := th.al))
    case KDealloc => SetKey(th.k, KeyOf(sh, th.k).(dealloc := th.de))
    case KReturn => SetLive(th.k, true)
    case GCall => if KeyOf(sh, th.k).alloc then SetCell(OwnHead(th), th.k, c.(data := v)) else Nothing
    case GStore => SetCell(OwnHead(th), th.k, c.(st := InUse, gen := KeyOf(sh, th.k).gen))
    case SStat => SetCell(OwnHead(th), th.k, c.(st := InUse, gen := KeyOf(sh, th.k).gen))
    case SData => SetCell(OwnHead(th), th.k, c.(data := th.v))
    case _ => Nothing
  }

  function UserThread(sh: Shared, th: Thread, v: Value): Thread {
    var c := CellOf(sh, OwnHead(th), th.k);
    match th.pc
    case KAlloc => th.(pc := KDealloc)
    case KDealloc => th.(pc := KReturn)
    case GLoad => th.(pc := match c.st case InUse => Idle case Uninitialized => GCall case Destructing => Error)
    case GCall => th.(v := v, pc := GStore)
    case SLoad => th.(pc := if c.st.Destructing? then Error else SStat)
    case SStat => th.(pc := SData)
    case _ => th.(pc := Idle)
  }

  function UserEvent(sh: Shared, th: Thread): Option<Event> {
    var c := CellOf(sh, OwnHead(th), th.k);
    match th.pc
    case GLoad => if c.st.InUse? then Some(Got(OwnHead(th), th.k, c.data)) else None
    case GStore => Some(Put(OwnHead(th), th.k, c.data))
    case SStat => Some(Put(OwnHead(th), th.k, c.data))
    case SData => Some(Put(OwnHead(th), th.k, th.v))
    case _ => None
  }

  predicate Destroying(pc: Pc) { pc.RCas? || pc.RCall? || pc.RClear? || pc.ECas? || pc.ECall? || pc.EClear? }

  /** The work on one cell, the same for both destruct functions. */
  function CellEffect(sh: Shared, th: Thread): Effect {
    var c := CellOf(sh, th.h, th.k);
    if th.pc.RCas? || th.pc.ECas? then if c.st.InUse? then SetCell(th.h, th.k, c.(st := Destructing)) else Nothing
    else if th.pc.RClear? || th.pc.EClear? then SetCell(th.h, th.k, c.(st := Uninitialized))
    else Nothing
  }

  function CellThread(sh: Shared, th: Thread): Thread {
    var c := CellOf(sh, th.h, th.k);
    match th.pc
    case RCas => if c.st.InUse? then th.(pc := RCall) else th.(pos := th.h, pc := RHead)
    case RCall => th.(pc := RClear)
    case RClear => th.(pos := th.h, pc := RHead)
    case ECas => if c.st.InUse? then th.(pc := ECall) else th.(todo := th.todo - {th.k}, pc := ENext)
    case ECall => th.(pc := EClear)
    case _ => th.(todo := th.todo - {th.k}, pc := ENext)
  }

  function LockedEffect(sh: Shared, t: nat, th: Thread): Effect {
    match th.pc
    case RLock => SetLock(Some(t))
    case RClaim => if KeyOf(sh, th.k).st.USED? then SetKey(th.k, KeyOf(sh, th.k).(st := RELEASING)) else Nothing
    case RDone => SetKey(th.k, KeyOf(sh, th.k).(st := NOT_USED))
    case RUnlock => SetLock(None)
    case ELock => SetLock(Some(t))
    case ENext => if th.todo == {} then SetHead(th.h, false) else Nothing
    case EUnlock => SetLock(None)
    case _ => Nothing
  }

  function LockedThread(sh: Shared, th: Thread, pick: nat): Thread {
    match th.pc
    case RLock => th.(pc := RClaim)
    case RClaim => th.(pc := if KeyOf(sh, th.k).st.USED? then RTop else RUnlock)
    case RTop => th.(pos := |sh.heads|, pc := RHead)
    case RHead =>
      if th.pos == 0 then th.(pc := RDone)
      else if HeadInUse(sh, th.pos - 1) then th.(h := th.pos - 1, pc := RCas)
      else th.(pos := th.pos - 1)
    case RDone => th.(pc := RUnlock)
    case ELock => th.(h := OwnHead(th), todo := KeysIn(sh, OwnHead(th)), pc := ENext)
    case ENext =>
      if th.todo == {} then th.(head := None, pc := EUnlock)
      else if KeyOf(sh, pick).st.USED? then th.(k := pick, pc := ECas)
      else th.(todo := th.todo - {pick})
    case _ => th.(pc := Idle)
  }

  predicate IsUser(pc: Pc) {
    || pc.KAlloc? || pc.KDealloc? || pc.KReturn? || pc.GLoad? || pc.GCall? || pc.GStore? || pc.SLoad? || pc.SStat? || pc.SData?
  }

  function GoEffect(sh: Shared, t: nat, th: Thread, v: Value): Effect {
    if IsUser(th.pc) then UserEffect(sh, th, v)
    else if Destroying(th.pc) then CellEffect(sh, th)
    else LockedEffect(sh, t, th)
  }

  function GoThread(sh: Shared, th: Thread, v: Value, pick: nat): Thread {
    if IsUser(th.pc) then UserThread(sh, th, v)
    else if Destroying(th.pc) then CellThread(sh, th)
    else LockedThread(sh, th, pick)
  }

  function GoEvent(sh: Shared, th: Thread): Option<Event> {
    if IsUser(th.pc) then UserEvent(sh, th)
    else if th.pc.RCall? || th.pc.ECall? then Some(Drop(th.h, th.k, CellOf(sh, th.h, th.k).data))
    else if th.pc.RDone? then Some(KeyFreed(th.k))
    else if th.pc.ENext? && th.todo == {} then Some(HeadFreed(th.h))
    else None
  }

  function EffectOf(s: State, a: Action): Effect
    requires Enabled(s, a)
  {
    match a
    case Attach(t, h) => SetHead(h, true)
    case CallAlloc(t, k, al, de) => SetKey(k, KeyOf(s.sh, k).(st := USED, gen := KeyOf(s.sh, k).gen + 1))
    case CallRelease(t, k) => SetLive(k, false)
    case Go(t, v, pick) => GoEffect(s.sh, t, s.threads[t], v)
    case _ => Nothing
  }

  function ThreadAfter(s: State, a: Action): Thread
    requires Enabled(s, a) && !a.Spawn?
  {
    var th := s.threads[a.t];
    match a
    case Attach(t, h) => th.(head := Some(h))
    case CallAlloc(t, k, al, de) => th.(k := k, al := al, de := de, pc := KAlloc)
    case CallGet(t, k) => th.(k := k, pc := GLoad)
    case CallSet(t, k, v) => th.(k := k, v := v, pc := SLoad)
    case CallRelease(t, k) => th.(k := k, pc := RLock)
    case CallExit(t) => th.(pc := ELock)
    case Go(t, v, pick) => GoThread(s.sh, th, v, pick)
  }

  function Do(s: State, a: Action): State
    requires Enabled(s, a)
  {
    State(Apply(s.sh, EffectOf(s, a)), if a.Spawn? then s.threads + [NewThread()] else s.threads[a.t := ThreadAfter(s, a)])
  }

  function EventOf(s: State, a: Action): Option<Event>
    requires Enabled(s, a)
  {
    if a.Go? then GoEvent(s.sh, s.threads[a.t]) else None
  }
}
