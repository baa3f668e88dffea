/** The threads of the lock-free list: find_if with its clean-up of marked nodes, the
    two inserts, the pops at both ends and the two removals, as step machines.  Every
    load, store and compare-and-exchange is one step; publishing a hazard is a step of
    its own, apart from the load that found the pointer. */
module ListThreads {
  import opened MarkedLink
  import opened Reclaim
  import opened ListShared

  datatype Op = PushFront | PushBack | InsertIf | PopFront | PopBack | RemoveOne | RemoveAll

  /** What a step did to the list: at which position, counted in elements. */
  datatype Event =
    | Inserted(k: nat, v: Value)
    | Removed(k: nat, v: Value)
    | SawEmpty                    // a pop saw the head point at the sentinel

  datatype Pc =
    | Idle
    | FStart | FHeadLoad | FHeadPub | FHeadVer | FHeadRepub     // from the head
    | FNextLoad | FNextPub | FNextVer | FNextRepub              // look at the link of curr
    | FPurge | FPurgeRepub | PurgeClear | PurgeGive             // unlink a marked node
    | FProbe | FMark                                            // the predicate, and the mark again
    | IStore | ICas | IRepub                                    // the inserts
    | MLoad | MCas | TCas                                       // try_set_mark, without and with an expected link
    | RLoad | RCas | RRepub                                     // remove unlinks what it marked
    | Pick                                                      // the value is moved out
    | Fin                                                       // the hazard pointers are being destroyed

  /** slots are the hazard slots of the thread; kp, kc and kn say which one belongs to
      hp_prev, hp_curr and hp_next: a swap of hazard pointers exchanges the owners and
      leaves the contents where they are.  x is a loaded word whose pointer has not been
      published yet, w the expected word of a marking CAS, pur an unlinked node on its
      way to the pool, claimed the result of remove_mark inside remove.  lin and mine are
      auxiliary: what the call has done to the list, and how many nodes it has marked. */
  datatype Thread = Thread(
    pc: Pc, op: Op, v: Value, want: iset<Value>,
    own: Ref, prev: Ref, curr: Word, nx: Word, x: Word, w: Word, pur: Ref,
    slots: seq<Ref>, kp: nat, kc: nat, kn: nat,
    claimed: bool, ans: nat, mine: nat,
    lin: Option<Event>, res: Option<Value>)

  function NoWord(): Word { Word(NULL, false) }

  ghost function IdleThread(): Thread {
    Thread(Idle, PopFront, 0, iset{}, NULL, NULL, NoWord(), NoWord(), NoWord(), NoWord(), NULL,
           [NULL, NULL, NULL], 0, 1, 2, false, 0, 0, None, None)
  }

  function SlotAt(th: Thread, k: nat): Ref {
    if k < |th.slots| then th.slots[k] else NULL
  }

  function Publish(th: Thread, k: nat, n: Ref): Thread {
    if k < |th.slots| then th.(slots := th.slots[k := n]) else th
  }

  /** The result of the predicate of the search at curr. */
  predicate Hit(sh: Shared, th: Thread) {
    match th.op
    case PushFront => true
    case PopFront => true
    case PushBack => false
    case PopBack => WordOf(sh, th.curr.p) == Word(SENTINEL, false)
    case _ => ValOf(sh, th.curr.p).Some? && ValOf(sh, th.curr.p).value in th.want
  }

  /** find_if returns with curr at the sentinel. */
  function AtEnd(th: Thread): Thread {
    match th.op
    case PushFront => th.(pc := IStore)
    case PushBack => th.(pc := IStore)
    case InsertIf => th.(pc := IStore)
    case PopFront => if th.prev == HEAD then th.(lin := Some(SawEmpty), pc := Fin) else th.(pc := FStart)
    case PopBack => if th.prev == HEAD then th.(lin := Some(SawEmpty), pc := Fin) else th.(pc := FStart)
    case RemoveOne => th.(pc := Fin)
    case RemoveAll => th.(pc := Fin)
  }

  /** find_if returns with curr at a node. */
  function AtNode(th: Thread): Thread {
    match th.op
    case PushFront => th.(pc := IStore)
    case PushBack => th.(pc := IStore)
    case InsertIf => th.(pc := IStore)
    case PopFront => th.(pc := if th.prev == HEAD then MLoad else FStart)
    case PopBack => th.(pc := TCas)
    case RemoveOne => th.(pc := MLoad)
    case RemoveAll => th.(pc := MLoad)
  }

  function AtCurr(th: Thread): Thread {
    if th.curr.p == SENTINEL then AtEnd(th) else th.(pc := FNextLoad)
  }

  /** The two swaps: prev takes over curr, and curr takes over next. */
  function Advance(th: Thread): Thread {
    AtCurr(th.(prev := th.curr.p, curr := th.nx, nx := Word(th.prev, false), kp := th.kc, kc := th.kn, kn := th.kp))
  }

  /** The mark has been set by this thread. */
  function Claim(sh: Shared, th: Thread): Thread {
    if th.op.RemoveAll? then th.(claimed := true, mine := th.mine + 1, pc := RLoad)
    else
      th.(mine := th.mine + 1, pc := Pick,
          lin := Some(Removed(Position(sh, th.curr.p), ValueAt(sh, th.curr.p))))
  }

  /** remove returns. */
  function AfterRemove(th: Thread): Thread {
    if th.claimed then th.(claimed := false, ans := th.ans + 1, pc := FStart) else th.(pc := FStart)
  }

  /** The effect of the next instruction of thread t. */
  function GoEffect(sh: Shared, t: nat, th: Thread): Effect {
    match th.pc
    case FPurge => if WordOf(sh, th.prev) == Word(th.curr.p, false) then Unlink(th.prev, th.curr.p, t) else Nothing
    case PurgeGive => Give(th.pur)
    case IStore => WriteWord(th.own, Word(th.curr.p, false))
    case ICas => if WordOf(sh, th.prev) == Word(th.curr.p, false) then Insert(th.prev, th.own) else Nothing
    case MCas => if WordOf(sh, th.curr.p) == Word(th.w.p, false) then SetMark(th.curr.p) else Nothing
    case TCas => if WordOf(sh, th.curr.p) == Word(SENTINEL, false) then SetMark(th.curr.p) else Nothing
    case RCas => if WordOf(sh, th.prev) == Word(th.curr.p, false) then Unlink(th.prev, th.curr.p, t) else Nothing
    case Pick => Take(th.curr.p)
    case _ => Nothing
  }

  function HeadStep(sh: Shared, th: Thread): Thread {
    match th.pc
    case FStart => Publish(th, th.kp, HEAD).(prev := HEAD, pc := FHeadLoad)
    case FHeadLoad => th.(x := WordOf(sh, HEAD), pc := FHeadPub)
    case FHeadPub => Publish(th, th.kc, th.x.p).(curr := th.x, pc := FHeadVer)
    case FHeadVer =>
      if WordOf(sh, HEAD) == th.curr then AtCurr(th) else th.(x := WordOf(sh, HEAD), pc := FHeadRepub)
    case _ => Publish(th, th.kc, th.x.p).(curr := th.x, pc := FStart)
  }

  function LookStep(sh: Shared, th: Thread): Thread {
    match th.pc
    case FNextLoad => th.(x := WordOf(sh, th.curr.p), pc := FNextPub)
    case FNextPub => Publish(th, th.kn, th.x.p).(nx := th.x, pc := FNextVer)
    case FNextVer =>
      if WordOf(sh, th.curr.p) != th.nx then th.(x := WordOf(sh, th.curr.p), pc := FNextRepub)
      else if th.nx.p == NULL then AtEnd(Publish(th, th.kc, SENTINEL).(curr := Word(SENTINEL, false)))
      else th.(pc := if th.nx.mark then FPurge else FProbe)
    case _ => Publish(th, th.kn, th.x.p).(nx := th.x, pc := FNextLoad)
  }

  function TestStep(sh: Shared, th: Thread): Thread {
    match th.pc
    case FProbe => if Hit(sh, th) then th.(pc := FMark) else Advance(th)
    case _ => if WordOf(sh, th.curr.p).mark then Advance(th) else AtNode(th)
  }

  function PurgeStep(sh: Shared, th: Thread): Thread {
    match th.pc
    case FPurge =>
      if WordOf(sh, th.prev) == Word(th.curr.p, false) then th.(pur := th.curr.p, pc := PurgeClear)
      else th.(x := WordOf(sh, th.prev), pc := FPurgeRepub)
    case FPurgeRepub => Publish(th, th.kc, th.x.p).(curr := th.x, pc := FStart)
    case PurgeClear => Publish(th, th.kc, NULL).(curr := Word(NULL, th.curr.mark), pc := PurgeGive)
    case _ => AfterRemove(th.(pur := NULL))
  }

  function InsertStep(sh: Shared, th: Thread): Thread {
    match th.pc
    case IStore => th.(pc := ICas)
    case ICas =>
      if WordOf(sh, th.prev) == Word(th.curr.p, false)
      then th.(own := NULL, lin := Some(Inserted(PositionAfter(sh, th.prev), th.v)), pc := Fin)
      else th.(x := WordOf(sh, th.prev), pc := IRepub)
    case _ =>
      Publish(th, th.kc, th.x.p).(curr := th.x, pc := if th.op.PushFront? && !th.x.mark then IStore else FStart)
  }

  function MarkStep(sh: Shared, th: Thread): Thread {
    match th.pc
    case MLoad =>
      if WordOf(sh, th.curr.p).mark then th.(pc := FStart) else th.(w := WordOf(sh, th.curr.p), pc := MCas)
    case MCas =>
      if WordOf(sh, th.curr.p) == Word(th.w.p, false) then Claim(sh, th)
      else if WordOf(sh, th.curr.p).mark then th.(pc := FStart)
      else th.(w := WordOf(sh, th.curr.p))
    case _ => if WordOf(sh, th.curr.p) == Word(SENTINEL, false) then Claim(sh, th) else th.(pc := FStart)
  }

  function RemoveStep(sh: Shared, th: Thread): Thread {
    match th.pc
    case RLoad => th.(w := WordOf(sh, th.curr.p), pc := RCas)
    case RCas =>
      if WordOf(sh, th.prev) == Word(th.curr.p, false) then th.(pur := th.curr.p, pc := PurgeClear)
      else th.(x := WordOf(sh, th.prev), pc := RRepub)
    case RRepub => AfterRemove(Publish(th, th.kc, th.x.p).(curr := th.x))
    case _ => th.(res := ValOf(sh, th.curr.p), pc := Fin)
  }

  /** Where the next instruction leaves the thread. */
  function GoThread(sh: Shared, th: Thread): Thread {
    match th.pc
    case Idle => th
    case Fin => th
    case FStart | FHeadLoad | FHeadPub | FHeadVer | FHeadRepub => HeadStep(sh, th)
    case FNextLoad | FNextPub | FNextVer | FNextRepub => LookStep(sh, th)
    case FProbe | FMark => TestStep(sh, th)
    case FPurge | FPurgeRepub | PurgeClear | PurgeGive => PurgeStep(sh, th)
    case IStore | ICas | IRepub => InsertStep(sh, th)
    case MLoad | MCas | TCas => MarkStep(sh, th)
    case RLoad | RCas | RRepub | Pick => RemoveStep(sh, th)
  }

  predicate CanGo(th: Thread) { !th.pc.Idle? && !th.pc.Fin? }

  // ---- what holds of one thread ----

  predicate Inserts(op: Op) { op.PushFront? || op.PushBack? || op.InsertIf? }

  /** prev is protected. */
  predicate OnPrev(pc: Pc) {
    || pc.FHeadLoad? || pc.FHeadPub? || pc.FHeadVer? || pc.FNextLoad? || pc.FNextPub? || pc.FNextVer? || pc.FNextRepub?
    || pc.FPurge? || pc.FProbe? || pc.FMark? || pc.IStore? || pc.ICas? || pc.IRepub?
    || pc.MLoad? || pc.MCas? || pc.TCas? || pc.RLoad? || pc.RCas?
  }

  /** curr is a protected node between the ends. */
  predicate OnCurr(pc: Pc) {
    || pc.FNextLoad? || pc.FNextPub? || pc.FNextVer? || pc.FNextRepub? || pc.FPurge? || pc.FProbe? || pc.FMark?
    || pc.MLoad? || pc.MCas? || pc.TCas? || pc.RLoad? || pc.RCas? || pc.Pick?
  }

  /** next is protected. */
  predicate OnNext(pc: Pc) { pc.FProbe? || pc.FMark? }

  predicate Searching(pc: Pc) {
    || pc.FStart? || pc.FHeadLoad? || pc.FHeadPub? || pc.FHeadVer? || pc.FHeadRepub? || pc.FNextLoad? || pc.FNextPub?
    || pc.FNextVer? || pc.FNextRepub? || pc.FPurge? || pc.FPurgeRepub? || pc.PurgeClear? || pc.PurgeGive? || pc.FProbe? || pc.FMark?
  }

  predicate Inserting(pc: Pc) { pc.IStore? || pc.ICas? || pc.IRepub? }

  predicate SlotsOk(th: Thread) {
    |th.slots| == SLOTS_PER_THREAD && th.kp < 3 && th.kc < 3 && th.kn < 3 && th.kp != th.kc && th.kp != th.kn && th.kc != th.kn
  }

  /** Which operation can be at which instruction, and which locals are in use. */
  predicate Shape(th: Thread) {
    && SlotsOk(th)
    && (Inserting(th.pc) ==> Inserts(th.op))
    && (th.pc.MLoad? || th.pc.MCas? ==> th.op.PopFront? || th.op.RemoveOne? || th.op.RemoveAll?)
    && (th.pc.TCas? ==> th.op.PopBack?)
    && (th.pc.RLoad? || th.pc.RCas? || th.pc.RRepub? ==> th.op.RemoveAll? && th.claimed)
    && (th.pc.Pick? ==> !Inserts(th.op) && !th.op.RemoveAll?)
    && (Inserts(th.op) && (Searching(th.pc) || Inserting(th.pc)) ==> th.own != NULL)
    && (!Inserts(th.op) || th.pc.Fin? ==> th.own == NULL)
    && (th.pc.FHeadLoad? || th.pc.FHeadPub? || th.pc.FHeadVer? ==> th.prev == HEAD)
    && (th.op.PushBack? ==> !th.pc.FMark?)
    && (th.op.PushBack? && (th.pc.IStore? || th.pc.ICas?) ==> th.curr.p == SENTINEL)
    && (th.pc.MCas? ==> !th.w.mark)
    && (th.op.PopFront? && (th.pc.MLoad? || th.pc.MCas?) ==> th.prev == HEAD)
    && (th.pc.FHeadVer? ==> SlotAt(th, th.kc) == th.curr.p)
    && (th.pc.FNextVer? ==> SlotAt(th, th.kn) == th.nx.p)
  }

  /** A call acts on the list once, and returns what it did; remove_all_if acts many
      times and counts. */
  predicate Recorded(th: Thread) {
    && (th.claimed ==> th.op.RemoveAll? && (th.pc.RLoad? || th.pc.RCas? || th.pc.RRepub? || th.pc.PurgeClear? || th.pc.PurgeGive?))
    && (th.op.RemoveAll? ==> th.lin == None && th.mine == th.ans + (if th.claimed then 1 else 0))
    && (!th.op.RemoveAll? ==>
          if th.pc.Pick? then th.lin.Some? && th.lin.value.Removed?
          else if th.pc.Fin? then
            match th.op
            case PopFront => if th.res.Some? then th.lin.Some? && th.lin.value.Removed? && th.lin.value.v == th.res.value else th.lin == Some(SawEmpty)
            case PopBack => if th.res.Some? then th.lin.Some? && th.lin.value.Removed? && th.lin.value.v == th.res.value else th.lin == Some(SawEmpty)
            case RemoveOne => if th.res.Some? then th.lin.Some? && th.lin.value.Removed? && th.lin.value.v == th.res.value else th.lin == None
            case _ => th.lin.Some? && th.lin.value.Inserted? && th.lin.value.v == th.v
          else th.lin == None)
    && (!th.pc.Fin? ==> th.res == None)
  }

  predicate OwnInv(sh: Shared, t: nat, th: Thread) {
    && (th.own != NULL ==> Alive(sh, th.own) == Owned(t) && ValOf(sh, th.own) == Some(th.v))
    && (th.pc.ICas? ==> WordOf(sh, th.own) == Word(th.curr.p, false))
    && (th.pc.PurgeClear? || th.pc.PurgeGive? ==> Alive(sh, th.pur) == Unlinked(t))
  }

  predicate Guards(sh: Shared, t: nat, th: Thread, k: nat, n: Ref) {
    n != NULL && k < SLOTS_PER_THREAD && SlotAt(th, k) == n && Protected(sh.life, t, k, n)
  }

  predicate PrevInv(sh: Shared, t: nat, th: Thread) {
    OnPrev(th.pc) ==>
      && th.prev != SENTINEL
      && Guards(sh, t, th, th.kp, th.prev)
      && (th.op.PushFront? ==> th.prev == HEAD || Marked(sh, th.prev))
  }

  predicate CurrInv(sh: Shared, t: nat, th: Thread) {
    && (OnCurr(th.pc) ==> !IsEnd(th.curr.p) && Guards(sh, t, th, th.kc, th.curr.p))
    && (th.pc.FPurge? ==> th.nx.mark && WordOf(sh, th.curr.p) == th.nx)
    && (th.pc.RLoad? || th.pc.RCas? || th.pc.Pick? ==> Marked(sh, th.curr.p))
  }

  predicate NextInv(sh: Shared, t: nat, th: Thread) {
    OnNext(th.pc) ==> th.nx.p != HEAD && Guards(sh, t, th, th.kn, th.nx.p)
  }

  predicate Selects(op: Op) { op.InsertIf? || op.RemoveOne? || op.RemoveAll? }

  /** The node found satisfies the predicate, for as long as it keeps its value. */
  predicate WantInv(sh: Shared, t: nat, th: Thread) {
    && (Selects(th.op) && (th.pc.FMark? || th.pc.MLoad? || th.pc.MCas?) ==>
          ValOf(sh, th.curr.p).Some? ==> ValOf(sh, th.curr.p).value in th.want)
    && (th.op.InsertIf? && (th.pc.IStore? || th.pc.ICas?) && th.curr.p != SENTINEL ==>
          && Guards(sh, t, th, th.kc, th.curr.p)
          && (ValOf(sh, th.curr.p).Some? ==> ValOf(sh, th.curr.p).value in th.want))
  }

  /** The value is still the one the node had when the mark was set. */
  predicate PickInv(sh: Shared, t: nat, th: Thread) {
    th.pc.Pick? && th.lin.Some? && th.lin.value.Removed? ==> ValOf(sh, th.curr.p) == Some(th.lin.value.v)
  }

  predicate ThreadInv(sh: Shared, t: nat, th: Thread) {
    && Shape(th) && Recorded(th) && OwnInv(sh, t, th)
    && PrevInv(sh, t, th) && CurrInv(sh, t, th) && NextInv(sh, t, th) && WantInv(sh, t, th) && PickInv(sh, t, th)
  }

  // ---- a step of one agent leaves what another thread knows intact ----

  /** The effect e is not taken by thread u, whose registers are th. */
  predicate Foreign(sh: Shared, e: Effect, u: nat, th: Thread) {
    match e
    case WriteWord(n, w) => Alive(sh, n) != Owned(u)
    case Insert(p, n) => Alive(sh, n) != Owned(u)
    case Take(n) => th.pc.Pick? ==> th.curr.p != n
    case Give(n) => Alive(sh, n) != Unlinked(u)
    case BeginScan(n, threads) => u < threads
    case Visit(n, slot) => slot.0 == u ==> SlotAt(th, slot.1) != n
    case _ => true
  }

  /** A private node and an unlinked one stay where they are while others step. */
  lemma PrivateStable(sh: Shared, e: Effect, u: nat, th: Thread, n: Ref)
    requires SharedInv(sh) && EffectOk(sh, e) && Foreign(sh, e, u, th)
    requires Alive(sh, n) == Owned(u) || Alive(sh, n) == Unlinked(u)
    ensures Alive(Apply(sh, e), n) == Alive(sh, n)
    ensures Alive(sh, n) == Owned(u) ==> ValOf(Apply(sh, e), n) == ValOf(sh, n) && WordOf(Apply(sh, e), n) == WordOf(sh, n)
  {
    if e.Unlink? { SuccessorLinked(sh, e.p); }
  }

  /** A node outside the list's recycling keeps its mark, and with the mark its link. */
  lemma MarkStable(sh: Shared, e: Effect, n: Ref)
    requires SharedInv(sh) && EffectOk(sh, e) && (IsLinked(sh, n) || Gone(sh, n))
    ensures Marked(sh, n) ==> WordOf(Apply(sh, e), n) == WordOf(sh, n)
    ensures ValOf(Apply(sh, e), n) == ValOf(sh, n) || (ValOf(Apply(sh, e), n) == None && e == Take(n))
  {
  }

  /** A node guarded by a slot of thread u stays guarded while the slot keeps it. */
  lemma GuardStable(sh: Shared, e: Effect, u: nat, th: Thread, k: nat, n: Ref)
    requires EffectOk(sh, e) && Foreign(sh, e, u, th) && Guards(sh, u, th, k, n)
    ensures Guards(Apply(sh, e), u, th, k, n)
  {
  }

  lemma OwnStable(sh: Shared, e: Effect, u: nat, th: Thread)
    requires SharedInv(sh) && EffectOk(sh, e) && Foreign(sh, e, u, th) && OwnInv(sh, u, th)
    requires th.pc.ICas? ==> th.own != NULL
    ensures OwnInv(Apply(sh, e), u, th)
  {
    if th.own != NULL { PrivateStable(sh, e, u, th, th.own); }
    if th.pc.PurgeClear? || th.pc.PurgeGive? { PrivateStable(sh, e, u, th, th.pur); }
  }

  lemma PrevStable(sh: Shared, e: Effect, u: nat, th: Thread)
    requires SharedInv(sh) && EffectOk(sh, e) && Foreign(sh, e, u, th) && PrevInv(sh, u, th)
    ensures PrevInv(Apply(sh, e), u, th)
  {
    if OnPrev(th.pc) {
      GuardStable(sh, e, u, th, th.kp, th.prev);
      MarkStable(sh, e, th.prev);
    }
  }

  lemma CurrStable(sh: Shared, e: Effect, u: nat, th: Thread)
    requires SharedInv(sh) && EffectOk(sh, e) && Foreign(sh, e, u, th)
    requires CurrInv(sh, u, th) && WantInv(sh, u, th) && PickInv(sh, u, th)
    ensures CurrInv(Apply(sh, e), u, th) && WantInv(Apply(sh, e), u, th) && PickInv(Apply(sh, e), u, th)
  {
    if OnCurr(th.pc) || (th.op.InsertIf? && (th.pc.IStore? || th.pc.ICas?) && th.curr.p != SENTINEL) {
      GuardStable(sh, e, u, th, th.kc, th.curr.p);
      MarkStable(sh, e, th.curr.p);
    }
  }

  lemma NextStable(sh: Shared, e: Effect, u: nat, th: Thread)
    requires SharedInv(sh) && EffectOk(sh, e) && Foreign(sh, e, u, th) && NextInv(sh, u, th)
    ensures NextInv(Apply(sh, e), u, th)
  {
    if OnNext(th.pc) { GuardStable(sh, e, u, th, th.kn, th.nx.p); }
  }

  lemma ThreadStable(sh: Shared, e: Effect, u: nat, th: Thread)
    requires SharedInv(sh) && EffectOk(sh, e) && Foreign(sh, e, u, th) && ThreadInv(sh, u, th)
    ensures ThreadInv(Apply(sh, e), u, th)
  {
    OwnStable(sh, e, u, th);
    PrevStable(sh, e, u, th);
    CurrStable(sh, e, u, th);
    NextStable(sh, e, u, th);
  }

  // ---- a thread's own step ----

  /** A guarded node without a mark is in the list. */
  lemma UnmarkedIsLinked(sh: Shared, t: nat, th: Thread, k: nat, n: Ref)
    requires SharedInv(sh) && Guards(sh, t, th, k, n) && !Marked(sh, n)
    ensures IsLinked(sh, n)
  {
    assert NodeOk(sh, n);
  }

  lemma GoIsOk(sh: Shared, t: nat, th: Thread)
    requires SharedInv(sh) && ThreadInv(sh, t, th) && CanGo(th)
    ensures EffectOk(sh, GoEffect(sh, t, th))
  {
    if OnPrev(th.pc) && !Marked(sh, th.prev) { UnmarkedIsLinked(sh, t, th, th.kp, th.prev); }
    if OnCurr(th.pc) && !Marked(sh, th.curr.p) { UnmarkedIsLinked(sh, t, th, th.kc, th.curr.p); }
  }

  lemma AdvanceKeeps(sh: Shared, t: nat, th: Thread)
    requires ThreadInv(sh, t, th) && (th.pc.FProbe? || th.pc.FMark?)
    requires th.op.PushFront? ==> Marked(sh, th.curr.p)
    ensures ThreadInv(sh, t, Advance(th))
  {
  }

  lemma AtNodeKeeps(sh: Shared, t: nat, th: Thread)
    requires ThreadInv(sh, t, th) && th.pc.FMark?
    ensures ThreadInv(sh, t, AtNode(th))
  {
  }

  lemma HitKeeps(sh: Shared, t: nat, th: Thread)
    requires ThreadInv(sh, t, th) && th.pc.FProbe? && Hit(sh, th)
    ensures ThreadInv(sh, t, th.(pc := FMark))
  {
  }

  lemma TestKeeps(sh: Shared, t: nat, th: Thread)
    requires ThreadInv(sh, t, th) && (th.pc.FProbe? || th.pc.FMark?)
    ensures ThreadInv(sh, t, TestStep(sh, th))
  {
    if th.pc.FProbe? {
      if Hit(sh, th) { HitKeeps(sh, t, th); } else { AdvanceKeeps(sh, t, th); }
    } else if Marked(sh, th.curr.p) {
      AdvanceKeeps(sh, t, th);
    } else {
      AtNodeKeeps(sh, t, th);
    }
  }

  lemma HeadKeeps(sh: Shared, t: nat, th: Thread)
    requires ThreadInv(sh, t, th) && IsLinked(sh, HEAD)
    requires th.pc.FStart? || th.pc.FHeadLoad? || th.pc.FHeadPub? || th.pc.FHeadRepub?
    ensures ThreadInv(sh, t, HeadStep(sh, th))
  {
    if th.pc.FStart? { StartKeeps(sh, t, th); } else { HeadSlotKeeps(sh, t, th); }
    hide ThreadInv;
  }

  lemma StartKeeps(sh: Shared, t: nat, th: Thread)
    requires ThreadInv(sh, t, th) && IsLinked(sh, HEAD) && th.pc.FStart?
    ensures ThreadInv(sh, t, HeadStep(sh, th))
  {
  }

  lemma HeadSlotKeeps(sh: Shared, t: nat, th: Thread)
    requires ThreadInv(sh, t, th) && (th.pc.FHeadLoad? || th.pc.FHeadPub? || th.pc.FHeadRepub?)
    ensures ThreadInv(sh, t, HeadStep(sh, th))
  {
  }

  lemma HeadFoundKeeps(sh: Shared, t: nat, th: Thread)
    requires ThreadInv(sh, t, th) && th.pc.FHeadVer? && th.curr.p !in {NULL, HEAD} && IsLinked(sh, th.curr.p)
    ensures ThreadInv(sh, t, AtCurr(th))
  {
  }

  lemma HeadVerifyKeeps(sh: Shared, t: nat, th: Thread)
    requires ThreadInv(sh, t, th) && th.pc.FHeadVer?
    requires IsLinked(sh, WordOf(sh, HEAD).p) && WordOf(sh, HEAD).p !in {NULL, HEAD}
    ensures ThreadInv(sh, t, HeadStep(sh, th))
  {
    if WordOf(sh, HEAD) == th.curr { HeadFoundKeeps(sh, t, th); }
  }

  lemma LookKeeps(sh: Shared, t: nat, th: Thread)
    requires ThreadInv(sh, t, th)
    requires th.pc.FNextLoad? || th.pc.FNextPub? || th.pc.FNextRepub?
    ensures ThreadInv(sh, t, LookStep(sh, th))
  {
  }

  lemma VerifiedKeeps(sh: Shared, t: nat, th: Thread)
    requires ThreadInv(sh, t, th) && th.pc.FNextVer? && WordOf(sh, th.curr.p) == th.nx && th.nx.p != NULL
    requires !th.nx.mark ==> IsLinked(sh, th.nx.p) && th.nx.p != HEAD
    ensures ThreadInv(sh, t, th.(pc := if th.nx.mark then FPurge else FProbe))
  {
  }

  lemma LookVerifyKeeps(sh: Shared, t: nat, th: Thread)
    requires ThreadInv(sh, t, th) && th.pc.FNextVer?
    requires var w := WordOf(sh, th.curr.p); w.p != NULL && (!w.mark ==> IsLinked(sh, w.p) && w.p != HEAD)
    ensures ThreadInv(sh, t, LookStep(sh, th))
  {
    if WordOf(sh, th.curr.p) == th.nx { VerifiedKeeps(sh, t, th); }
  }

  lemma PurgeCasKeeps(sh: Shared, t: nat, th: Thread)
    requires ThreadInv(sh, t, th)
    requires th.pc.FPurge?
    ensures ThreadInv(Apply(sh, GoEffect(sh, t, th)), t, PurgeStep(sh, th))
  {
  }

  lemma PurgeKeeps(sh: Shared, t: nat, th: Thread)
    requires ThreadInv(sh, t, th)
    requires th.pc.FPurgeRepub? || th.pc.PurgeClear? || th.pc.PurgeGive?
    ensures ThreadInv(Apply(sh, GoEffect(sh, t, th)), t, PurgeStep(sh, th))
  {
    if th.pc.PurgeGive? { GiveKeeps(sh, t, th); } else { PurgeSlotKeeps(sh, t, th); }
    hide ThreadInv;
  }

  lemma GiveKeeps(sh: Shared, t: nat, th: Thread)
    requires ThreadInv(sh, t, th) && th.pc.PurgeGive?
    ensures ThreadInv(Apply(sh, GoEffect(sh, t, th)), t, AfterRemove(th.(pur := NULL)))
  {
  }

  lemma PurgeSlotKeeps(sh: Shared, t: nat, th: Thread)
    requires ThreadInv(sh, t, th) && (th.pc.FPurgeRepub? || th.pc.PurgeClear?)
    ensures ThreadInv(sh, t, PurgeStep(sh, th))
  {
  }

  lemma InsertCasKeeps(sh: Shared, t: nat, th: Thread)
    requires ThreadInv(sh, t, th) && th.pc.ICas?
    ensures ThreadInv(Apply(sh, GoEffect(sh, t, th)), t, InsertStep(sh, th))
  {
  }

  lemma InsertRepubKeeps(sh: Shared, t: nat, th: Thread)
    requires ThreadInv(sh, t, th) && th.pc.IRepub?
    ensures ThreadInv(sh, t, InsertStep(sh, th))
  {
  }

  lemma StoreKeeps(sh: Shared, t: nat, th: Thread)
    requires ThreadInv(sh, t, th)
    requires th.pc.IStore?
    ensures ThreadInv(Apply(sh, GoEffect(sh, t, th)), t, InsertStep(sh, th))
  {
  }

  lemma ClaimKeeps(sh: Shared, t: nat, th: Thread)
    requires ThreadInv(sh, t, th) && (th.pc.MCas? || th.pc.TCas?) && ValOf(sh, th.curr.p).Some?
    ensures ThreadInv(Apply(sh, SetMark(th.curr.p)), t, Claim(sh, th))
  {
  }

  lemma MarkFailKeeps(sh: Shared, t: nat, th: Thread)
    requires ThreadInv(sh, t, th)
    requires th.pc.MLoad? || th.pc.MCas? || th.pc.TCas?
    requires !GoEffect(sh, t, th).SetMark?
    ensures ThreadInv(sh, t, MarkStep(sh, th))
  {
    AgainKeeps(sh, t, th);
    if !th.pc.TCas? && !Marked(sh, th.curr.p) { ReloadKeeps(sh, t, th); }
    hide ThreadInv;
  }

  lemma AgainKeeps(sh: Shared, t: nat, th: Thread)
    requires ThreadInv(sh, t, th) && (th.pc.MLoad? || th.pc.MCas? || th.pc.TCas?)
    ensures ThreadInv(sh, t, th.(pc := FStart))
  {
  }

  lemma ReloadKeeps(sh: Shared, t: nat, th: Thread)
    requires ThreadInv(sh, t, th) && (th.pc.MLoad? || th.pc.MCas?) && !Marked(sh, th.curr.p)
    ensures ThreadInv(sh, t, th.(w := WordOf(sh, th.curr.p), pc := MCas))
  {
  }

  lemma MarkKeeps(sh: Shared, t: nat, th: Thread)
    requires ThreadInv(sh, t, th)
    requires th.pc.MLoad? || th.pc.MCas? || th.pc.TCas?
    requires !Marked(sh, th.curr.p) ==> ValOf(sh, th.curr.p).Some?
    ensures ThreadInv(Apply(sh, GoEffect(sh, t, th)), t, MarkStep(sh, th))
  {
    if GoEffect(sh, t, th).SetMark? { ClaimKeeps(sh, t, th); } else { MarkFailKeeps(sh, t, th); }
  }

  lemma RemoveKeeps(sh: Shared, t: nat, th: Thread)
    requires ThreadInv(sh, t, th)
    requires th.pc.RLoad? || th.pc.RCas? || th.pc.RRepub?
    ensures ThreadInv(Apply(sh, GoEffect(sh, t, th)), t, RemoveStep(sh, th))
  {
  }

  lemma PickKeeps(sh: Shared, t: nat, th: Thread)
    requires ThreadInv(sh, t, th)
    requires th.pc.Pick?
    ensures ThreadInv(Apply(sh, GoEffect(sh, t, th)), t, RemoveStep(sh, th))
  {
  }

  lemma LinkedFacts(sh: Shared, t: nat, th: Thread)
    requires SharedInv(sh) && ThreadInv(sh, t, th)
    ensures IsLinked(sh, HEAD) && IsLinked(sh, WordOf(sh, HEAD).p) && WordOf(sh, HEAD).p !in {NULL, HEAD}
    ensures OnCurr(th.pc) ==> WordOf(sh, th.curr.p).p != NULL
    ensures OnCurr(th.pc) && !Marked(sh, th.curr.p) ==>
              var m := WordOf(sh, th.curr.p).p;
              IsLinked(sh, m) && m != HEAD && ValOf(sh, th.curr.p).Some?
  {
    assert IsLinked(sh, HEAD) by { assert sh.chain[0] == HEAD; }
    SuccessorLinked(sh, HEAD);
    if OnCurr(th.pc) {
      assert NodeOk(sh, th.curr.p);
      if IsLinked(sh, th.curr.p) { SuccessorLinked(sh, th.curr.p); }
    }
  }

  lemma SearchKeeps(sh: Shared, t: nat, th: Thread)
    requires SharedInv(sh) && ThreadInv(sh, t, th)
    requires Searching(th.pc) && !th.pc.FPurge? && !th.pc.FPurgeRepub? && !th.pc.PurgeClear? && !th.pc.PurgeGive?
    ensures ThreadInv(sh, t, GoThread(sh, th))
  {
    LinkedFacts(sh, t, th);
    match th.pc
    case FStart | FHeadLoad | FHeadPub | FHeadRepub => HeadKeeps(sh, t, th);
    case FHeadVer => HeadVerifyKeeps(sh, t, th);
    case FNextLoad | FNextPub | FNextRepub => LookKeeps(sh, t, th);
    case FNextVer => LookVerifyKeeps(sh, t, th);
    case FProbe | FMark => TestKeeps(sh, t, th);
  }

  lemma ChangeKeeps(sh: Shared, t: nat, th: Thread)
    requires SharedInv(sh) && ThreadInv(sh, t, th) && CanGo(th)
    requires !Searching(th.pc) || th.pc.FPurge? || th.pc.FPurgeRepub? || th.pc.PurgeClear? || th.pc.PurgeGive?
    ensures ThreadInv(Apply(sh, GoEffect(sh, t, th)), t, GoThread(sh, th))
  {
    LinkedFacts(sh, t, th);
    match th.pc
    case FPurge => PurgeCasKeeps(sh, t, th);
    case FPurgeRepub | PurgeClear | PurgeGive => PurgeKeeps(sh, t, th);
    case IStore => StoreKeeps(sh, t, th);
    case ICas => InsertCasKeeps(sh, t, th);
    case IRepub => InsertRepubKeeps(sh, t, th);
    case MLoad | MCas | TCas => MarkKeeps(sh, t, th);
    case RLoad | RCas | RRepub => RemoveKeeps(sh, t, th);
    case Pick => PickKeeps(sh, t, th);
  }

  /** Whatever the next instruction is, the thread still knows what it must know. */
  lemma GoKeepsThread(sh: Shared, t: nat, th: Thread)
    requires SharedInv(sh) && ThreadInv(sh, t, th) && CanGo(th)
    ensures ThreadInv(Apply(sh, GoEffect(sh, t, th)), t, GoThread(sh, th))
  {
    hide SharedInv, ThreadInv, GoThread;
    match th.pc
    case FStart | FHeadLoad | FHeadPub | FHeadVer | FHeadRepub | FNextLoad | FNextPub | FNextVer | FNextRepub | FProbe | FMark =>
      SearchKeeps(sh, t, th);
    case IStore | MLoad | MCas | TCas | ICas | IRepub | RLoad | RCas | RRepub | Pick | FPurge | FPurgeRepub | PurgeClear | PurgeGive =>
      ChangeKeeps(sh, t, th);
  }
}
