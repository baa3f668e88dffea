/** The threads of the lock-free FIFO: push_back, pop_front and push_front as step
    machines.  Every load, store and compare-and-exchange is one step; publishing
    a hazard is a step of its own, apart from the load that found the pointer. */
module FifoThreads {
  import opened Reclaim
  import opened FifoShared

  datatype Op = PushBack | Pop | PushFront

  /** What a call did to the queue, recorded at the step that did it. */
  datatype Event =
    | Appended(v: Value)      // linked behind the last node by push_back
    | Taken(v: Value)         // head moved by pop_front
    | SawEmpty                // pop_front found no successor of the sentinel
    | Prepended(v: Value)     // head moved by push_front
    | AppendedFront(v: Value) // linked behind the last node by push_front

  datatype Pc =
    | Idle
    | A1      // push_front has its value node and asks the pool for a sentinel
    | B0      // p_nd->set_next(nullptr)
    | F0      // p_node_new_sentinel->set_next(p_node_w_value)
    | TLoad | TPub | TVer | TNext | THelp | TSetW | TLink | TSwing | TPubDrop | TDrop
    | HLoad | HPub | HVer | HNext | HTail | HHelp | NPub | NVer | NRepub | HSetW | HCas
    | Pick    // callback_to_pick_up_value
    | Fin     // the hazard pointers are being destroyed

  /** x is the p_ of a hazard pointer whose slot has not been stored yet; sH, sN and
      sT are the slots of hp_head_node, hp_head_next and hp_tail_node.  lin and res
      are what the call has done and what it will return. */
  datatype Thread = Thread(
    pc: Pc, op: Op, v: Value,
    own: Ref, sen: Ref,
    x: Ref, nx: Ref,
    sH: Ref, sN: Ref, sT: Ref,
    lin: Option<Event>, res: Option<Value>)

  const SLOT_HEAD: nat := 0
  const SLOT_NEXT: nat := 1
  const SLOT_TAIL: nat := 2

  function IdleThread(): Thread {
    Thread(Idle, Pop, 0, NULL, NULL, NULL, NULL, NULL, NULL, NULL, None, None)
  }

  function SlotOf(th: Thread, k: nat): Ref {
    if k == SLOT_HEAD then th.sH else if k == SLOT_NEXT then th.sN else th.sT
  }

  /** The effect of the next instruction of a thread. */
  function GoEffect(sh: Shared, th: Thread): Effect {
    match th.pc
    case B0 => WriteNext(th.own, NULL)
    case F0 => WriteNext(th.sen, th.own)
    case THelp => if sh.tail == th.sT then Swing(th.nx) else Nothing
    case TSetW => WriteNext(th.own, NULL)
    case TLink => if NextOf(sh, th.sT) == NULL then Link(th.sT, th.own) else Nothing
    case TSwing => if sh.tail == th.sT then Swing(th.nx) else Nothing
    case HHelp => if sh.tail == th.sH then Swing(th.nx) else Nothing
    case HSetW => WriteNext(th.own, th.nx)
    case HCas =>
      if sh.head != th.sH then Nothing
      else if th.op.Pop? then PopHead(th.sN) else PushHead(th.sen, th.own)
    case Pick => Take(th.sN)
    case _ => Nothing
  }

  /** Where the next instruction leaves the thread. */
  function GoThread(sh: Shared, th: Thread): Thread {
    match th.pc
    case B0 => th.(pc := TLoad)
    case F0 => th.(pc := HLoad)
    case TLoad => th.(x := sh.tail, pc := TPub)
    case TPub => th.(sT := th.x, pc := TVer)
    case TVer =>
      if sh.tail == th.sT then th.(pc := TNext)
      else th.(x := sh.tail, pc := if th.op.PushFront? then TPubDrop else TPub)
    case TPubDrop => th.(sT := th.x, pc := TDrop)
    case TDrop => th.(sT := NULL, pc := HVer)
    case TNext =>
      var n := NextOf(sh, th.sT);
      th.(nx := n, pc := if n != NULL then THelp else if th.op.PushFront? then TSetW else TLink)
    case THelp =>
      if sh.tail == th.sT then
        if th.op.PushFront? then th.(pc := TDrop) else th.(x := th.nx, pc := TPub)
      else
        th.(x := sh.tail, pc := if th.op.PushFront? then TPubDrop else TPub)
    case TSetW => th.(pc := TLink)
    case TLink =>
      if NextOf(sh, th.sT) == NULL then
        if th.op.PushFront? then th.(own := NULL, lin := Some(AppendedFront(th.v)), pc := Fin)
        else th.(nx := th.own, own := NULL, lin := Some(Appended(th.v)), pc := TSwing)
      else
        th.(pc := if th.op.PushFront? then TDrop else TVer)
    case TSwing => th.(pc := Fin)
    case HLoad => th.(x := sh.head, pc := HPub)
    case HPub => th.(sH := th.x, pc := HVer)
    case HVer => if sh.head == th.sH then th.(pc := HNext) else th.(x := sh.head, pc := HPub)
    case HNext =>
      var n := NextOf(sh, th.sH);
      if n != NULL then th.(nx := n, pc := HTail)
      else if th.op.Pop? then th.(nx := n, lin := Some(SawEmpty), pc := Fin)
      else th.(nx := n, pc := TLoad)
    case HTail => th.(pc := if sh.tail == th.sH then HHelp else NPub)
    case HHelp => th.(pc := NPub)
    case NPub => th.(sN := th.nx, pc := NVer)
    case NVer =>
      if NextOf(sh, th.sH) == th.sN then th.(pc := if th.op.Pop? then HCas else HSetW)
      else th.(x := NextOf(sh, th.sH), pc := NRepub)
    case NRepub => th.(sN := th.x, pc := HVer)
    case HSetW => th.(pc := HCas)
    case HCas =>
      if sh.head != th.sH then th.(x := sh.head, pc := HPub)
      else if th.op.Pop? then th.(lin := Some(Taken(ValueAt(sh, th.sN))), pc := Pick)
      else th.(own := NULL, sen := NULL, lin := Some(Prepended(th.v)), pc := Fin)
    case Pick => th.(res := ValOf(sh, th.sN), pc := Fin)
    case _ => th
  }

  function ValueAt(sh: Shared, n: Ref): Value {
    match ValOf(sh, n)
    case Some(v) => v
    case None => 0
  }

  predicate CanGo(th: Thread) {
    !th.pc.Idle? && !th.pc.A1? && !th.pc.Fin?
  }

  // ---- what holds of one thread ----

  predicate OnTail(pc: Pc) {
    pc.TLoad? || pc.TPub? || pc.TVer? || pc.TNext? || pc.THelp? || pc.TSetW? || pc.TLink? || pc.TPubDrop? || pc.TDrop?
  }

  predicate OnHead(pc: Pc) {
    || pc.HLoad? || pc.HPub? || pc.HVer? || pc.HNext? || pc.HTail? || pc.HHelp?
    || pc.NPub? || pc.NVer? || pc.NRepub? || pc.HSetW? || pc.HCas?
  }

  /** The slot of hp_tail_node has been verified against the tail pointer. */
  predicate TailVerified(pc: Pc) {
    pc.TNext? || pc.THelp? || pc.TSetW? || pc.TLink? || pc.TSwing?
  }

  /** The slot of hp_head_node has been verified against the head pointer. */
  predicate HeadVerified(pc: Pc) {
    pc.HNext? || pc.HTail? || pc.HHelp? || pc.NPub? || pc.NVer? || pc.HSetW? || pc.HCas?
  }

  /** The tail has been seen, or moved, past the verified head. */
  predicate TailPassed(pc: Pc) {
    pc.NPub? || pc.NVer? || pc.HSetW? || pc.HCas?
  }

  /** Which locals are in use at which instruction. */
  predicate Shape(th: Thread) {
    && (th.pc.Idle? ==> th == IdleThread())
    && (th.op.Pop? ==> th.own == NULL && th.sen == NULL && (th.pc.Idle? || OnHead(th.pc) || th.pc.Pick? || th.pc.Fin?))
    && (th.op.PushBack? ==> th.sen == NULL && (th.pc.B0? || OnTail(th.pc) || th.pc.TSwing? || th.pc.Fin?))
    && (th.op.PushFront? ==> th.pc.A1? || th.pc.F0? || OnTail(th.pc) || OnHead(th.pc) || th.pc.Fin?)
    && (!th.op.PushFront? ==> !th.pc.HSetW? && !th.pc.TSetW? && !th.pc.TPubDrop? && !th.pc.TDrop?)
    && (!th.op.Pop? && (th.pc.A1? || th.pc.B0? || th.pc.F0? || OnTail(th.pc) || OnHead(th.pc)) ==> th.own != NULL)
    && (th.op.PushFront? && !th.pc.Fin? ==> (th.pc.A1? <==> th.sen == NULL))
    && (th.pc.TSwing? || th.pc.Fin? ==> th.own == NULL)
  }

  /** A call acts on the queue once: lin is empty up to that step and says what was
      done from there on; what is returned is what was done. */
  predicate Recorded(th: Thread) {
    if th.pc.TSwing? then th.lin == Some(Appended(th.v))
    else if th.pc.Pick? then th.lin.Some? && th.lin.value.Taken? && th.res == None
    else if th.pc.Fin? then
      match th.op
      case PushBack => th.lin == Some(Appended(th.v))
      case Pop => th.lin == Some(if th.res.Some? then Taken(th.res.value) else SawEmpty)
      case PushFront => th.lin == Some(if th.sen == NULL then Prepended(th.v) else AppendedFront(th.v))
    else th.lin == None && th.res == None
  }

  ghost predicate OwnInv(sh: Shared, t: nat, th: Thread) {
    && (th.own != NULL ==> Alive(sh, th.own) == Owned(t) && ValOf(sh, th.own) == Some(th.v))
    && (th.op.PushBack? && th.own != NULL && !th.pc.B0? ==> NextOf(sh, th.own) == NULL)
    && (th.pc.TLink? ==> NextOf(sh, th.own) == NULL)
    && (th.sen != NULL ==>
          && th.sen != th.own && Alive(sh, th.sen) == Owned(t)
          && (!th.pc.F0? ==> NextOf(sh, th.sen) != NULL && (th.own != NULL ==> NextOf(sh, th.sen) == th.own)))
  }

  ghost predicate TailSlotInv(sh: Shared, t: nat, th: Thread) {
    && (TailVerified(th.pc) ==>
          && th.sT != NULL && Protected(sh.life, t, SLOT_TAIL, th.sT)
          && (IsLinked(sh, th.sT) && NextOf(sh, th.sT) == NULL ==> sh.tail == th.sT))
    && (th.pc.THelp? || th.pc.TSwing? ==> NextOf(sh, th.sT) == th.nx != NULL)
  }

  ghost predicate HeadSlotInv(sh: Shared, t: nat, th: Thread) {
    && (HeadVerified(th.pc) ==>
          && th.sH != NULL && Protected(sh.life, t, SLOT_HEAD, th.sH)
          && (IsLinked(sh, th.sH) ==> th.sH == sh.head))
    && (HeadVerified(th.pc) && !th.pc.HNext? ==> NextOf(sh, th.sH) == th.nx != NULL)
    && (TailPassed(th.pc) && sh.head == th.sH ==> sh.tail != th.sH)
    && (th.pc.NVer? || th.pc.HSetW? || th.pc.HCas? ==> th.sN == th.nx)
    && (th.pc.HCas? && th.op.PushFront? ==> NextOf(sh, th.own) == th.nx)
  }

  /** The hand-off: after the head CAS the hazard on the next node counts, and the
      value is still the one that was at the front when the CAS succeeded. */
  ghost predicate PickInv(sh: Shared, t: nat, th: Thread) {
    th.pc.Pick? ==>
      && th.sN != NULL && Protected(sh.life, t, SLOT_NEXT, th.sN)
      && (IsLinked(sh, th.sN) ==> th.sN == sh.head)
      && th.lin.Some? && th.lin.value.Taken? && ValOf(sh, th.sN) == Some(th.lin.value.v)
  }

  ghost predicate ThreadInv(sh: Shared, t: nat, th: Thread) {
    Shape(th) && Recorded(th) && OwnInv(sh, t, th) && TailSlotInv(sh, t, th) && HeadSlotInv(sh, t, th) && PickInv(sh, t, th)
  }

  // ---- a step of one agent leaves what another thread knows intact ----

  /** The effect e is not taken by thread u, whose registers are th. */
  ghost predicate Foreign(sh: Shared, e: Effect, u: nat, th: Thread) {
    match e
    case WriteNext(n, m) => Alive(sh, n) != Owned(u)
    case Link(n, p) => Alive(sh, p) != Owned(u)
    case PushHead(sen, w) => Alive(sh, sen) != Owned(u) && Alive(sh, w) != Owned(u)
    case Take(n) => th.pc.Pick? ==> th.sN != n
    case Discard(n) => Alive(sh, n) != Owned(u)
    case BeginScan(n, threads) => u < threads
    case Visit(n, slot) => slot.0 == u ==> SlotOf(th, slot.1) != n
    case _ => true
  }

  /** A node protected by slot k of thread u stays protected while the slot keeps
      it, and once it has a link the link is frozen. */
  lemma ProtectedStable(sh: Shared, e: Effect, u: nat, k: nat, n: Ref, th: Thread)
    requires SharedInv(sh) && EffectOk(sh, e) && Foreign(sh, e, u, th)
    requires n != NULL && k < SLOTS_PER_THREAD && SlotOf(th, k) == n && Protected(sh.life, u, k, n)
    ensures Protected(Apply(sh, e).life, u, k, n)
    ensures NextOf(sh, n) != NULL ==> NextOf(Apply(sh, e), n) == NextOf(sh, n)
    ensures IsLinked(Apply(sh, e), n) ==> IsLinked(sh, n)
  {
  }

  lemma PrivateStable(sh: Shared, e: Effect, u: nat, th: Thread, n: Ref)
    requires SharedInv(sh) && EffectOk(sh, e) && Foreign(sh, e, u, th) && Alive(sh, n) == Owned(u)
    ensures var s2 := Apply(sh, e); Alive(s2, n) == Owned(u) && NextOf(s2, n) == NextOf(sh, n) && ValOf(s2, n) == ValOf(sh, n)
  {
  }

  lemma OwnStable(sh: Shared, e: Effect, u: nat, th: Thread)
    requires SharedInv(sh) && EffectOk(sh, e) && Foreign(sh, e, u, th) && OwnInv(sh, u, th) && Shape(th)
    ensures OwnInv(Apply(sh, e), u, th)
  {
    hide SharedInv, EffectOk, Foreign, Apply;
    if th.own != NULL { PrivateStable(sh, e, u, th, th.own); }
    if th.sen != NULL { PrivateStable(sh, e, u, th, th.sen); }
  }

  lemma TailSlotStable(sh: Shared, e: Effect, u: nat, th: Thread)
    requires SharedInv(sh) && EffectOk(sh, e) && Foreign(sh, e, u, th) && TailSlotInv(sh, u, th)
    ensures TailSlotInv(Apply(sh, e), u, th)
  {
    if TailVerified(th.pc) {
      ProtectedStable(sh, e, u, SLOT_TAIL, th.sT, th);
      var s2 := Apply(sh, e);
      if IsLinked(s2, th.sT) && NextOf(s2, th.sT) == NULL {
        assert NextOf(sh, th.sT) == NULL && sh.tail == th.sT;
      }
    }
  }

  lemma HeadSlotStable(sh: Shared, e: Effect, u: nat, th: Thread)
    requires SharedInv(sh) && EffectOk(sh, e) && Foreign(sh, e, u, th) && HeadSlotInv(sh, u, th) && OwnInv(sh, u, th) && Shape(th)
    ensures HeadSlotInv(Apply(sh, e), u, th)
  {
    if HeadVerified(th.pc) {
      ProtectedStable(sh, e, u, SLOT_HEAD, th.sH, th);
    }
  }

  lemma PickStable(sh: Shared, e: Effect, u: nat, th: Thread)
    requires SharedInv(sh) && EffectOk(sh, e) && Foreign(sh, e, u, th) && PickInv(sh, u, th)
    ensures PickInv(Apply(sh, e), u, th)
  {
    if th.pc.Pick? {
      ProtectedStable(sh, e, u, SLOT_NEXT, th.sN, th);
    }
  }

  lemma ThreadStable(sh: Shared, e: Effect, u: nat, th: Thread)
    requires SharedInv(sh) && EffectOk(sh, e) && Foreign(sh, e, u, th) && ThreadInv(sh, u, th)
    ensures ThreadInv(Apply(sh, e), u, th)
  {
    OwnStable(sh, e, u, th);
    TailSlotStable(sh, e, u, th);
    HeadSlotStable(sh, e, u, th);
    PickStable(sh, e, u, th);
  }

  // ---- a thread's own step ----

  lemma GoIsOk(sh: Shared, t: nat, th: Thread)
    requires SharedInv(sh) && ThreadInv(sh, t, th) && CanGo(th)
    ensures EffectOk(sh, GoEffect(sh, th))
  {
  }

  lemma GoWriteOwn(sh: Shared, t: nat, th: Thread)
    requires SharedInv(sh) && ThreadInv(sh, t, th)
    requires th.pc.B0? || th.pc.F0?
    ensures ThreadInv(Apply(sh, GoEffect(sh, th)), t, GoThread(sh, th))
  {
  }

  lemma GoTailDrop(sh: Shared, t: nat, th: Thread)
    requires SharedInv(sh) && ThreadInv(sh, t, th)
    requires th.pc.TPubDrop? || th.pc.TDrop?
    ensures ThreadInv(Apply(sh, GoEffect(sh, th)), t, GoThread(sh, th))
  {
  }

  lemma GoTailLoad(sh: Shared, t: nat, th: Thread)
    requires SharedInv(sh) && ThreadInv(sh, t, th)
    requires th.pc.TLoad? || th.pc.TPub? || th.pc.TVer?
    ensures ThreadInv(Apply(sh, GoEffect(sh, th)), t, GoThread(sh, th))
  {
  }

  lemma GoTailNext(sh: Shared, t: nat, th: Thread)
    requires SharedInv(sh) && ThreadInv(sh, t, th)
    requires th.pc.TNext?
    ensures ThreadInv(Apply(sh, GoEffect(sh, th)), t, GoThread(sh, th))
  {
  }

  lemma GoTailHelp(sh: Shared, t: nat, th: Thread)
    requires SharedInv(sh) && ThreadInv(sh, t, th)
    requires th.pc.THelp? || th.pc.TSetW?
    ensures ThreadInv(Apply(sh, GoEffect(sh, th)), t, GoThread(sh, th))
  {
  }

  lemma GoTailLink(sh: Shared, t: nat, th: Thread)
    requires SharedInv(sh) && ThreadInv(sh, t, th)
    requires th.pc.TLink?
    ensures ThreadInv(Apply(sh, GoEffect(sh, th)), t, GoThread(sh, th))
  {
    if NextOf(sh, th.sT) == NULL { GoTailLinked(sh, t, th); } else { GoTailLost(sh, t, th); }
    hide SharedInv, ThreadInv;
  }

  lemma GoTailLinked(sh: Shared, t: nat, th: Thread)
    requires SharedInv(sh) && ThreadInv(sh, t, th) && th.pc.TLink? && NextOf(sh, th.sT) == NULL
    ensures ThreadInv(Apply(sh, GoEffect(sh, th)), t, GoThread(sh, th))
  {
  }

  lemma GoTailLost(sh: Shared, t: nat, th: Thread)
    requires ThreadInv(sh, t, th) && th.pc.TLink? && NextOf(sh, th.sT) != NULL
    ensures ThreadInv(Apply(sh, GoEffect(sh, th)), t, GoThread(sh, th))
  {
  }

  lemma GoTailSwing(sh: Shared, t: nat, th: Thread)
    requires SharedInv(sh) && ThreadInv(sh, t, th)
    requires th.pc.TSwing?
    ensures ThreadInv(Apply(sh, GoEffect(sh, th)), t, GoThread(sh, th))
  {
  }

  lemma GoHeadLoad(sh: Shared, t: nat, th: Thread)
    requires SharedInv(sh) && ThreadInv(sh, t, th)
    requires th.pc.HLoad? || th.pc.HPub?
    ensures ThreadInv(Apply(sh, GoEffect(sh, th)), t, GoThread(sh, th))
  {
  }

  lemma GoHeadVerify(sh: Shared, t: nat, th: Thread)
    requires SharedInv(sh) && ThreadInv(sh, t, th)
    requires th.pc.HVer? || th.pc.HNext?
    ensures ThreadInv(Apply(sh, GoEffect(sh, th)), t, GoThread(sh, th))
  {
  }

  lemma GoHeadCheck(sh: Shared, t: nat, th: Thread)
    requires SharedInv(sh) && ThreadInv(sh, t, th)
    requires th.pc.HTail? || th.pc.HHelp? || th.pc.NPub?
    ensures ThreadInv(Apply(sh, GoEffect(sh, th)), t, GoThread(sh, th))
  {
  }

  lemma GoNextVerify(sh: Shared, t: nat, th: Thread)
    requires SharedInv(sh) && ThreadInv(sh, t, th)
    requires th.pc.NVer? || th.pc.NRepub? || th.pc.HSetW?
    ensures ThreadInv(Apply(sh, GoEffect(sh, th)), t, GoThread(sh, th))
  {
  }

  lemma GoHeadCas(sh: Shared, t: nat, th: Thread)
    requires SharedInv(sh) && ThreadInv(sh, t, th)
    requires th.pc.HCas?
    ensures ThreadInv(Apply(sh, GoEffect(sh, th)), t, GoThread(sh, th))
  {
    if sh.head == th.sH {
      if th.op.Pop? { GoHeadPop(sh, t, th); } else { GoHeadPush(sh, t, th); }
    } else {
      GoHeadAgain(sh, t, th);
    }
    hide SharedInv, ThreadInv;
  }

  lemma GoHeadPop(sh: Shared, t: nat, th: Thread)
    requires SharedInv(sh) && ThreadInv(sh, t, th) && th.pc.HCas? && sh.head == th.sH && th.op.Pop?
    ensures ThreadInv(Apply(sh, GoEffect(sh, th)), t, GoThread(sh, th))
  {
    SecondNode(sh);
  }

  lemma GoHeadPush(sh: Shared, t: nat, th: Thread)
    requires SharedInv(sh) && ThreadInv(sh, t, th) && th.pc.HCas? && sh.head == th.sH && !th.op.Pop?
    ensures ThreadInv(Apply(sh, GoEffect(sh, th)), t, GoThread(sh, th))
  {
  }

  lemma GoHeadAgain(sh: Shared, t: nat, th: Thread)
    requires ThreadInv(sh, t, th) && th.pc.HCas? && sh.head != th.sH
    ensures ThreadInv(Apply(sh, GoEffect(sh, th)), t, GoThread(sh, th))
  {
  }

  lemma GoPick(sh: Shared, t: nat, th: Thread)
    requires SharedInv(sh) && ThreadInv(sh, t, th)
    requires th.pc.Pick?
    ensures ThreadInv(Apply(sh, GoEffect(sh, th)), t, GoThread(sh, th))
  {
  }

  /** Whatever the next instruction is, the thread still knows what it must know. */
  lemma GoKeepsThread(sh: Shared, t: nat, th: Thread)
    requires SharedInv(sh) && ThreadInv(sh, t, th) && CanGo(th)
    ensures ThreadInv(Apply(sh, GoEffect(sh, th)), t, GoThread(sh, th))
  {
    match th.pc
    case B0 | F0 => GoWriteOwn(sh, t, th);
    case TPubDrop | TDrop => GoTailDrop(sh, t, th);
    case TLoad | TPub | TVer => GoTailLoad(sh, t, th);
    case TNext => GoTailNext(sh, t, th);
    case THelp | TSetW => GoTailHelp(sh, t, th);
    case TLink => GoTailLink(sh, t, th);
    case TSwing => GoTailSwing(sh, t, th);
    case HLoad | HPub => GoHeadLoad(sh, t, th);
    case HVer | HNext => GoHeadVerify(sh, t, th);
    case HTail | HHelp | NPub => GoHeadCheck(sh, t, th);
    case NVer | NRepub | HSetW => GoNextVerify(sh, t, th);
    case HCas => GoHeadCas(sh, t, th);
    case _ => GoPick(sh, t, th);
  }
}
