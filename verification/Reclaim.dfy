/** Node life cycle under hazard-pointer reclamation.

    A node that has left its structure may be handed out again only after a scan
    has read every hazard slot that was registered when the scan began, one slot
    at a time, and found the node in none of them.  A slot that is merely
    published may hold any pointer, also one that is already in use again; only a
    slot whose owner verified it against the structure protects its node. */
module Reclaim {
  type Ref = nat

  /** What a node carries. */
  type Value = int

  const NULL: Ref := 0

  datatype Option<+T> = None | Some(value: T)

  /** A hazard slot: the thread that owns it and its index in that thread. */
  type Slot = (nat, nat)

  const SLOTS_PER_THREAD: nat := 3

  datatype Life =
    | Fresh                        // not allocated yet
    | Free                         // in a list of the pool that holds nodes without hazard
    | Owned(t: nat)                // private to thread t
    | Linked                       // in the structure
    | Unlinked(t: nat)             // out of the structure, thread t has yet to give it to the pool
    | Retired                      // out of the structure, no scan running
    | Scanning(todo: set<Slot>)    // a scan still has to read the slots in todo

  function Get<T>(m: map<Ref, T>, n: Ref, default: T): T {
    if n in m then m[n] else default
  }

  function LifeOf(life: map<Ref, Life>, n: Ref): Life {
    Get(life, n, Fresh)
  }

  /** Every slot of the first threads. */
  function AllSlots(threads: nat): set<Slot> {
    set t: nat, k: nat | t < threads && k < SLOTS_PER_THREAD :: (t, k)
  }

  /** The pool cannot hand out n while slot k of thread t stays as it is: n is in
      the structure, waits for a scan, or a running scan has yet to read the slot. */
  predicate Protected(life: map<Ref, Life>, t: nat, k: nat, n: Ref) {
    match LifeOf(life, n)
    case Linked => true
    case Unlinked(_) => true
    case Retired => true
    case Scanning(todo) => (t, k) in todo
    case _ => false
  }

  /** The node can be given to a thread that asks the pool for one. */
  predicate Available(life: map<Ref, Life>, n: Ref) {
    n != NULL && (LifeOf(life, n).Free? || LifeOf(life, n).Fresh?)
  }

  ghost predicate Distinct(s: seq<Ref>) {
    forall i, j | 0 <= i < j < |s| :: s[i] != s[j]
  }

  predicate Waiting(life: map<Ref, Life>, n: Ref) {
    LifeOf(life, n).Unlinked? || LifeOf(life, n).Retired? || LifeOf(life, n).Scanning?
  }
}
