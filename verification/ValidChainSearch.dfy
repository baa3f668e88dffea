/** is_hazard_ptr_group_in_valid_chain without interference: the loop over the twin
    accessor that looks for a group, unlinks every marked group it passes, and counts
    itself as a writer of the two groups it stands on. */
module ValidChainSearch {
  import opened MarkedLink
  import opened Reclaim

  type Memory = map<Ref, Word>

  function WordOf(m: Memory, n: Ref): Word { Get(m, n, Word(NULL, false)) }
  function Head(s: seq<Ref>): Ref { if s == [] then NULL else s[0] }

  /** The groups of s hang together, from first to the end. */
  ghost predicate Hangs(m: Memory, first: Ref, s: seq<Ref>) {
    && first == Head(s)
    && (forall i | 0 <= i < |s| :: s[i] != NULL && WordOf(m, s[i]).p == Head(s[i + 1..]))
    && Distinct(s)
  }

  /** What is left of s when the marked groups are taken out, in the same order. */
  function Alive(m: Memory, s: seq<Ref>): seq<Ref> {
    if s == [] then []
    else if WordOf(m, s[0]).mark then Alive(m, s[1..])
    else [s[0]] + Alive(m, s[1..])
  }

  lemma {:induction false} AliveConcat(m: Memory, a: seq<Ref>, b: seq<Ref>)
    ensures Alive(m, a + b) == Alive(m, a) + Alive(m, b)
  {
    if a == [] {
      assert a + b == b;
    } else {
      AliveConcat(m, a[1..], b);
      assert (a + b)[1..] == a[1..] + b;
    }
  }

  lemma {:induction false} AliveAlready(m: Memory, s: seq<Ref>)
    requires forall g | g in s :: !WordOf(m, g).mark
    ensures Alive(m, s) == s
  {
    if s != [] {
      AliveAlready(m, s[1..]);
      assert s == [s[0]] + s[1..];
    }
  }

  lemma {:induction false} AliveFrame(m: Memory, m2: Memory, s: seq<Ref>)
    requires forall g | g in s :: WordOf(m, g).mark == WordOf(m2, g).mark
    ensures Alive(m, s) == Alive(m2, s)
  {
    if s != [] { AliveFrame(m, m2, s[1..]); }
  }

  /** Exactly the marked groups are missing. */
  lemma {:induction false} AliveMembers(m: Memory, s: seq<Ref>, g: Ref)
    ensures g in Alive(m, s) <==> g in s && !WordOf(m, g).mark
  {
    if s != [] { AliveMembers(m, s[1..], g); }
  }

  /** Every mark is where it was in m, and a marked group keeps its word. */
  ghost predicate Frozen(m: Memory, m2: Memory) {
    && (forall g :: WordOf(m2, g).mark == WordOf(m, g).mark)
    && (forall g | WordOf(m2, g).mark :: WordOf(m2, g) == WordOf(m, g))
  }

  lemma FrozenOn(a: Memory, b: Memory, c: Memory)
    requires Frozen(a, b) && Frozen(b, c)
    ensures Frozen(a, c)
  {
  }

  /** The valid chain: its top, the link words of the groups, and writer_accesser_cnt_. */
  class Chain {
    var top: Ref
    var word: Memory
    var writers: map<Ref, int>

    constructor ()
      ensures top == NULL && word == map[] && writers == map[]
    {
      top, word, writers := NULL, map[], map[];
    }
  }

  function Count(w: map<Ref, int>, n: Ref): int { Get(w, n, 0) }

  /** The twin accessor; pre is null while the predecessor is the top of the chain. */
  class TwinAccessor {
    const chain: Chain
    var pre: Ref
    var focus: Ref
    var cur: Ref

    constructor (chain: Chain)
      ensures this.chain == chain && pre == NULL && focus == NULL && cur == NULL
    {
      this.chain := chain;
      pre, focus, cur := NULL, NULL, NULL;
    }

    /** The accessor counts once on each group it holds. */
    ghost predicate Counted(base: map<Ref, int>)
      reads this, chain
    {
      forall g | g != NULL ::
        Count(chain.writers, g) == Count(base, g) + (if g == pre then 1 else 0) + (if g == cur then 1 else 0)
    }

    /** get_pointer_from_addr_clr_marker of the word in front. */
    function Ahead(): Ref
      reads this, chain
    {
      if pre == NULL then chain.top else WordOf(chain.word, pre).p
    }

    method Hold(n: Ref, delta: int)
      modifies chain`writers
      ensures n == NULL ==> chain.writers == old(chain.writers)
      ensures forall g | g != n :: Count(chain.writers, g) == Count(old(chain.writers), g)
      ensures n != NULL ==> Count(chain.writers, n) == Count(old(chain.writers), n) + delta
    {
      if n != NULL { chain.writers := chain.writers[n := Count(chain.writers, n) + delta]; }
    }

    /** setup_cur: with nobody else writing, the second load finds what the first found. */
    method Setup(ghost base: map<Ref, int>)
      requires Counted(base) && (Ahead() == NULL || Ahead() != pre)
      modifies this`focus, this`cur, chain`writers
      ensures focus == Ahead() == old(Ahead())
      ensures cur == if focus == NULL then old(cur) else focus
      ensures Counted(base)
    {
      focus := Ahead();
      if focus == NULL { return; }
      Hold(focus, 1);
      if cur != focus {
        Hold(cur, -1);
        cur := focus;
      } else {
        Hold(focus, -1);
      }
    }

    /** shift: the current group becomes the predecessor. */
    method Shift(ghost base: map<Ref, int>)
      requires Counted(base) && cur != NULL && WordOf(chain.word, cur).p != cur
      modifies this`pre, this`focus, this`cur, chain`writers
      ensures pre == old(cur) && focus == WordOf(chain.word, pre).p && cur == focus
      ensures Counted(base)
    {
      Hold(pre, -1);
      pre := cur;
      cur := NULL;
      Setup(base);
    }

    /** The compare-and-exchange on the word in front, which expects an unmarked word and
        which an unlucky weak one refuses. */
    method Swing(seen: Ref, desired: Ref, lucky: bool) returns (ok: bool)
      modifies chain`top, chain`word
      ensures ok == (lucky && old(Ahead()) == seen && (pre == NULL || !WordOf(old(chain.word), pre).mark))
      ensures chain.top == if ok && pre == NULL then desired else old(chain.top)
      ensures chain.word == if ok && pre != NULL then old(chain.word)[pre := Word(desired, false)] else old(chain.word)
    {
      if pre == NULL {
        ok := lucky && chain.top == seen;
        if ok { chain.top := desired; }
      } else {
        ok := lucky && WordOf(chain.word, pre) == Word(seen, false);
        if ok { chain.word := chain.word[pre := Word(desired, false)]; }
      }
    }

    /** The destructor. */
    method Close(ghost base: map<Ref, int>)
      requires Counted(base)
      modifies this`pre, this`cur, chain`writers
      ensures pre == NULL && cur == NULL && Counted(base)
    {
      Hold(cur, -1);
      cur := NULL;
      Hold(pre, -1);
      pre := NULL;
    }

    /** The accessor stands between keep and rest. */
    ghost predicate Between(keep: seq<Ref>, rest: seq<Ref>)
      reads this, chain
    {
      && Hangs(chain.word, chain.top, keep + rest)
      && focus == Head(rest) && pre == (if keep == [] then NULL else keep[|keep| - 1])
      && (focus != NULL ==> cur == focus)
      && forall g | g in keep :: !WordOf(chain.word, g).mark
    }

    /** The marked group under the accessor is unlinked, unless the weak CAS is unlucky. */
    method PassMarked(lucky: bool, ghost base: map<Ref, int>, ghost keep: seq<Ref>, ghost rest: seq<Ref>) returns (ok: bool)
      requires Counted(base) && Between(keep, rest) && focus != NULL && WordOf(chain.word, focus).mark
      modifies this`focus, this`cur, chain
      ensures ok == lucky && Counted(base)
      ensures ok ==> Between(keep, rest[1..])
      ensures !ok ==> chain.top == old(chain.top) && chain.word == old(chain.word)
      ensures Frozen(old(chain.word), chain.word)
    {
      ghost var m := chain.word;
      LinkFacts(m, chain.top, keep, rest);
      assert keep != [] ==> keep[|keep| - 1] in keep;
      ok := Swing(focus, WordOf(chain.word, cur).p, lucky);
      if ok {
        Dropped(m, chain.word, keep, rest);
        LinkFacts(chain.word, chain.top, keep, rest[1..]);
        Setup(base);
      }
    }

    /** The live group under the accessor is kept. */
    method PassLive(ghost base: map<Ref, int>, ghost keep: seq<Ref>, ghost rest: seq<Ref>)
      requires Counted(base) && Between(keep, rest) && focus != NULL && !WordOf(chain.word, focus).mark
      modifies this`pre, this`focus, this`cur, chain`writers
      ensures Counted(base) && Between(keep + [old(focus)], rest[1..])
    {
      LinkFacts(chain.word, chain.top, keep, rest);
      assert keep + rest == (keep + [focus]) + rest[1..];
      Shift(base);
    }
  }

  /** Where the two parts of a chain meet. */
  lemma LinkFacts(m: Memory, first: Ref, keep: seq<Ref>, rest: seq<Ref>)
    requires Hangs(m, first, keep + rest)
    ensures keep != [] ==> WordOf(m, keep[|keep| - 1]).p == Head(rest) && first == keep[0]
    ensures keep == [] ==> first == Head(rest)
    ensures rest != [] ==> rest[0] != NULL && WordOf(m, rest[0]).p == Head(rest[1..]) && WordOf(m, rest[0]).p != rest[0]
    ensures keep != [] && rest != [] ==> rest[0] != keep[|keep| - 1]
    ensures forall g | g in keep :: g != NULL
  {
    var s, n := keep + rest, |keep|;
    if keep != [] { assert s[n - 1] == keep[n - 1] && s[n..] == rest; }
    if rest != [] {
      assert s[n] == rest[0] && s[n + 1..] == rest[1..];
      if rest[1..] != [] { assert s[n + 1] == rest[1]; }
    }
    forall g | g in keep ensures g != NULL {
      var i :| 0 <= i < n && keep[i] == g;
      assert s[i] == g;
    }
  }

  /** One group is dropped and the link in front of it written. */
  lemma Dropped(m: Memory, m2: Memory, keep: seq<Ref>, rest: seq<Ref>)
    requires rest != [] && Hangs(m, Head(keep + rest), keep + rest)
    requires m2 == if keep == [] then m else m[keep[|keep| - 1] := Word(WordOf(m, rest[0]).p, false)]
    ensures Hangs(m2, Head(keep + rest[1..]), keep + rest[1..])
  {
    var s, s2, n := keep + rest, keep + rest[1..], |keep|;
    LinkFacts(m, Head(s), keep, rest);
    assert forall i | 0 <= i < n :: s2[i] == s[i] == keep[i];
    assert forall i | n <= i < |s2| :: s2[i] == s[i + 1];
    forall i | 0 <= i < |s2| ensures s2[i] != NULL && WordOf(m2, s2[i]).p == Head(s2[i + 1..]) {
      if i >= n { assert s2[i + 1..] == s[i + 2..]; }
    }
  }

  lemma AliveDrops(m: Memory, keep: seq<Ref>, rest: seq<Ref>)
    requires rest != [] && WordOf(m, rest[0]).mark
    ensures Alive(m, keep + rest[1..]) == Alive(m, keep + rest)
  {
    AliveConcat(m, keep, rest);
    AliveConcat(m, keep, rest[1..]);
  }

  ghost predicate SameCounts(a: map<Ref, int>, b: map<Ref, int>) {
    forall g | g != NULL :: Count(a, g) == Count(b, g)
  }

  datatype Outcome = Moved | Found | Ended | Refused

  /** One turn of the inner loop: the group under the accessor is unlinked, recognised or
      passed. */
  method Turn(acr: TwinAccessor, arg: Ref, mayFail: bool, ghost base: map<Ref, int>, ghost m: Memory, ghost keep: seq<Ref>, ghost rest: seq<Ref>)
    returns (outcome: Outcome, ghost keep2: seq<Ref>, ghost rest2: seq<Ref>)
    requires acr.Counted(base) && acr.Between(keep, rest) && acr.focus != NULL && Frozen(m, acr.chain.word) && arg !in keep
    modifies acr, acr.chain
    ensures acr.Counted(base) && Hangs(acr.chain.word, acr.chain.top, keep2 + rest2) && Frozen(m, acr.chain.word)
    ensures Alive(m, keep2 + rest2) == Alive(m, keep + rest)
    ensures outcome.Moved? ==> acr.Between(keep2, rest2) && arg !in keep2 && |rest2| < |rest|
    ensures outcome.Found? ==> arg in keep + rest && !WordOf(m, arg).mark
    ensures outcome.Refused? ==> mayFail
    ensures !outcome.Ended?
  {
    keep2, rest2 := keep, rest;
    ghost var now, g := acr.chain.word, acr.focus;
    assert (keep + rest)[|keep|] == rest[0];
    if WordOf(acr.chain.word, acr.focus).mark {
      var lucky: bool := *;
      var ok := acr.PassMarked(lucky || !mayFail, base, keep, rest);
      FrozenOn(m, now, acr.chain.word);
      outcome := if ok then Moved else Refused;
      if ok {
        AliveDrops(m, keep, rest);
        rest2 := rest[1..];
      }
    } else if acr.focus == arg {
      outcome := Found;
    } else {
      acr.PassLive(base, keep, rest);
      assert keep + rest == (keep + [g]) + rest[1..];
      outcome, keep2, rest2 := Moved, keep + [g], rest[1..];
    }
  }

  /** One walk from the top, up to the group, to the end, or to a refused CAS. */
  method Walk(arg: Ref, chain: Chain, mayFail: bool, ghost base: map<Ref, int>, ghost s: seq<Ref>) returns (outcome: Outcome, ghost left: seq<Ref>)
    requires Hangs(chain.word, chain.top, s) && SameCounts(chain.writers, base) && arg != NULL
    modifies chain
    ensures Hangs(chain.word, chain.top, left) && Frozen(old(chain.word), chain.word) && SameCounts(chain.writers, base)
    ensures Alive(old(chain.word), left) == Alive(old(chain.word), s)
    ensures outcome.Found? ==> arg in left && !WordOf(old(chain.word), arg).mark
    ensures outcome.Ended? ==> left == Alive(old(chain.word), s) && arg !in left
    ensures outcome.Refused? ==> mayFail
    ensures !outcome.Moved?
  {
    hide Hangs, Alive;
    ghost var m := chain.word;
    var acr := new TwinAccessor(chain);
    assert [] + s == s;
    LinkFacts(m, chain.top, [], s);
    acr.Setup(base);
    ghost var keep, rest := [], s;
    while acr.focus != NULL
      invariant acr.chain == chain && acr.Counted(base) && acr.Between(keep, rest) && Frozen(m, chain.word)
      invariant Alive(m, keep + rest) == Alive(m, s) && arg !in keep
      decreases |rest|
    {
      ghost var nodes := keep + rest;
      outcome, keep, rest := Turn(acr, arg, mayFail, base, m, keep, rest);
      if !outcome.Moved? {
        AliveMembers(m, nodes, arg);
        AliveMembers(m, keep + rest, arg);
        acr.Close(base);
        return outcome, keep + rest;
      }
    }
    LinkFacts(chain.word, chain.top, keep, rest);
    AllKept(m, keep, rest);
    acr.Close(base);
    return Ended, keep + rest;
  }

  lemma AllKept(m: Memory, keep: seq<Ref>, rest: seq<Ref>)
    requires rest == [] && forall g | g in keep :: !WordOf(m, g).mark
    ensures keep + rest == keep == Alive(m, keep + rest)
  {
    assert keep + rest == keep;
    AliveAlready(m, keep);
  }

  /** The search.  failures bounds how often the weak compare-and-exchange may fail for no
      reason; each failure makes the search start over.  s is the chain before, left the
      chain after.  The result says whether the group is present and unmarked; every
      marked group passed is unlinked and keeps its own word, no other mark or writer count
      has changed, and an unsuccessful search leaves no marked group behind. */
  method IsInValidChain(arg: Ref, chain: Chain, failures: nat, ghost s: seq<Ref>) returns (found: bool, ghost left: seq<Ref>)
    requires Hangs(chain.word, chain.top, s)
    modifies chain
    ensures Hangs(chain.word, chain.top, left)
    ensures found <==> arg in s && !WordOf(old(chain.word), arg).mark
    ensures Alive(old(chain.word), left) == Alive(old(chain.word), s)
    ensures !found && arg != NULL ==> left == Alive(old(chain.word), s)
    ensures Frozen(old(chain.word), chain.word) && SameCounts(chain.writers, old(chain.writers))
  {
    left := s;
    if arg == NULL {
      NullIsNowhere(chain.word, chain.top, s);
      return false, s;
    }
    ghost var m := chain.word;
    ghost var base := chain.writers;
    var budget := failures;
    while true
      invariant Hangs(chain.word, chain.top, left) && Frozen(m, chain.word) && SameCounts(chain.writers, base)
      invariant Alive(m, left) == Alive(m, s)
      decreases budget
    {
      ghost var now := chain.word;
      var outcome: Outcome;
      ghost var before := left;
      AliveFrame(m, now, before);
      outcome, left := Walk(arg, chain, budget > 0, base, before);
      AliveFrame(m, now, left);
      AliveMembers(m, left, arg);
      AliveMembers(m, s, arg);
      match outcome
      case Found => return true, left;
      case Ended => return false, left;
      case Refused => budget := budget - 1;
      case Moved =>
        assert false;
    }
  }

  lemma NullIsNowhere(m: Memory, first: Ref, s: seq<Ref>)
    requires Hangs(m, first, s)
    ensures NULL !in s
  {
  }
}
