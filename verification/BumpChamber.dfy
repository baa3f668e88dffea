/** The allocator that only allocates, underneath the slot groups: threads cut rooms off the
    free end of a chamber with a CAS on its offset and then write the header of the room
    they have won.  Rooms are described relative to the start of the chamber. */
module BumpChamber {
  import opened Reclaim
  import opened SlotLayout

  /** default_align_size, sizeof( room_boader ), sizeof( alloc_in_room ) */
  const ROOM_UNIT: nat := 32
  const BORDER: nat := 24
  const IN_ROOM: nat := 16
  /** calc_init_offset: the chamber's own header fills one unit. */
  const INIT_OFFSET: nat := 32

  /** x if it is a multiple of a, or else the next multiple. */
  function AlignUp(x: nat, a: nat): nat
    requires a > 0
  {
    a * (x / a + if x % a == 0 then 0 else 1)
  }

  lemma AlignUpIsLeast(x: nat, a: nat)
    requires a > 0
    ensures AlignUp(x, a) % a == 0 && x <= AlignUp(x, a) < x + a
  {
    var q := x / a + if x % a == 0 then 0 else 1;
    assert x == x / a * a + x % a;
    assert AlignUp(x, a) == q * a && (x / a + 1) * a == x / a * a + a;
    MultipleMod(q, a);
  }

  lemma AlignUpMonotone(x: nat, y: nat, a: nat)
    requires a > 0 && x <= y
    ensures AlignUp(x, a) <= AlignUp(y, a)
  {
    AlignUpIsLeast(x, a);
    AlignUpIsLeast(y, a);
    if AlignUp(y, a) < AlignUp(x, a) { UnitGap(AlignUp(y, a), AlignUp(x, a), a); }
  }

  /** calc_addr_of_allocated_memory_based_on_room_boader */
  function MemoryAt(addr: nat, align: nat): nat
    requires align > 0
  {
    AlignUp(addr + BORDER + IN_ROOM, align)
  }

  /** calc_addr_of_end_of_tail_padding_based_on_room_boader */
  function EndAt(addr: nat, n: nat, align: nat): nat
    requires align > 0
  {
    (MemoryAt(addr, align) + n + ROOM_UNIT) / ROOM_UNIT * ROOM_UNIT
  }

  lemma EndIsBehind(addr: nat, n: nat, align: nat)
    requires align > 0
    ensures EndAt(addr, n, align) % ROOM_UNIT == 0
    ensures addr + BORDER + IN_ROOM <= MemoryAt(addr, align) < addr + BORDER + IN_ROOM + align
    ensures MemoryAt(addr, align) + n < EndAt(addr, n, align) <= MemoryAt(addr, align) + n + ROOM_UNIT
  {
    AlignUpIsLeast(addr + BORDER + IN_ROOM, align);
    var x := MemoryAt(addr, align) + n + ROOM_UNIT;
    assert x == x / ROOM_UNIT * ROOM_UNIT + x % ROOM_UNIT;
  }

  lemma EndMonotone(a: nat, b: nat, n: nat, align: nat)
    requires align > 0 && a <= b
    ensures EndAt(a, n, align) <= EndAt(b, n, align)
  {
    AlignUpMonotone(a + BORDER + IN_ROOM, b + BORDER + IN_ROOM, align);
  }

  /** A room of a chamber: from start to end, for n bytes. */
  datatype Room = Room(start: nat, end: nat, n: nat, align: nat)

  /** room_boader: the size of the room, the address handed out, the address of the tail. */
  datatype Border = Border(chopped: int, mem: nat, tail: nat)

  datatype Pc =
    | Idle
    | Trying(n: nat, align: nat, cur: nat)     // in the CAS loop
    | Won(room: Room)                          // the border is not written yet

  /** rooms is an auxiliary variable: the rooms in the order in which they were won. */
  datatype Chamber = Chamber(base: nat, size: nat, offset: nat, borders: map<nat, Border>, threads: seq<Pc>, rooms: seq<Room>)

  datatype Action =
    | Spawn
    | Call(t: nat, n: nat, align: nat)         // adapt the size, load offset_
    | Try(t: nat)                              // one round of the loop
    | Write(t: nat)                            // construct the border, return the memory

  function Init(base: nat, size: nat): Chamber { Chamber(base, size, INIT_OFFSET, map[], [], []) }

  /** A round of the loop gives up. */
  predicate NoSpace(c: Chamber, n: nat, align: nat, cur: nat)
    requires align > 0
  {
    var end := EndAt(c.base + cur, n, align);
    c.size - cur < n + ROOM_UNIT || end <= c.base || end > c.base + c.size
  }

  function RoomAt(c: Chamber, n: nat, align: nat, cur: nat): Room
    requires align > 0 && !NoSpace(c, n, align, cur)
  {
    Room(cur, EndAt(c.base + cur, n, align) - c.base, n, align)
  }

  function BorderOf(base: nat, r: Room): Border
    requires r.align > 0
  {
    Border(r.end - r.start, MemoryAt(base + r.start, r.align), MemoryAt(base + r.start, r.align) + r.n)
  }

  predicate Enabled(c: Chamber, a: Action) {
    match a
    case Spawn => true
    case Call(t, n, align) => t < |c.threads| && c.threads[t].Idle? && IsAlignment(align) && c.base + c.size + n + align + 3 * ROOM_UNIT < WORD
    case Try(t) => t < |c.threads| && c.threads[t].Trying? && c.threads[t].align > 0
    case Write(t) => t < |c.threads| && c.threads[t].Won? && c.threads[t].room.align > 0
  }

  function Do(c: Chamber, a: Action): Chamber
    requires Enabled(c, a)
  {
    match a
    case Spawn => c.(threads := c.threads + [Idle])
    case Call(t, n, align) => c.(threads := c.threads[t := Trying(if n == 0 then 1 else n, align, c.offset)])
    case Try(t) =>
      var th := c.threads[t];
      if NoSpace(c, th.n, th.align, th.cur) then c.(threads := c.threads[t := Idle])
      else if c.offset != th.cur then c.(threads := c.threads[t := th.(cur := c.offset)])
      else
        var r := RoomAt(c, th.n, th.align, th.cur);
        c.(offset := r.end, threads := c.threads[t := Won(r)], rooms := c.rooms + [r])
    case Write(t) =>
      var r := c.threads[t].room;
      c.(borders := c.borders[r.start := BorderOf(c.base, r)], threads := c.threads[t := Idle])
  }

  // ---- the invariant ----

  predicate RoomOk(base: nat, size: nat, r: Room) {
    && r.n > 0 && r.align > 0 && base + r.end == EndAt(base + r.start, r.n, r.align)
    && r.start % ROOM_UNIT == 0 && INIT_OFFSET <= r.start && r.end <= size
  }

  /** The rooms tile the chamber from the initial offset to the offset. */
  ghost predicate Tiled(rooms: seq<Room>, offset: nat) {
    && (if rooms == [] then offset == INIT_OFFSET else rooms[0].start == INIT_OFFSET && rooms[|rooms| - 1].end == offset)
    && forall i | 1 <= i < |rooms| :: rooms[i].start == rooms[i - 1].end
  }

  ghost predicate IsPending(threads: seq<Pc>, r: Room) {
    exists t :: 0 <= t < |threads| && threads[t] == Won(r)
  }

  ghost predicate BorderThere(c: Chamber, r: Room)
    requires r.align > 0
  {
    (r.start in c.borders && c.borders[r.start] == BorderOf(c.base, r)) || IsPending(c.threads, r)
  }

  ghost predicate RoomsOk(c: Chamber) {
    && c.base % ROOM_UNIT == 0 && INIT_OFFSET <= c.offset <= c.size && c.offset % ROOM_UNIT == 0
    && Tiled(c.rooms, c.offset)
    && forall i | 0 <= i < |c.rooms| :: RoomOk(c.base, c.size, c.rooms[i])
  }

  ghost predicate ThreadsOk(c: Chamber) {
    forall t | 0 <= t < |c.threads| :: match c.threads[t]
      case Idle => true
      case Trying(n, align, cur) => n > 0 && align > 0 && INIT_OFFSET <= cur <= c.offset && cur % ROOM_UNIT == 0
      case Won(r) => r in c.rooms
  }

  ghost predicate BordersOk(c: Chamber)
    requires RoomsOk(c)
  {
    forall i | 0 <= i < |c.rooms| :: BorderThere(c, c.rooms[i])
  }

  ghost predicate Inv(c: Chamber) { RoomsOk(c) && ThreadsOk(c) && BordersOk(c) }

  lemma InitInv(base: nat, size: nat)
    requires base % ROOM_UNIT == 0 && size >= INIT_OFFSET
    ensures Inv(Init(base, size))
  {
  }

  lemma NewRoomOk(c: Chamber, n: nat, align: nat)
    requires RoomsOk(c) && n > 0 && align > 0 && !NoSpace(c, n, align, c.offset)
    ensures var r := RoomAt(c, n, align, c.offset);
            && RoomOk(c.base, c.size, r) && r.start < r.end && r.end % ROOM_UNIT == 0
            && Tiled(c.rooms + [r], r.end)
  {
    hide EndAt, MemoryAt;
    EndIsBehind(c.base + c.offset, n, align);
  }

  lemma StepKeepsRooms(c: Chamber, a: Action)
    requires Inv(c) && Enabled(c, a)
    ensures RoomsOk(Do(c, a)) && c.rooms <= Do(c, a).rooms && c.offset <= Do(c, a).offset
  {
    hide EndAt, MemoryAt;
    if a.Try? {
      var th := c.threads[a.t];
      if !NoSpace(c, th.n, th.align, th.cur) && c.offset == th.cur { NewRoomOk(c, th.n, th.align); }
    }
  }

  lemma StepKeepsThreads(c: Chamber, a: Action)
    requires Inv(c) && Enabled(c, a)
    ensures ThreadsOk(Do(c, a))
  {
    hide EndAt, MemoryAt;
    StepKeepsRooms(c, a);
  }

  /** Rooms start at different offsets. */
  lemma {:induction false} StartsIncrease(c: Chamber, i: nat, j: nat)
    requires RoomsOk(c) && i < j < |c.rooms|
    ensures c.rooms[i].end <= c.rooms[j].start && c.rooms[i].start < c.rooms[i].end
    decreases j - i
  {
    RoomNotEmpty(c.base, c.size, c.rooms[i]);
    if i + 1 < j {
      RoomNotEmpty(c.base, c.size, c.rooms[j - 1]);
      StartsIncrease(c, i, j - 1);
    }
  }

  lemma RoomNotEmpty(base: nat, size: nat, r: Room)
    requires RoomOk(base, size, r)
    ensures r.start + BORDER + IN_ROOM < r.end
  {
    hide EndAt, MemoryAt;
    EndIsBehind(base + r.start, r.n, r.align);
  }

  lemma SameStart(c: Chamber, r: Room, q: Room)
    requires RoomsOk(c) && r in c.rooms && q in c.rooms && r.start == q.start
    ensures r == q
  {
    var i :| 0 <= i < |c.rooms| && c.rooms[i] == r;
    var j :| 0 <= j < |c.rooms| && c.rooms[j] == q;
    if i < j { StartsIncrease(c, i, j); } else if j < i { StartsIncrease(c, j, i); }
  }

  lemma StepKeepsBorders(c: Chamber, a: Action)
    requires Inv(c) && Enabled(c, a)
    ensures RoomsOk(Do(c, a)) && BordersOk(Do(c, a))
  {
    hide EndAt, MemoryAt, IsPending;
    StepKeepsRooms(c, a);
    var d := Do(c, a);
    forall i | 0 <= i < |d.rooms| ensures BorderThere(d, d.rooms[i]) {
      var r := d.rooms[i];
      if a.Write? {
        BorderWritten(c, a.t, r);
      } else if r !in c.rooms {
        WinnerIsPending(d, a.t, r);
      } else {
        OthersStay(c, d, a, r);
      }
    }
  }

  lemma BorderWritten(c: Chamber, t: nat, r: Room)
    requires Inv(c) && Enabled(c, Write(t)) && r in c.rooms
    ensures BorderThere(Do(c, Write(t)), r)
  {
    hide EndAt, MemoryAt;
    var q := c.threads[t].room;
    var i :| 0 <= i < |c.rooms| && c.rooms[i] == r;
    assert BorderThere(c, c.rooms[i]);
    if r.start == q.start {
      SameStart(c, r, q);
    } else if IsPending(c.threads, r) {
      var u :| 0 <= u < |c.threads| && c.threads[u] == Won(r);
      assert Do(c, Write(t)).threads[u] == Won(r);
    }
  }

  lemma WinnerIsPending(d: Chamber, t: nat, r: Room)
    requires r.align > 0 && t < |d.threads| && d.threads[t] == Won(r)
    ensures BorderThere(d, r)
  {
  }

  lemma OthersStay(c: Chamber, d: Chamber, a: Action, r: Room)
    requires Inv(c) && Enabled(c, a) && !a.Write? && d == Do(c, a) && r in c.rooms
    ensures BorderThere(d, r)
  {
    hide EndAt, MemoryAt;
    var i :| 0 <= i < |c.rooms| && c.rooms[i] == r;
    assert BorderThere(c, c.rooms[i]);
    if IsPending(c.threads, r) {
      var u :| 0 <= u < |c.threads| && c.threads[u] == Won(r);
      assert d.threads[u] == Won(r);
    }
  }

  /** Every step of every interleaving keeps the rooms tiling the chamber. */
  lemma StepKeepsInv(c: Chamber, a: Action)
    requires Inv(c) && Enabled(c, a)
    ensures Inv(Do(c, a))
  {
    StepKeepsRooms(c, a);
    StepKeepsThreads(c, a);
    StepKeepsBorders(c, a);
  }

  // ---- runs ----

  ghost predicate IsRun(c: Chamber, run: seq<Action>)
    decreases |run|
  {
    run == [] || (Enabled(c, run[0]) && IsRun(Do(c, run[0]), run[1..]))
  }

  ghost function After(c: Chamber, run: seq<Action>): Chamber
    requires IsRun(c, run)
    decreases |run|
  {
    if run == [] then c else After(Do(c, run[0]), run[1..])
  }

  /** Over every run rooms are only added behind the others. */
  lemma {:induction false} RunKeepsInv(c: Chamber, run: seq<Action>)
    requires Inv(c) && IsRun(c, run)
    ensures Inv(After(c, run)) && c.rooms <= After(c, run).rooms && c.offset <= After(c, run).offset
    decreases |run|
  {
    if run != [] {
      StepKeepsRooms(c, run[0]);
      StepKeepsInv(c, run[0]);
      RunKeepsInv(Do(c, run[0]), run[1..]);
    }
  }

  /** The memory of a room has the requested alignment; the border and the header lie in
      front of it and the tail byte behind it, all inside of the room. */
  lemma MemoryInRoom(c: Chamber, r: Room)
    requires RoomsOk(c) && r in c.rooms
    ensures var b := BorderOf(c.base, r);
            && b.mem % r.align == 0 && b.tail == b.mem + r.n
            && c.base + r.start + BORDER <= b.mem - IN_ROOM && b.tail < c.base + r.end
  {
    hide EndAt;
    EndIsBehind(c.base + r.start, r.n, r.align);
    AlignUpIsLeast(c.base + r.start + BORDER + IN_ROOM, r.align);
  }

  /** Two rooms, with all that is in them, do not overlap. */
  lemma RoomsApart(c: Chamber, r: Room, q: Room)
    requires RoomsOk(c) && r in c.rooms && q in c.rooms && r != q
    ensures r.end <= q.start || q.end <= r.start
  {
    var i :| 0 <= i < |c.rooms| && c.rooms[i] == r;
    var j :| 0 <= j < |c.rooms| && c.rooms[j] == q;
    if i < j { StartsIncrease(c, i, j); } else { StartsIncrease(c, j, i); }
  }

  /** The memory of two rooms is apart, as the slot groups that are placed in it demand. */
  lemma MemoryApart(c: Chamber, r: Room, q: Room)
    requires RoomsOk(c) && r in c.rooms && q in c.rooms && r != q
    ensures r.align > 0 && q.align > 0
    ensures var a, b := BorderOf(c.base, r), BorderOf(c.base, q); a.mem + r.n < b.mem || b.mem + q.n < a.mem
  {
    RoomsApart(c, r, q);
    MemoryInRoom(c, r);
    MemoryInRoom(c, q);
  }

  lemma NoSpaceLater(c: Chamber, n: nat, align: nat, cur: nat)
    requires align > 0 && cur <= c.offset && NoSpace(c, n, align, cur)
    ensures NoSpace(c, n, align, c.offset)
  {
    hide EndAt;
    EndMonotone(c.base + cur, c.base + c.offset, n, align);
    EndIsBehind(c.base + c.offset, n, align);
    EndIsBehind(c.base + cur, n, align);
  }

  /** There is a place for n bytes: an aligned address p that leaves space for the border and
      the header, and a multiple e of the unit behind the tail byte, both in the chamber. */
  predicate IsPlace(c: Chamber, n: nat, align: nat, p: nat, e: nat)
    requires align > 0
  {
    && p % align == 0 && c.base + c.offset + BORDER + IN_ROOM <= p
    && e % ROOM_UNIT == 0 && p + n < e <= c.base + c.size
  }

  ghost predicate CanPlace(c: Chamber, n: nat, align: nat)
    requires align > 0
  {
    exists p: nat, e: nat :: IsPlace(c, n, align, p, e)
  }

  /** No aligned address comes before the one that is computed, and no end either. */
  lemma LeastPlace(c: Chamber, n: nat, align: nat, p: nat, e: nat)
    requires align > 0 && IsPlace(c, n, align, p, e)
    ensures MemoryAt(c.base + c.offset, align) <= p && EndAt(c.base + c.offset, n, align) <= e
  {
    var addr := c.base + c.offset;
    EndIsBehind(addr, n, align);
    AlignUpIsLeast(addr + BORDER + IN_ROOM, align);
    if p < MemoryAt(addr, align) { UnitGap(p, MemoryAt(addr, align), align); }
    hide MemoryAt, EndAt;
    if e < EndAt(addr, n, align) { UnitGap(e, EndAt(addr, n, align), ROOM_UNIT); }
  }

  lemma PlaceExactly(c: Chamber, n: nat, align: nat)
    requires RoomsOk(c) && n > 0 && align > 0
    ensures NoSpace(c, n, align, c.offset) <==> !CanPlace(c, n, align)
  {
    if CanPlace(c, n, align) {
      var p: nat, e: nat :| IsPlace(c, n, align, p, e);
      LeastPlace(c, n, align, p, e);
      hide EndAt, MemoryAt;
      EndIsBehind(c.base + c.offset, n, align);
    }
    if !NoSpace(c, n, align, c.offset) { FoundPlace(c, n, align); }
  }

  lemma FoundPlace(c: Chamber, n: nat, align: nat)
    requires RoomsOk(c) && n > 0 && align > 0 && !NoSpace(c, n, align, c.offset)
    ensures CanPlace(c, n, align)
  {
    var addr := c.base + c.offset;
    EndIsBehind(addr, n, align);
    AlignUpIsLeast(addr + BORDER + IN_ROOM, align);
    assert MemoryAt(addr, align) % align == 0;
    hide EndAt, MemoryAt;
    assert IsPlace(c, n, align, MemoryAt(addr, align), EndAt(addr, n, align));
  }

  /** A round of the loop gives up only if at that very step there is no place for the
      request, even if the offset that it looked at is an old one.  With the current offset
      it wins a room exactly if there is a place; with an old one it looks again. */
  lemma GivesUpRightly(c: Chamber, t: nat)
    requires Inv(c) && Enabled(c, Try(t))
    ensures var th, next := c.threads[t], Do(c, Try(t)).threads[t];
            && (next.Idle? ==> !CanPlace(c, th.n, th.align))
            && (th.cur == c.offset && CanPlace(c, th.n, th.align) ==> next.Won? && next.room.start == c.offset && next.room.n == th.n && next.room.align == th.align)
            && (th.cur != c.offset && CanPlace(c, th.n, th.align) ==> next == Trying(th.n, th.align, c.offset))
            && (th.cur == c.offset && !CanPlace(c, th.n, th.align) ==> next.Idle?)
  {
    var th := c.threads[t];
    PlaceExactly(c, th.n, th.align);
    if NoSpace(c, th.n, th.align, th.cur) { NoSpaceLater(c, th.n, th.align, th.cur); }
    hide NoSpace, CanPlace;
  }

  /** From c to d a room for n bytes was added at the offset, and its border is written. */
  predicate HasRoom(c: Chamber, d: Chamber, n: nat, align: nat)
    requires align > 0
  {
    var r := Room(c.offset, d.offset, n, align);
    d.rooms == c.rooms + [r] && c.offset in d.borders && d.borders[c.offset] == BorderOf(c.base, r)
  }

  /** A call that nobody interferes with.  If there is a place for the bytes asked for, and
      for one byte if none is asked for, it writes the border of a room at the offset and
      returns the memory of that room; otherwise it returns null and changes nothing. */
  lemma AloneAllocates(c: Chamber, t: nat, n: nat, align: nat) returns (run: seq<Action>)
    requires Inv(c) && align > 0 && Enabled(c, Call(t, n, align))
    ensures IsRun(c, run) && t < |After(c, run).threads| && After(c, run).threads[t].Idle?
    ensures CanPlace(c, Max(n, 1), align) ==> HasRoom(c, After(c, run), Max(n, 1), align)
    ensures !CanPlace(c, Max(n, 1), align) ==> After(c, run) == c
  {
    var c1 := Do(c, Call(t, n, align));
    StepKeepsInv(c, Call(t, n, align));
    GivesUpRightly(c1, t);
    SamePlaces(c, c1, Max(n, 1), align);
    hide CanPlace, NoSpace;
    var c2 := Do(c1, Try(t));
    if CanPlace(c, Max(n, 1), align) {
      StepKeepsInv(c1, Try(t));
      var c3 := Do(c2, Write(t));
      RunOfThree(c, Call(t, n, align), Try(t), Write(t));
      run := [Call(t, n, align), Try(t), Write(t)];
    } else {
      RunOfTwo(c, Call(t, n, align), Try(t));
      run := [Call(t, n, align), Try(t)];
      assert c2.threads == c.threads;
    }
  }

  lemma SamePlaces(c: Chamber, d: Chamber, n: nat, align: nat)
    requires align > 0 && c.base == d.base && c.offset == d.offset && c.size == d.size
    ensures CanPlace(c, n, align) <==> CanPlace(d, n, align)
  {
    if CanPlace(c, n, align) {
      var p: nat, e: nat :| IsPlace(c, n, align, p, e);
      assert IsPlace(d, n, align, p, e);
    }
    if CanPlace(d, n, align) {
      var p: nat, e: nat :| IsPlace(d, n, align, p, e);
      assert IsPlace(c, n, align, p, e);
    }
  }

  lemma RunOfTwo(c: Chamber, a: Action, b: Action)
    requires Enabled(c, a) && Enabled(Do(c, a), b)
    ensures IsRun(c, [a, b]) && After(c, [a, b]) == Do(Do(c, a), b)
  {
    hide Enabled, Do;
    assert [a, b][1..] == [b] && [b][1..] == [];
    assert IsRun(Do(Do(c, a), b), []);
    assert IsRun(Do(c, a), [b]);
    assert After(Do(c, a), [b]) == Do(Do(c, a), b);
  }

  lemma RunOfThree(c: Chamber, a: Action, b: Action, d: Action)
    requires Enabled(c, a) && Enabled(Do(c, a), b) && Enabled(Do(Do(c, a), b), d)
    ensures IsRun(c, [a, b, d]) && After(c, [a, b, d]) == Do(Do(Do(c, a), b), d)
  {
    hide Enabled, Do;
    assert [a, b, d][1..] == [b, d];
    RunOfTwo(Do(c, a), b, d);
  }

  // ---- walking over the rooms ----

  /** The rooms that the iterator visits from cur to the sentinel end. */
  function Visit(borders: map<nat, Border>, cur: nat, end: nat): seq<nat>
    decreases end - cur
  {
    if cur >= end then []
    else if cur !in borders || borders[cur].chopped <= 0 then [cur]
    else
      var next := cur + borders[cur].chopped;
      [cur] + Visit(borders, if next > end then end else next, end)
  }

  function Starts(rooms: seq<Room>): (s: seq<nat>)
    ensures |s| == |rooms| && forall i | 0 <= i < |s| :: s[i] == rooms[i].start
  {
    if rooms == [] then [] else [rooms[0].start] + Starts(rooms[1..])
  }

  /** No thread has won a room whose border it has not written. */
  predicate Quiescent(c: Chamber) { forall t | 0 <= t < |c.threads| :: !c.threads[t].Won? }

  /** The borders lead from cur through the rooms to the offset. */
  ghost predicate Chained(borders: map<nat, Border>, rooms: seq<Room>, cur: nat, offset: nat) {
    if rooms == [] then cur == offset
    else
      && rooms[0].start == cur < rooms[0].end <= offset
      && cur in borders && borders[cur].chopped == rooms[0].end - cur
      && Chained(borders, rooms[1..], rooms[0].end, offset)
  }

  lemma {:induction false} VisitChained(borders: map<nat, Border>, rooms: seq<Room>, cur: nat, offset: nat)
    requires Chained(borders, rooms, cur, offset)
    ensures Visit(borders, cur, offset) == Starts(rooms)
    decreases |rooms|
  {
    if rooms != [] { VisitChained(borders, rooms[1..], rooms[0].end, offset); }
  }

  function StartOf(c: Chamber, i: nat): nat { if i < |c.rooms| then c.rooms[i].start else c.offset }

  lemma {:induction false} ChainedFrom(c: Chamber, i: nat)
    requires Inv(c) && Quiescent(c) && i <= |c.rooms|
    ensures Chained(c.borders, c.rooms[i..], StartOf(c, i), c.offset)
    decreases |c.rooms| - i
  {
    if i < |c.rooms| {
      BorderKnown(c, i);
      EndsBefore(c, i);
      ChainedFrom(c, i + 1);
      hide Inv, Quiescent;
      assert c.rooms[i..][1..] == c.rooms[i + 1..];
    }
  }

  lemma BorderKnown(c: Chamber, i: nat)
    requires Inv(c) && Quiescent(c) && i < |c.rooms|
    ensures c.rooms[i].align > 0 && c.rooms[i].start in c.borders && c.borders[c.rooms[i].start] == BorderOf(c.base, c.rooms[i])
  {
    hide EndAt, MemoryAt;
    assert BorderThere(c, c.rooms[i]);
  }

  lemma EndsBefore(c: Chamber, i: nat)
    requires RoomsOk(c) && i < |c.rooms|
    ensures c.rooms[i].start < c.rooms[i].end <= c.offset
    ensures c.rooms[i].end == if i + 1 < |c.rooms| then c.rooms[i + 1].start else c.offset
  {
    RoomNotEmpty(c.base, c.size, c.rooms[i]);
    var last := |c.rooms| - 1;
    RoomNotEmpty(c.base, c.size, c.rooms[last]);
    if i < last { StartsIncrease(c, i, last); }
  }

  /** Without a call under way the walk visits every room once, in order, and ends at the
      offset. */
  lemma WalkVisitsAll(c: Chamber)
    requires Inv(c) && Quiescent(c)
    ensures Visit(c.borders, INIT_OFFSET, c.offset) == Starts(c.rooms)
  {
    ChainedFrom(c, 0);
    assert c.rooms[0..] == c.rooms;
    VisitChained(c.borders, c.rooms, INIT_OFFSET, c.offset);
  }

  /** search_associated_room_boader */
  function Search(borders: map<nat, Border>, cur: nat, end: nat, p: nat): Option<nat>
    decreases end - cur
  {
    if cur >= end || cur !in borders || borders[cur].chopped <= 0 then None
    else if borders[cur].mem <= p < borders[cur].tail then Some(cur)
    else
      var next := cur + borders[cur].chopped;
      Search(borders, if next > end then end else next, end, p)
  }

  predicate IsIn(c: Chamber, r: Room, p: nat)
    requires r.align > 0
  {
    BorderOf(c.base, r).mem <= p < BorderOf(c.base, r).tail
  }

  ghost predicate Holds(c: Chamber, j: nat, p: nat) {
    j < |c.rooms| && c.rooms[j].align > 0 && IsIn(c, c.rooms[j], p)
  }

  lemma {:induction false} SearchFrom(c: Chamber, i: nat, p: nat)
    requires Inv(c) && Quiescent(c) && i <= |c.rooms|
    ensures match Search(c.borders, StartOf(c, i), c.offset, p)
      case None => forall j | i <= j :: !Holds(c, j, p)
      case Some(s) => exists j :: i <= j && Holds(c, j, p) && s == c.rooms[j].start
    decreases |c.rooms| - i
  {
    if i < |c.rooms| {
      BorderKnown(c, i);
      EndsBefore(c, i);
      SearchFrom(c, i + 1, p);
      hide Inv, Quiescent, MemoryAt, EndAt;
      assert Holds(c, i, p) <==> IsIn(c, c.rooms[i], p);
    }
  }

  /** The room found for an address is the one whose memory the address lies in; there is
      none exactly if the address lies in no room's memory. */
  lemma SearchFinds(c: Chamber, r: Room, p: nat)
    requires Inv(c) && Quiescent(c) && r in c.rooms
    ensures r.align > 0
    ensures Search(c.borders, INIT_OFFSET, c.offset, p) == Some(r.start) <==> IsIn(c, r, p)
    ensures Search(c.borders, INIT_OFFSET, c.offset, p) == None <==> forall j :: !Holds(c, j, p)
  {
    hide EndAt, MemoryAt, Search;
    SearchFrom(c, 0, p);
    assert StartOf(c, 0) == INIT_OFFSET;
    var i :| 0 <= i < |c.rooms| && c.rooms[i] == r;
    assert Holds(c, i, p) <==> IsIn(c, r, p);
    var found := Search(c.borders, INIT_OFFSET, c.offset, p);
    if found.Some? {
      var j :| 0 <= j && Holds(c, j, p) && found.value == c.rooms[j].start;
      if c.rooms[j] != r { OneRoom(c, r, c.rooms[j], p); }
    }
  }

  lemma OneRoom(c: Chamber, r: Room, q: Room, p: nat)
    requires RoomsOk(c) && r in c.rooms && q in c.rooms && r != q
    ensures r.align > 0 && q.align > 0 && !(IsIn(c, r, p) && IsIn(c, q, p)) && r.start != q.start
  {
    MemoryInRoom(c, r);
    MemoryInRoom(c, q);
    RoomsApart(c, r, q);
    RoomNotEmpty(c.base, c.size, r);
    RoomNotEmpty(c.base, c.size, q);
  }

  /** Below the bound that a call keeps, no address computed for it leaves the word. */
  lemma EndInWord(addr: nat, n: nat, align: nat)
    requires align > 0 && addr + n + align + 3 * ROOM_UNIT < WORD
    ensures addr < EndAt(addr, if n == 0 then 1 else n, align) < WORD
  {
    hide EndAt, MemoryAt;
    EndIsBehind(addr, if n == 0 then 1 else n, align);
  }
}
