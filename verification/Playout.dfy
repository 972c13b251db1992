/**
 * What the jitter buffer is for, without wrapping: a map from unbounded positions to
 * frames and a cursor. The buffer simulates it as long as arrivals stay in a window
 * around the cursor.
 */
module Playout {
  import opened Words
  import opened Jitter

  datatype Playout<T> = Playout(frames: map<int, T>, cursor: Option<int>, tuning: Tuning)

  function Idle<T>(): Playout<T> { Playout(map[], None, UNTUNED) }

  function Arrive<T>(p: Playout<T>, i: int, pcm: T): Playout<T> {
    var late := p.cursor.Some? && i < p.cursor.value;
    var counted := p.(tuning := CountPush(p.tuning, late));
    if late || i in p.frames || |p.frames| >= 8 then counted
    else counted.(frames := p.frames[i := pcm])
  }

  lemma SomeMember(s: set<int>)
    requires s != {}
    ensures exists x :: x in s
  {
    assert !(forall x :: x !in s) by { assert (forall x :: x !in s) ==> s == {}; }
  }

  ghost function Least(s: set<int>): (m: int)
    requires s != {}
    ensures m in s && forall x | x in s :: m <= x
  {
    SomeMember(s);
    var x :| x in s;
    if s - {x} == {} then
      assert forall y | y in s :: y == x || y in s - {x};
      x
    else
      var m := Least(s - {x});
      assert forall y | y in s :: y == x || y in s - {x};
      if x < m then x else m
  }

  ghost function Play<T>(p: Playout<T>): (Playout<T>, Option<(int, T)>) {
    if p.frames == map[] || (p.cursor.None? && |p.frames| < p.tuning.depth) then (p, None)
    else
      var c := if p.cursor.Some? then p.cursor.value else Least(p.frames.Keys);
      if c in p.frames then
        (p.(frames := p.frames - {c}, cursor := Some(c + 1)), Some((c, p.frames[c])))
      else
        (p.(cursor := Some(c + 1)), None)
  }

  /** Within 32766 of everything buffered. */
  ghost predicate Close<T>(p: Playout<T>, i: int) {
    forall j | j in p.frames :: -0x7FFE <= i - j <= 0x7FFE
  }

  /** Arrivals the 16-bit comparison tells apart. */
  ghost predicate InWindow<T>(p: Playout<T>, i: int) {
    match p.cursor
    case Some(c) => c - 0x8000 <= i <= c + 0x7FFF
    case None => Close(p, i)
  }

  /** Buffered positions: from the cursor on once it exists, close together before that. */
  ghost predicate Bounded<T>(p: Playout<T>) {
    match p.cursor
    case Some(c) => forall i | i in p.frames :: c <= i <= c + 0x7FFF
    case None => forall i, j | i in p.frames && j in p.frames :: i - j <= 0x7FFE
  }

  ghost predicate Sorted(idx: seq<int>) {
    forall j, k | 0 <= j < k < |idx| :: idx[j] < idx[k]
  }

  ghost predicate Different(idx: seq<int>) {
    forall j, k | 0 <= j < k < |idx| :: idx[j] != idx[k]
  }

  /** Slot k of the buffer holds the frame of position idx[k], and those are all the frames. */
  ghost predicate Slots<T>(frames: seq<Frame<T>>, m: map<int, T>, idx: seq<int>) {
    && |idx| == |frames| == |m|
    && (forall k | 0 <= k < |idx| ::
          idx[k] in m && frames[k] == Frame(Wrap16(idx[k]), m[idx[k]]))
    && (forall i | i in m :: i in idx)
  }

  /** The simulation relation. */
  ghost predicate Simulates<T>(b: Buffer<T>, p: Playout<T>, idx: seq<int>) {
    && Slots(b.frames, p.frames, idx)
    && Different(idx)
    && (p.cursor.None? ==> Sorted(idx))
    && Bounded(p)
    && b.tuning == p.tuning
    && b.next == (if p.cursor.Some? then Some(Wrap16(p.cursor.value)) else None)
  }

  // ---------------------------------------------------------------------
  // 16-bit tests on positions that are close together.
  // ---------------------------------------------------------------------

  lemma AfterMeans(j: int, i: int)
    requires -0x8001 <= j - i <= 0xFFFF
    ensures IsAfter(Wrap16(j), Wrap16(i)) <==> 0 < j - i < 0x7FFF
  {
    SubOfWraps(j, i);
  }

  /**
   * Exactly when the late test is right, at any distance: ahead of the cursor modulo 65536 by
   * at most 32767, or behind it by at most 32768.
   */
  lemma LateExactly(i: int, c: int)
    ensures (IsLate(Some(Wrap16(c)), Wrap16(i)) <==> i < c)
            <==> if c <= i then (i - c) % U16_MOD <= 0x7FFF else (c - i - 1) % U16_MOD <= 0x7FFF
  {
    SubOfWraps(i, c);
    var d := i - c;
    assert IsLate(Some(Wrap16(c)), Wrap16(i)) <==> d % U16_MOD > 0x7FFF;
    hide Wrap16, IsLate;
    if d < 0 { Mirror(d); }
  }

  lemma Mirror(d: int)
    ensures (-d - 1) % U16_MOD == U16_MOD - 1 - d % U16_MOD
  {
    var q, r := d / U16_MOD, d % U16_MOD;
    assert -d - 1 == (-q - 1) * U16_MOD + (U16_MOD - 1 - r);
    ModUnique(-d - 1, -q - 1, U16_MOD - 1 - r);
  }

  /** So below distance 65536 it is right exactly from 32768 behind to 32767 ahead. */
  lemma LateWindow(i: int, c: int)
    requires -0xFFFF <= i - c <= 0xFFFF
    ensures (IsLate(Some(Wrap16(c)), Wrap16(i)) <==> i < c) <==> c - 0x8000 <= i <= c + 0x7FFF
  {
    LateExactly(i, c);
    hide IsLate, Wrap16;
  }

  lemma SameMeans(i: int, j: int)
    requires -0xFFFF <= i - j <= 0xFFFF
    ensures Wrap16(i) == Wrap16(j) <==> i == j
  {
    SubOfWraps(i, j);
  }

  lemma NextWraps(c: int)
    ensures Inc16(Wrap16(c)) == Wrap16(c + 1)
  {
  }

  // ---------------------------------------------------------------------
  // push simulates Arrive.
  // ---------------------------------------------------------------------

  function InsertIdx(idx: seq<int>, pos: nat, i: int): seq<int>
    requires pos <= |idx|
  {
    idx[..pos] + [i] + idx[pos..]
  }

  /** The insertion test never sees 32767 as "after", so order can break at exactly that distance. */
  ghost predicate EdgeFirst(idx: seq<int>, i: int) {
    exists k :: 0 <= k < |idx| && idx[k] == i + 0x7FFF && (k == 0 || idx[k - 1] < i)
  }

  lemma AfterAll<T>(frames: seq<Frame<T>>, m: map<int, T>, idx: seq<int>, i: int)
    requires Slots(frames, m, idx) && i !in idx
    requires forall j | j in idx :: -0x7FFF <= i - j <= 0x7FFF
    ensures forall k | 0 <= k < |idx| ::
              && (IsAfter(frames[k].seqNum, Wrap16(i)) <==> 0 < idx[k] - i < 0x7FFF)
              && idx[k] != i && idx[k] - i <= 0x7FFF
  {
    forall k | 0 <= k < |idx|
      ensures IsAfter(frames[k].seqNum, Wrap16(i)) <==> 0 < idx[k] - i < 0x7FFF
      ensures idx[k] != i && idx[k] - i <= 0x7FFF
    {
      assert idx[k] in idx;
      AfterMeans(idx[k], i);
    }
  }

  lemma EdgeBreaksOrder(idx: seq<int>, i: int, pos: nat)
    requires Sorted(idx) && pos <= |idx| && EdgeFirst(idx, i)
    requires pos < |idx| ==> 0 < idx[pos] - i < 0x7FFF
    requires forall k | 0 <= k < |idx| :: idx[k] - i <= 0x7FFF
    ensures !Sorted(InsertIdx(idx, pos, i))
  {
    var k :| 0 <= k < |idx| && idx[k] == i + 0x7FFF && (k == 0 || idx[k - 1] < i);
    assert forall j | 0 <= j < |idx| :: !(0 < idx[j] - i < 0x7FFF);
    var out := InsertIdx(idx, pos, i);
    assert out[k] == idx[k] && out[|idx|] == i;
  }

  lemma GapIsEdge(idx: seq<int>, i: int, pos: nat)
    requires Sorted(idx) && 0 < pos <= |idx| && i < idx[pos - 1]
    requires forall k | 0 <= k < pos :: !(0 < idx[k] - i < 0x7FFF)
    requires forall k | 0 <= k < |idx| :: idx[k] != i && idx[k] - i <= 0x7FFF
    ensures EdgeFirst(idx, i)
  {
    var k := pos - 1;
    assert idx[k] == i + 0x7FFF && (k > 0 ==> idx[k - 1] < i);
  }

  lemma NoEdgeKeepsOrder(idx: seq<int>, i: int, pos: nat)
    requires Sorted(idx) && pos <= |idx| && !EdgeFirst(idx, i)
    requires pos < |idx| ==> 0 < idx[pos] - i < 0x7FFF
    requires forall k | 0 <= k < pos :: !(0 < idx[k] - i < 0x7FFF)
    requires forall k | 0 <= k < |idx| :: idx[k] != i && idx[k] - i <= 0x7FFF
    ensures Sorted(InsertIdx(idx, pos, i))
  {
    if 0 < pos && i < idx[pos - 1] { GapIsEdge(idx, i, pos); }
    assert forall j | 0 <= j < pos :: idx[j] < i;
  }

  /**
   * Exactly when push keeps the buffer sorted: with every position within 32767 of the
   * newcomer, order survives unless the first later frame is exactly 32767 ahead.
   */
  lemma SortedExactly<T>(frames: seq<Frame<T>>, m: map<int, T>, idx: seq<int>, i: int)
    requires Slots(frames, m, idx) && Sorted(idx) && i !in idx
    requires forall j | j in idx :: -0x7FFF <= i - j <= 0x7FFF
    ensures Sorted(InsertIdx(idx, InsertAt(frames, Wrap16(i)), i)) <==> !EdgeFirst(idx, i)
  {
    var pos := InsertAt(frames, Wrap16(i));
    AfterAll(frames, m, idx, i);
    hide IsAfter, Wrap16;
    if EdgeFirst(idx, i) { EdgeBreaksOrder(idx, i, pos); } else { NoEdgeKeepsOrder(idx, i, pos); }
  }

  /** Frames within 32766 of the newcomer have no such edge, so order survives. */
  lemma InsertSorted<T>(frames: seq<Frame<T>>, m: map<int, T>, idx: seq<int>, i: int)
    requires Slots(frames, m, idx) && Sorted(idx) && i !in idx
    requires forall j | j in idx :: -0x7FFE <= i - j <= 0x7FFE
    ensures Sorted(InsertIdx(idx, InsertAt(frames, Wrap16(i)), i))
  {
    SortedExactly(frames, m, idx, i);
    hide Slots, Wrap16, InsertAt;
    assert forall k | 0 <= k < |idx| :: idx[k] in idx;
  }

  lemma InsertKeepsDifferent(idx: seq<int>, pos: nat, i: int)
    requires Different(idx) && pos <= |idx| && i !in idx
    ensures Different(InsertIdx(idx, pos, i))
    ensures forall j :: j in InsertIdx(idx, pos, i) <==> j == i || j in idx
  {
    var out := InsertIdx(idx, pos, i);
    assert out[pos] == i;
    assert forall k | 0 <= k < |out| && k != pos :: out[k] == idx[if k < pos then k else k - 1];
    forall j | j in idx ensures j in out {
      var k :| 0 <= k < |idx| && idx[k] == j;
      assert out[if k < pos then k else k + 1] == j;
    }
  }

  lemma InsertSlots<T>(frames: seq<Frame<T>>, m: map<int, T>, idx: seq<int>, pos: nat, i: int, pcm: T)
    requires Slots(frames, m, idx) && Different(idx) && pos <= |frames| && i !in m
    ensures var frames' := frames[..pos] + [Frame(Wrap16(i), pcm)] + frames[pos..];
            && Slots(frames', m[i := pcm], InsertIdx(idx, pos, i))
            && Different(InsertIdx(idx, pos, i))
  {
    hide Wrap16;
    assert i !in idx;
    InsertKeepsDifferent(idx, pos, i);
    hide Different;
    var out, m', fs := InsertIdx(idx, pos, i), m[i := pcm], frames[..pos] + [Frame(Wrap16(i), pcm)] + frames[pos..];
    forall k | 0 <= k < |out| ensures out[k] in m' && fs[k] == Frame(Wrap16(out[k]), m'[out[k]]) {
      if k != pos {
        var k0 := if k < pos then k else k - 1;
        assert out[k] == idx[k0] && fs[k] == frames[k0];
      }
    }
  }

  lemma PresentMeans<T>(b: Buffer<T>, p: Playout<T>, idx: seq<int>, i: int)
    requires Simulates(b, p, idx) && InWindow(p, i)
    requires p.cursor.Some? ==> p.cursor.value <= i
    ensures Buffered(b.frames, Wrap16(i)) <==> i in p.frames
  {
    forall k | 0 <= k < |idx| ensures b.frames[k].seqNum == Wrap16(i) <==> idx[k] == i {
      assert idx[k] in p.frames;
      SameMeans(idx[k], i);
    }
    if i in p.frames {
      var k :| 0 <= k < |idx| && idx[k] == i;
      assert b.frames[k].seqNum == Wrap16(i);
    }
  }

  lemma LateMeans<T>(b: Buffer<T>, p: Playout<T>, idx: seq<int>, i: int)
    requires Simulates(b, p, idx) && InWindow(p, i)
    ensures IsLate(b.next, Wrap16(i)) <==> p.cursor.Some? && i < p.cursor.value
  {
    if p.cursor.Some? { LateWindow(i, p.cursor.value); }
  }

  lemma InsertSimulates<T>(b: Buffer<T>, p: Playout<T>, idx: seq<int>, i: int, pcm: T)
    requires Simulates(b, p, idx) && InWindow(p, i)
    requires p.cursor.Some? ==> p.cursor.value <= i
    requires i !in p.frames
    ensures var pos := InsertAt(b.frames, Wrap16(i));
            Simulates(b.(frames := b.frames[..pos] + [Frame(Wrap16(i), pcm)] + b.frames[pos..]),
                      p.(frames := p.frames[i := pcm]), InsertIdx(idx, pos, i))
    ensures Sorted(idx) && Close(p, i) ==> Sorted(InsertIdx(idx, InsertAt(b.frames, Wrap16(i)), i))
  {
    var pos := InsertAt(b.frames, Wrap16(i));
    hide InsertAt, Wrap16;
    InsertSlots(b.frames, p.frames, idx, pos, i, pcm);
    assert Bounded(p.(frames := p.frames[i := pcm]));
    if Sorted(idx) && Close(p, i) {
      forall j | j in idx ensures j in p.frames {}
      InsertSorted(b.frames, p.frames, idx, i);
    }
    hide Slots, Different, Sorted, Bounded, InsertIdx;
  }

  lemma PushSimulates<T>(b: Buffer<T>, p: Playout<T>, idx: seq<int>, i: int, pcm: T) returns (idx': seq<int>)
    requires Simulates(b, p, idx) && InWindow(p, i)
    ensures Simulates(Push(b, Wrap16(i), pcm), Arrive(p, i, pcm), idx')
    ensures Sorted(idx) && Close(p, i) ==> Sorted(idx')
  {
    idx' := idx;
    LateMeans(b, p, idx, i);
    if p.cursor.None? || p.cursor.value <= i {
      PresentMeans(b, p, idx, i);
      if i !in p.frames && |p.frames| < 8 {
        idx' := InsertIdx(idx, InsertAt(b.frames, Wrap16(i)), i);
        InsertSimulates(b, p, idx, i, pcm);
      }
    }
    hide Wrap16, InsertAt, IsLate, Sorted, Different, Buffered, InsertIdx;
    assert |b.frames| == |p.frames|;
    hide Slots;
  }

  // ---------------------------------------------------------------------
  // pop simulates Play.
  // ---------------------------------------------------------------------

  /** While nothing has played, the buffer starts with the earliest position. */
  lemma FrontIsLeast<T>(b: Buffer<T>, p: Playout<T>, idx: seq<int>)
    requires Simulates(b, p, idx) && p.cursor.None? && p.frames != map[]
    ensures idx != [] && idx[0] == Least(p.frames.Keys)
  {
    var m := Least(p.frames.Keys);
    assert m in p.frames;
    var k :| 0 <= k < |idx| && idx[k] == m;
    assert idx[0] in p.frames.Keys;
  }

  /** The linear search finds the slot of the cursor position, or nothing. */
  lemma FindMeans<T>(b: Buffer<T>, p: Playout<T>, idx: seq<int>, c: int)
    requires Slots(b.frames, p.frames, idx) && Different(idx)
    requires forall i | i in p.frames :: c <= i <= c + 0x7FFF
    ensures var k := Find(b.frames, Wrap16(c));
            && (k < |idx| <==> c in p.frames)
            && (k < |idx| ==> idx[k] == c)
  {
    forall k | 0 <= k < |idx| ensures b.frames[k].seqNum == Wrap16(c) <==> idx[k] == c {
      assert idx[k] in p.frames;
      SameMeans(idx[k], c);
    }
    if c in p.frames {
      var k :| 0 <= k < |idx| && idx[k] == c;
    }
  }

  /** In a sorted buffer the search can only hit the front. */
  lemma SearchHitsFront<T>(b: Buffer<T>, p: Playout<T>, idx: seq<int>)
    requires Simulates(b, p, idx) && p.cursor.Some? && Sorted(idx)
    ensures Find(b.frames, b.next.value) < |b.frames| ==> Find(b.frames, b.next.value) == 0
  {
    FindMeans(b, p, idx, p.cursor.value);
    if idx != [] { assert idx[0] in p.frames; }
  }

  function RemoveIdx(idx: seq<int>, k: nat): seq<int>
    requires k < |idx|
  {
    idx[..k] + idx[k + 1..]
  }

  lemma RemoveKeepsOrder(idx: seq<int>, k: nat)
    requires k < |idx| && Different(idx)
    ensures Different(RemoveIdx(idx, k))
    ensures Sorted(idx) ==> Sorted(RemoveIdx(idx, k))
    ensures forall i :: i in RemoveIdx(idx, k) <==> i in idx && i != idx[k]
  {
    var out := RemoveIdx(idx, k);
    assert forall j | 0 <= j < |out| :: out[j] == idx[if j < k then j else j + 1];
    forall i | i in idx && i != idx[k] ensures i in out {
      var j :| 0 <= j < |idx| && idx[j] == i;
      assert out[if j < k then j else j - 1] == i;
    }
  }

  lemma RemoveSlots<T>(frames: seq<Frame<T>>, m: map<int, T>, idx: seq<int>, k: nat)
    requires Slots(frames, m, idx) && Different(idx) && k < |idx|
    ensures Slots(frames[..k] + frames[k + 1..], m - {idx[k]}, RemoveIdx(idx, k))
  {
    hide Wrap16;
    RemoveKeepsOrder(idx, k);
    var out, left, fs := RemoveIdx(idx, k), m - {idx[k]}, frames[..k] + frames[k + 1..];
    assert left.Keys == m.Keys - {idx[k]};
    assert |left| == |left.Keys| == |m.Keys| - 1;
    forall j | 0 <= j < |out| ensures out[j] in left && fs[j] == Frame(Wrap16(out[j]), left[out[j]]) {
      assert out[j] in out;
      var j0 := if j < k then j else j + 1;
      assert out[j] == idx[j0] && fs[j] == frames[j0];
    }
  }

  /** Playing emits a buffered frame at a position that no earlier cursor has passed. */
  lemma PlayMoves<T>(p: Playout<T>)
    requires Bounded(p)
    ensures var (p', at) := Play(p);
            && (forall i | i in p'.frames :: i in p.frames && p'.frames[i] == p.frames[i])
            && (p.cursor.Some? ==> p'.cursor.Some? && p.cursor.value <= p'.cursor.value)
            && (at.Some? ==>
                  && at.value.0 in p.frames && at.value.1 == p.frames[at.value.0]
                  && p'.cursor == Some(at.value.0 + 1)
                  && (p.cursor.Some? ==> p.cursor.value <= at.value.0))
  {
  }

  /** The cursor moves past c; every other frame is still ahead of it. */
  ghost function PassCursor<T>(p: Playout<T>, c: int): Playout<T> {
    p.(frames := p.frames - {c}, cursor := Some(c + 1))
  }

  lemma PassKeepsBound<T>(p: Playout<T>, c: int)
    requires forall i | i in p.frames :: c <= i <= c + 0x7FFF
    ensures Bounded(PassCursor(p, c))
    ensures c !in p.frames ==> PassCursor(p, c).frames == p.frames
  {
  }

  /** A pop that is not waiting, with the cursor position c it stands for. */
  lemma PopAtCursor<T>(b: Buffer<T>, p: Playout<T>, idx: seq<int>, c: int) returns (idx': seq<int>)
    requires Slots(b.frames, p.frames, idx) && Different(idx) && b.tuning == p.tuning
    requires !Waiting(b) && Expected(b) == Wrap16(c)
    requires forall i | i in p.frames :: c <= i <= c + 0x7FFF
    ensures Simulates(Pop(b).0, PassCursor(p, c), idx')
    ensures Sorted(idx) ==> Sorted(idx')
    ensures Pop(b).1 == if c in p.frames then Some(p.frames[c]) else None
  {
    FindMeans(b, p, idx, c);
    NextWraps(c);
    PassKeepsBound(p, c);
    var k := Find(b.frames, Wrap16(c));
    var (b', out) := Pop(b);
    if k < |idx| {
      assert b' == Buffer(b.frames[..k] + b.frames[k + 1..], Some(Wrap16(c + 1)), b.tuning);
      assert out == Some(p.frames[c]);
      idx' := RemoveIdx(idx, k);
      hide Wrap16, Inc16, Find, Pop, Bounded;
      RemoveSlots(b.frames, p.frames, idx, k);
      RemoveKeepsOrder(idx, k);
      hide Slots, Different, RemoveIdx;
    } else {
      assert b' == Buffer(b.frames, Some(Wrap16(c + 1)), b.tuning);
      idx' := idx;
      hide Wrap16, Inc16, Find, Pop, Bounded, Slots, Different;
    }
  }

  lemma WaitTogether<T>(b: Buffer<T>, p: Playout<T>, idx: seq<int>)
    requires Simulates(b, p, idx) && Waiting(b)
    ensures Pop(b) == (b, None) && Play(p) == (p, None)
  {
    hide Sorted, Different, Bounded, Wrap16;
    assert |p.frames| == |b.frames|;
    hide Slots;
  }

  /** The position a pop that is not waiting stands for, and what playing there does. */
  lemma StartTogether<T>(b: Buffer<T>, p: Playout<T>, idx: seq<int>) returns (c: int)
    requires Simulates(b, p, idx) && !Waiting(b)
    ensures Expected(b) == Wrap16(c)
    ensures forall i | i in p.frames :: c <= i <= c + 0x7FFF
    ensures Play(p) == (PassCursor(p, c), if c in p.frames then Some((c, p.frames[c])) else None)
  {
    assert |p.frames| == |b.frames| > 0;
    if p.cursor.None? {
      FrontIsLeast(b, p, idx);
      c := idx[0];
      assert c in p.frames && b.frames[0].seqNum == Wrap16(c);
    } else {
      c := p.cursor.value;
    }
    hide Slots, Different, Sorted, Wrap16;
    PassOver(p, c);
  }

  lemma PassOver<T>(p: Playout<T>, c: int)
    ensures c !in p.frames ==> p.frames - {c} == p.frames
  {
  }

  lemma PopSimulates<T>(b: Buffer<T>, p: Playout<T>, idx: seq<int>) returns (idx': seq<int>)
    requires Simulates(b, p, idx)
    ensures Simulates(Pop(b).0, Play(p).0, idx')
    ensures Sorted(idx) ==> Sorted(idx')
    ensures Pop(b).1 == Pcm(Play(p).1)
  {
    assert Slots(b.frames, p.frames, idx) && Different(idx) && b.tuning == p.tuning;
    hide Simulates, Slots, Different, Wrap16, Pop, Play, PassCursor, Expected;
    if Waiting(b) {
      WaitTogether(b, p, idx);
      idx' := idx;
    } else {
      var c := StartTogether(b, p, idx);
      hide Waiting;
      idx' := PopAtCursor(b, p, idx, c);
    }
  }

  // ---------------------------------------------------------------------
  // Whole runs.
  // ---------------------------------------------------------------------

  datatype PlayoutEvent<T> = Arrival(index: int, pcm: T) | Due | Tick(dt: real)

  function OnWire<T>(e: PlayoutEvent<T>): Op<T> {
    match e
    case Arrival(i, pcm) => PushOp(Wrap16(i), pcm)
    case Due => PopOp
    case Tick(dt) => AdaptOp(dt)
  }

  function AllOnWire<T>(es: seq<PlayoutEvent<T>>): seq<Op<T>> {
    seq(|es|, k requires 0 <= k < |es| => OnWire(es[k]))
  }

  ghost function Happen<T>(p: Playout<T>, e: PlayoutEvent<T>): Playout<T> {
    match e
    case Arrival(i, pcm) => Arrive(p, i, pcm)
    case Due => Play(p).0
    case Tick(dt) => p.(tuning := Retune(p.tuning, dt))
  }

  ghost function History<T>(es: seq<PlayoutEvent<T>>): Playout<T> {
    if es == [] then Idle() else Happen(History(es[..|es| - 1]), es[|es| - 1])
  }

  /** What the playouts of a history return: position and frame. */
  ghost function Emitted<T>(es: seq<PlayoutEvent<T>>): seq<Option<(int, T)>> {
    if es == [] then []
    else
      var init, last := es[..|es| - 1], es[|es| - 1];
      Emitted(init) + if last.Due? then [Play(History(init)).1] else []
  }

  ghost predicate AllInWindow<T>(es: seq<PlayoutEvent<T>>) {
    forall k | 0 <= k < |es| && es[k].Arrival? :: InWindow(History(es[..k]), es[k].index)
  }

  ghost predicate AllClose<T>(es: seq<PlayoutEvent<T>>) {
    forall k | 0 <= k < |es| && es[k].Arrival? :: Close(History(es[..k]), es[k].index)
  }

  function Pcm<T>(o: Option<(int, T)>): Option<T> {
    if o.Some? then Some(o.value.1) else None
  }

  lemma StepSimulates<T>(b: Buffer<T>, p: Playout<T>, idx: seq<int>, e: PlayoutEvent<T>) returns (idx': seq<int>)
    requires Simulates(b, p, idx)
    requires e.Arrival? ==> InWindow(p, e.index)
    ensures Simulates(Apply(b, OnWire(e)), Happen(p, e), idx')
    ensures Sorted(idx) && (e.Arrival? ==> Close(p, e.index)) ==> Sorted(idx')
    ensures e.Due? ==> Pop(b).1 == Pcm(Play(p).1)
  {
    match e
    case Arrival(i, pcm) => idx' := PushSimulates(b, p, idx, i, pcm);
    case Due => idx' := PopSimulates(b, p, idx);
    case Tick(dt) => idx' := idx;
  }

  /** The same frames, one side with their positions. */
  ghost predicate SameFrames<T>(outs: seq<Option<T>>, emitted: seq<Option<(int, T)>>) {
    |outs| == |emitted| && forall k | 0 <= k < |outs| :: outs[k] == Pcm(emitted[k])
  }

  lemma RunOnWire<T>(es: seq<PlayoutEvent<T>>)
    requires es != []
    ensures var init, last := es[..|es| - 1], es[|es| - 1];
            var mid := Run(Empty(), AllOnWire(init));
            && Run(Empty(), AllOnWire(es)) == Apply(mid, OnWire(last))
            && Popped(Empty(), AllOnWire(es))
               == Popped(Empty(), AllOnWire(init)) + if last.Due? then [Pop(mid).1] else []
  {
    var ops := AllOnWire(es);
    assert ops[..|ops| - 1] == AllOnWire(es[..|es| - 1]);
    hide Pop, Apply;
  }

  lemma WindowPrefix<T>(es: seq<PlayoutEvent<T>>)
    requires AllInWindow(es) && es != []
    ensures var init, last := es[..|es| - 1], es[|es| - 1];
            && AllInWindow(init) && (last.Arrival? ==> InWindow(History(init), last.index))
            && (AllClose(es) ==> AllClose(init) && (last.Arrival? ==> Close(History(init), last.index)))
  {
    assert forall k | 0 <= k < |es| - 1 :: es[..|es| - 1][..k] == es[..k];
    hide InWindow, Close;
  }

  /**
   * The buffer refines the map and cursor: over every history whose arrivals stay in
   * the window it is in a matching state and returns exactly the same frames; and it is
   * sorted if arrivals are also close to what is buffered.
   */
  lemma {:induction false} BufferRefinesPlayout<T>(es: seq<PlayoutEvent<T>>) returns (idx: seq<int>)
    requires AllInWindow(es)
    ensures Simulates(Run(Empty(), AllOnWire(es)), History(es), idx)
    ensures SameFrames(Popped(Empty(), AllOnWire(es)), Emitted(es))
    ensures AllClose(es) ==> Sorted(idx)
  {
    if es == [] {
      idx := [];
    } else {
      var init, last := es[..|es| - 1], es[|es| - 1];
      WindowPrefix(es);
      RunOnWire(es);
      hide Simulates, InWindow, Close, Sorted, OnWire, AllOnWire, Apply, Happen, AllInWindow, AllClose, Pop, Play, Run,
        Popped, Pcm;
      idx := BufferRefinesPlayout(init);
      idx := StepSimulates(Run(Empty(), AllOnWire(init)), History(init), idx, last);
    }
  }

  /** Over every such history, playout started or not, the search can only hit the front. */
  lemma SearchAlwaysHitsFront<T>(es: seq<PlayoutEvent<T>>)
    requires AllInWindow(es) && AllClose(es)
    ensures var b := Run(Empty<T>(), AllOnWire(es));
            b.next.Some? && Find(b.frames, b.next.value) < |b.frames| ==> Find(b.frames, b.next.value) == 0
  {
    var idx := BufferRefinesPlayout(es);
    var b := Run(Empty<T>(), AllOnWire(es));
    hide AllOnWire, Run, History, AllInWindow, AllClose, Slots, Sorted, Wrap16;
    if b.next.Some? { SearchHitsFront(b, History(es), idx); }
  }

  lemma PushOne<T>(s: u16, x: T)
    ensures var b := Push(Empty(), s, x);
            b.frames == [Frame(s, x)] && b.next.None? && b.tuning.depth == 1
  {
    var none: seq<Frame<T>> := [];
    assert InsertAt(none, s) == 0 && none[..0] + [Frame(s, x)] + none[0..] == [Frame(s, x)];
  }

  lemma PushBehind<T>(b: Buffer<T>, f: Frame<T>, t: u16, y: T)
    requires b.frames == [f] && b.next.None? && f.seqNum != t && !IsAfter(f.seqNum, t)
    ensures Push(b, t, y).frames == [f, Frame(t, y)]
    ensures Push(b, t, y).next.None? && Push(b, t, y).tuning.depth == b.tuning.depth
  {
    hide IsAfter;
    assert InsertAt(b.frames, t) == 1;
    assert [f][..1] + [Frame(t, y)] + [f][1..] == [f, Frame(t, y)];
    hide InsertAt;
  }

  /** Two frames of which the second does not belong before the first: the first plays first. */
  lemma FirstPlaysFirst<T>(s: u16, t: u16, x: T, y: T)
    requires s != t && !IsAfter(s, t)
    ensures Pop(Push(Push(Empty(), s, x), t, y)).1 == Some(x)
  {
    PushOne(s, x);
    var b := Push(Empty(), s, x);
    hide *;
    PushBehind(b, Frame(s, x), t, y);
    PopsFront(Push(b, t, y), Frame(s, x));
  }

  lemma PopsFront<T>(b: Buffer<T>, f: Frame<T>)
    requires b.frames != [] && b.frames[0] == f && b.next.None? && b.tuning.depth <= |b.frames|
    ensures Pop(b).1 == Some(f.pcm)
  {
    hide Find, Inc16;
  }

  lemma EdgePlayout<T>(i: int, first: T, later: T)
    ensures var p1 := Arrive(Idle(), i + 0x7FFF, later);
            Play(Arrive(p1, i, first)).1 == Some((i, first)) && !InWindow(p1, i)
  {
    var j := i + 0x7FFF;
    var p1 := Arrive(Idle(), j, later);
    var p2 := Arrive(p1, i, first);
    assert p1.frames == map[j := later] && j in p1.frames;
    assert p2.frames == map[j := later, i := first] && i in p2.frames;
    assert p2.frames.Keys == {i, j};
  }

  /** Two events and a pop. */
  lemma PairOnWire<T>(a: PlayoutEvent<T>, b: PlayoutEvent<T>)
    requires !a.Due? && !b.Due?
    ensures Popped(Empty(), AllOnWire([a, b, Due])) == [Pop(Apply(Apply(Empty(), OnWire(a)), OnWire(b))).1]
  {
    var none: seq<PlayoutEvent<T>> := [];
    assert [a, b, Due][..2] == [a, b] && [a, b][..1] == [a] && [a][..0] == none;
    assert AllOnWire(none) == [];
    RunOnWire([a]);
    RunOnWire([a, b]);
    RunOnWire([a, b, Due]);
    hide AllOnWire, OnWire, Apply, Pop;
  }

  lemma PairPlayed<T>(a: PlayoutEvent<T>, b: PlayoutEvent<T>)
    requires !a.Due? && !b.Due?
    ensures Emitted([a, b, Due]) == [Play(Happen(Happen(Idle(), a), b)).1]
    ensures History([a, b, Due][..1]) == Happen(Idle(), a)
  {
    hide Happen, Play;
    var none: seq<PlayoutEvent<T>> := [];
    assert [a, b, Due][..2] == [a, b] && [a, b, Due][..1] == [a] && [a, b][..1] == [a] && [a][..0] == none;
    assert History([a]) == Happen(Idle(), a);
    assert Emitted([a]) == Emitted(none) + [] == [];
    assert History([a, b]) == Happen(History([a]), b);
    assert Emitted([a, b]) == Emitted([a]) + [] == [];
  }

  /**
   * The window is tight before playout starts: of two frames exactly 32767 apart, the later
   * one arriving first, the buffer plays the later one first.
   */
  lemma EdgePlaysOutOfOrder<T>(i: int, first: T, later: T)
    ensures var es := [Arrival(i + 0x7FFF, later), Arrival(i, first), Due];
            && Popped(Empty(), AllOnWire(es)) == [Some(later)]
            && Emitted(es) == [Some((i, first))]
            && !AllInWindow(es)
  {
    var a, b: PlayoutEvent<T> := Arrival(i + 0x7FFF, later), Arrival(i, first);
    var es := [a, b, Due];
    AfterMeans(a.index, i);
    SameMeans(a.index, i);
    FirstPlaysFirst(Wrap16(a.index), Wrap16(i), later, first);
    EdgePlayout(i, first, later);
    PairOnWire(a, b);
    PairPlayed(a, b);
    hide Push, Pop, Play, Arrive, InWindow, AllOnWire, Run, Popped, Wrap16, Emitted, History;
    assert !InWindow(History(es[..1]), es[1].index);
  }
}
