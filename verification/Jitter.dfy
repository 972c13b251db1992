/** The adaptive jitter buffer (jitter.rs): frames under wrapping 16-bit numbers. */
module Jitter {
  import opened Words

  const MAX_DEPTH: nat := 4
  const INITIAL_DEPTH: nat := 1
  const CAPACITY: nat := 2 * MAX_DEPTH
  const HALF: int := 0x7FFF // u16::MAX / 2
  const MIN_SAMPLE: nat := 100
  const HOLDOFF: real := 5.0

  datatype Frame<T> = Frame(seqNum: u16, pcm: T)

  /** Target depth and the statistics that move it. */
  datatype Tuning = Tuning(depth: nat, total: nat, late: nat, sinceDecrease: real)

  datatype Buffer<T> = Buffer(frames: seq<Frame<T>>, next: Option<u16>, tuning: Tuning)

  const UNTUNED := Tuning(INITIAL_DEPTH, 0, 0, 0.0)

  function Empty<T>(): Buffer<T> { Buffer([], None, UNTUNED) }

  // ---------------------------------------------------------------------
  // push
  // ---------------------------------------------------------------------

  predicate IsLate(next: Option<u16>, s: u16) {
    next.Some? && Sub16(s, next.value) > HALF
  }

  /** The insertion test: f comes after s. Distance 32767 is not "after". */
  predicate IsAfter(f: u16, s: u16) { 0 < Sub16(f, s) < HALF }

  /** Index of the first frame after s, or the length. */
  function InsertAt<T>(frames: seq<Frame<T>>, s: u16): (pos: nat)
    ensures pos <= |frames|
    ensures forall j | 0 <= j < pos :: !IsAfter(frames[j].seqNum, s)
    ensures pos < |frames| ==> IsAfter(frames[pos].seqNum, s)
  {
    if frames == [] || IsAfter(frames[0].seqNum, s) then 0
    else 1 + InsertAt(frames[1..], s)
  }

  predicate Buffered<T>(frames: seq<Frame<T>>, s: u16) {
    exists k :: 0 <= k < |frames| && frames[k].seqNum == s
  }

  function CountPush(t: Tuning, late: bool): Tuning {
    t.(total := t.total + 1, late := if late then t.late + 1 else t.late)
  }

  function Push<T>(b: Buffer<T>, s: u16, pcm: T): Buffer<T> {
    var late := IsLate(b.next, s);
    var counted := b.(tuning := CountPush(b.tuning, late));
    if late || Buffered(b.frames, s) || |b.frames| >= CAPACITY then counted
    else
      var pos := InsertAt(b.frames, s);
      counted.(frames := b.frames[..pos] + [Frame(s, pcm)] + b.frames[pos..])
  }

  // ---------------------------------------------------------------------
  // pop
  // ---------------------------------------------------------------------

  /** Index of the first frame numbered s, or the length. */
  function Find<T>(frames: seq<Frame<T>>, s: u16): (k: nat)
    ensures k <= |frames|
    ensures k < |frames| ==> frames[k].seqNum == s
    ensures forall j | 0 <= j < k :: frames[j].seqNum != s
  {
    if frames == [] || frames[0].seqNum == s then 0
    else 1 + Find(frames[1..], s)
  }

  /** Nothing to play: no frame at all, or not enough of them to start. */
  predicate Waiting<T>(b: Buffer<T>) {
    b.frames == [] || (b.next.None? && |b.frames| < b.tuning.depth)
  }

  function Expected<T>(b: Buffer<T>): u16
    requires !Waiting(b)
  {
    if b.next.Some? then b.next.value else b.frames[0].seqNum
  }

  function Pop<T>(b: Buffer<T>): (Buffer<T>, Option<T>) {
    if Waiting(b) then (b, None)
    else
      var expected := Expected(b);
      var k := Find(b.frames, expected);
      var moved := b.(next := Some(Inc16(expected)));
      if k < |b.frames| then
        (moved.(frames := b.frames[..k] + b.frames[k + 1..]), Some(b.frames[k].pcm))
      else
        (moved, None)
  }

  // ---------------------------------------------------------------------
  // adapt
  // ---------------------------------------------------------------------

  function Elapse(t: Tuning, dt: real): Tuning { t.(sinceDecrease := t.sinceDecrease + dt) }

  predicate Raises(t: Tuning) {
    t.total >= MIN_SAMPLE && 50 * t.late > t.total && t.depth < MAX_DEPTH
  }

  predicate Lowers(t: Tuning) {
    t.total >= MIN_SAMPLE && 1000 * t.late < t.total && t.depth > 1 && t.sinceDecrease >= HOLDOFF
  }

  function Retune(t: Tuning, dt: real): Tuning {
    var u := Elapse(t, dt);
    if Raises(u) then Tuning(u.depth + 1, 0, 0, u.sinceDecrease)
    else if Lowers(u) then Tuning(u.depth - 1, 0, 0, 0.0)
    else u
  }

  function Adapt<T>(b: Buffer<T>, dt: real): Buffer<T> {
    b.(tuning := Retune(b.tuning, dt))
  }

  // ---------------------------------------------------------------------
  // Runs.
  // ---------------------------------------------------------------------

  datatype Op<T> = PushOp(seqNum: u16, pcm: T) | PopOp | AdaptOp(dt: real)

  function Apply<T>(b: Buffer<T>, op: Op<T>): Buffer<T> {
    match op
    case PushOp(s, pcm) => Push(b, s, pcm)
    case PopOp => Pop(b).0
    case AdaptOp(dt) => Adapt(b, dt)
  }

  function Run<T>(b: Buffer<T>, ops: seq<Op<T>>): Buffer<T> {
    if ops == [] then b else Apply(Run(b, ops[..|ops| - 1]), ops[|ops| - 1])
  }

  /** What the pops of a run return, in order. */
  function Popped<T>(b: Buffer<T>, ops: seq<Op<T>>): seq<Option<T>> {
    if ops == [] then []
    else
      var init, last := ops[..|ops| - 1], ops[|ops| - 1];
      Popped(b, init) + if last.PopOp? then [Pop(Run(b, init)).1] else []
  }

  /** No number is buffered twice. */
  ghost predicate Distinct<T>(frames: seq<Frame<T>>) {
    forall i, j | 0 <= i < j < |frames| :: frames[i].seqNum != frames[j].seqNum
  }

  lemma StepKeepsDistinct<T>(b: Buffer<T>, op: Op<T>)
    requires Distinct(b.frames) && |b.frames| <= 8
    ensures Distinct(Apply(b, op).frames) && |Apply(b, op).frames| <= 8
  {
    match op
    case PushOp(s, pcm) =>
      var pos := InsertAt(b.frames, s);
      if !Buffered(b.frames, s) { InsertDistinct(b.frames, pos, Frame(s, pcm)); }
      hide Distinct, InsertAt, Buffered, IsLate;
    case PopOp =>
      if !Waiting(b) {
        var k := Find(b.frames, Expected(b));
        if k < |b.frames| { RemoveDistinct(b.frames, k); }
      }
      hide Distinct, Find, Waiting, Expected, Inc16;
    case AdaptOp(_) =>
  }

  lemma InsertDistinct<T>(frames: seq<Frame<T>>, pos: nat, g: Frame<T>)
    requires Distinct(frames) && !Buffered(frames, g.seqNum) && pos <= |frames|
    ensures Distinct(frames[..pos] + [g] + frames[pos..])
  {
    var out := frames[..pos] + [g] + frames[pos..];
    assert forall k | 0 <= k < |out| && k != pos :: out[k] == frames[if k < pos then k else k - 1];
  }

  lemma RemoveDistinct<T>(frames: seq<Frame<T>>, k: nat)
    requires Distinct(frames) && k < |frames|
    ensures Distinct(frames[..k] + frames[k + 1..])
  {
    var out := frames[..k] + frames[k + 1..];
    assert forall j | 0 <= j < |out| :: out[j] == frames[if j < k then j else j + 1];
  }

  /** The frames are those of before and one more. */
  ghost predicate OneMore<T>(frames: seq<Frame<T>>, frames': seq<Frame<T>>, f: Frame<T>) {
    exists pos: nat :: pos <= |frames| && frames' == frames[..pos] + [f] + frames[pos..]
  }

  /**
   * Over every run: a pushed frame is inserted if and only if it is not late (at most 32767
   * ahead of the number due, or nothing has been played yet), its number is not buffered, and
   * fewer than eight frames are. Otherwise the frames stay as they are.
   */
  lemma PushedExactly<T>(ops: seq<Op<T>>, s: u16, pcm: T)
    ensures var (b, b') := (Run(Empty(), ops), Run(Empty(), ops + [PushOp(s, pcm)]));
            && |b.frames| <= 8 && Distinct(b.frames) && b'.next == b.next
            && var late := b.next.Some? && (s - b.next.value) % 0x1_0000 > 32767;
               if !late && (forall k | 0 <= k < |b.frames| :: b.frames[k].seqNum != s) && |b.frames| < 8
               then OneMore(b.frames, b'.frames, Frame(s, pcm))
               else b'.frames == b.frames
  {
    var longer := ops + [PushOp(s, pcm)];
    assert longer[..|longer| - 1] == ops;
    RunKeepsDistinct(ops);
    hide Distinct, InsertAt;
  }

  lemma {:induction false} RunKeepsDistinct<T>(ops: seq<Op<T>>)
    ensures var b := Run(Empty(), ops); |b.frames| <= 8 && Distinct(b.frames)
  {
    if ops != [] {
      var init := ops[..|ops| - 1];
      RunKeepsDistinct(init);
      StepKeepsDistinct(Run(Empty(), init), ops[|ops| - 1]);
      hide Distinct, Apply;
    }
  }

  /** A distinct buffer finds the frame it holds. */
  lemma FindHeld<T>(frames: seq<Frame<T>>, f: Frame<T>)
    requires Distinct(frames) && f in frames
    ensures Find(frames, f.seqNum) < |frames|
    ensures frames[Find(frames, f.seqNum)] == f
  {
    var k :| 0 <= k < |frames| && frames[k] == f;
    assert Find(frames, f.seqNum) == k;
  }

  /** Wire distance from the next expected number. */
  function Ahead(next: u16, s: u16): u16 { Sub16(s, next) }

  lemma AheadOfNext(next: u16, s: u16)
    ensures Ahead(next, s) == 0 <==> s == next
    ensures s != next ==> Ahead(Inc16(next), s) == Ahead(next, s) - 1
  {
  }

  lemma InsertKeeps<T>(frames: seq<Frame<T>>, pos: nat, g: Frame<T>, f: Frame<T>)
    requires pos <= |frames| && f in frames
    ensures f in frames[..pos] + [g] + frames[pos..]
  {
    var j :| 0 <= j < |frames| && frames[j] == f;
    assert (frames[..pos] + [g] + frames[pos..])[if j < pos then j else j + 1] == f;
  }

  lemma RemoveKeepsOthers<T>(frames: seq<Frame<T>>, k: nat, f: Frame<T>)
    requires k < |frames| && Distinct(frames) && f in frames
    ensures f in frames[..k] + frames[k + 1..] <==> f != frames[k]
  {
    var j :| 0 <= j < |frames| && frames[j] == f;
    var rest := frames[..k] + frames[k + 1..];
    if j < k { assert rest[j] == f; }
    if k < j { assert rest[j - 1] == f; }
  }

  /** A pop brings a held frame one number closer, and returns it exactly at distance 0. */
  lemma PopMovesHeld<T>(b: Buffer<T>, f: Frame<T>)
    requires Distinct(b.frames) && b.next.Some? && f in b.frames
    ensures var (b', out) := Pop(b);
            var d := Ahead(b.next.value, f.seqNum);
            && b'.next.Some?
            && (d == 0 ==> out == Some(f.pcm) && f !in b'.frames)
            && (d > 0 ==> f in b'.frames && Ahead(b'.next.value, f.seqNum) == d - 1)
  {
    AheadOfNext(b.next.value, f.seqNum);
    hide Ahead, Inc16;
    var k := Find(b.frames, b.next.value);
    if f.seqNum == b.next.value { FindHeld(b.frames, f); }
    if k < |b.frames| { RemoveKeepsOthers(b.frames, k, f); }
  }

  /** Pushing and adapting neither move nor drop a held frame. */
  lemma OthersKeepHeld<T>(b: Buffer<T>, op: Op<T>, f: Frame<T>)
    requires !op.PopOp? && f in b.frames
    ensures f in Apply(b, op).frames && Apply(b, op).next == b.next
  {
    if op.PushOp? {
      InsertKeeps(b.frames, InsertAt(b.frames, op.seqNum), Frame(op.seqNum, op.pcm), f);
    }
  }

  /**
   * Exact emission time: from a started buffer, whatever is pushed or adapted in
   * between, a held frame at wire distance d stays held through the first d pops and
   * is what pop number d + 1 returns.
   */
  lemma {:induction false} ExactEmission<T>(b: Buffer<T>, ops: seq<Op<T>>, f: Frame<T>)
    requires Distinct(b.frames) && |b.frames| <= 8
    requires b.next.Some? && f in b.frames
    ensures var d, outs, b' := Ahead(b.next.value, f.seqNum), Popped(b, ops), Run(b, ops);
            && Distinct(b'.frames) && |b'.frames| <= 8 && b'.next.Some?
            && (|outs| <= d ==> f in b'.frames && Ahead(b'.next.value, f.seqNum) == d - |outs|)
            && (|outs| > d ==> outs[d] == Some(f.pcm))
  {
    if ops != [] {
      var init, last := ops[..|ops| - 1], ops[|ops| - 1];
      ExactEmission(b, init, f);
      var mid, d := Run(b, init), Ahead(b.next.value, f.seqNum);
      StepKeepsDistinct(mid, last);
      if |Popped(b, init)| <= d {
        if last.PopOp? { PopMovesHeld(mid, f); } else { OthersKeepHeld(mid, last, f); }
      }
    }
  }

  /** Frames a run inserted: the pushes that made the buffer grow. */
  function Inserted<T>(b: Buffer<T>, ops: seq<Op<T>>): nat {
    if ops == [] then 0
    else
      var init, last := ops[..|ops| - 1], ops[|ops| - 1];
      var mid := Run(b, init);
      Inserted(b, init) + if last.PushOp? && |Apply(mid, last).frames| > |mid.frames| then 1 else 0
  }

  function Played<T>(outs: seq<Option<T>>): seq<T> {
    if outs == [] then []
    else
      var o := outs[|outs| - 1];
      Played(outs[..|outs| - 1]) + if o.Some? then [o.value] else []
  }

  lemma PlayedSnoc<T>(outs: seq<Option<T>>, o: Option<T>)
    ensures Played(outs + [o]) == Played(outs) + if o.Some? then [o.value] else []
  {
    assert (outs + [o])[..|outs|] == outs;
  }

  /** Conservation: every inserted frame is still buffered or was played. */
  lemma {:induction false} InsertedArePlayedOrBuffered<T>(ops: seq<Op<T>>)
    ensures Inserted(Empty(), ops) == |Played(Popped(Empty(), ops))| + |Run(Empty(), ops).frames|
  {
    if ops != [] {
      var init, last := ops[..|ops| - 1], ops[|ops| - 1];
      InsertedArePlayedOrBuffered(init);
      if last.PopOp? {
        PlayedSnoc(Popped(Empty(), init), Pop(Run(Empty(), init)).1);
      } else {
        assert Popped(Empty(), ops) == Popped(Empty(), init);
      }
    }
  }
}

/** The buffer as the object jitter.rs makes it: each method is one step of module Jitter. */
module JitterBuffers {
  import opened Words
  import opened Jitter

  // The searches that push and pop make over the buffered frames.

  method PositionAfter<T>(frames: seq<Frame<T>>, s: u16) returns (pos: nat)
    ensures pos == InsertAt(frames, s)
  {
    pos := 0;
    while pos < |frames| && !IsAfter(frames[pos].seqNum, s)
      invariant pos <= |frames|
      invariant InsertAt(frames, s) == pos + InsertAt(frames[pos..], s)
    {
      assert frames[pos..][1..] == frames[pos + 1..];
      pos := pos + 1;
    }
  }

  method PositionOf<T>(frames: seq<Frame<T>>, s: u16) returns (pos: nat)
    ensures pos == Find(frames, s)
  {
    pos := 0;
    while pos < |frames| && frames[pos].seqNum != s
      invariant pos <= |frames|
      invariant Find(frames, s) == pos + Find(frames[pos..], s)
    {
      assert frames[pos..][1..] == frames[pos + 1..];
      pos := pos + 1;
    }
  }

  method AnyNumbered<T>(frames: seq<Frame<T>>, s: u16) returns (present: bool)
    ensures present == Buffered(frames, s)
  {
    present := false;
    var i := 0;
    while i < |frames| && !present
      invariant i <= |frames|
      invariant present <==> exists k :: 0 <= k < i && frames[k].seqNum == s
    {
      present := frames[i].seqNum == s;
      i := i + 1;
    }
  }

  class JitterBuffer<T> {
    var frames: seq<Frame<T>>
    var nextPlayoutSeq: Option<u16>
    var targetDepth: nat
    var totalPackets: nat
    var latePackets: nat
    var timeSinceDecrease: real

    ghost function State(): Buffer<T>
      reads this
    {
      Buffer(frames, nextPlayoutSeq,
             Tuning(targetDepth, totalPackets, latePackets, timeSinceDecrease))
    }

    constructor ()
      ensures State() == Empty()
    {
      frames, nextPlayoutSeq, targetDepth := [], None, INITIAL_DEPTH;
      totalPackets, latePackets, timeSinceDecrease := 0, 0, 0.0;
    }

    method Push(seqNum: u16, pcm: T)
      modifies this
      ensures State() == Jitter.Push(old(State()), seqNum, pcm)
      ensures var (held, next) := (old(frames), old(nextPlayoutSeq));
              var late := next.Some? && (seqNum - next.value) % 0x1_0000 > 32767;
              && nextPlayoutSeq == next && totalPackets == old(totalPackets) + 1
              && latePackets == old(latePackets) + (if late then 1 else 0)
              && if !late && (forall k | 0 <= k < |held| :: held[k].seqNum != seqNum) && |held| < 8
                 then OneMore(held, frames, Frame(seqNum, pcm))
                 else frames == held
    {
      totalPackets := totalPackets + 1;
      if nextPlayoutSeq.Some? {
        var diff := Sub16(seqNum, nextPlayoutSeq.value);
        if diff > HALF {
          latePackets := latePackets + 1;
          return;
        }
      }
      var pos := PositionAfter(frames, seqNum);
      var present := AnyNumbered(frames, seqNum);
      if present || |frames| >= CAPACITY {
        return;
      }
      frames := frames[..pos] + [Frame(seqNum, pcm)] + frames[pos..];
    }

    method Pop() returns (pcm: Option<T>)
      modifies this
      ensures (State(), pcm) == Jitter.Pop(old(State()))
    {
      if frames == [] {
        return None;
      }
      if nextPlayoutSeq.None? {
        if |frames| < targetDepth {
          return None;
        }
        nextPlayoutSeq := Some(frames[0].seqNum);
      }
      var expected := nextPlayoutSeq.value;
      var idx := PositionOf(frames, expected);
      if idx < |frames| {
        pcm := Some(frames[idx].pcm);
        frames := frames[..idx] + frames[idx + 1..];
      } else {
        pcm := None;
      }
      nextPlayoutSeq := Some(Inc16(expected));
    }

    method Adapt(elapsed: real)
      modifies this
      ensures State() == Jitter.Adapt(old(State()), elapsed)
    {
      timeSinceDecrease := timeSinceDecrease + elapsed;
      if totalPackets < MIN_SAMPLE {
        return;
      }
      if 50 * latePackets > totalPackets && targetDepth < MAX_DEPTH {
        targetDepth := targetDepth + 1;
        ResetStats();
      } else if 1000 * latePackets < totalPackets && targetDepth > 1
                && timeSinceDecrease >= HOLDOFF {
        targetDepth := targetDepth - 1;
        timeSinceDecrease := 0.0;
        ResetStats();
      }
    }

    method ResetStats()
      modifies this`totalPackets, this`latePackets
      ensures totalPackets == 0 && latePackets == 0
    {
      totalPackets, latePackets := 0, 0;
    }

    method Reset()
      modifies this
      ensures State() == Empty()
    {
      frames, nextPlayoutSeq, targetDepth := [], None, INITIAL_DEPTH;
      ResetStats();
      timeSinceDecrease := 0.0;
    }
  }
}
