/** How the jitter buffer's target depth moves over whole runs, resets included. */
module Adaptation {
  import opened Words
  import opened Jitter

  datatype Call<T> = Do(op: Op<T>) | Reset

  /**
   * A run's books, kept beside the buffer: packets pushed in all; how often adapt changed the
   * depth; for each packet since the last change or reset, whether it was late; the adapt
   * time passed, when the hold-off last started over, and when the depth went down.
   */
  datatype Books<T> =
    Books(buffer: Buffer<T>, pushed: nat, changes: nat, recent: seq<bool>,
          clock: real, heldSince: real, lowered: seq<real>)

  function Record<T>(k: Books<T>, c: Call<T>): Books<T> {
    match c
    case Reset => k.(buffer := Empty(), recent := [], heldSince := k.clock)
    case Do(op) =>
      var b' := Apply(k.buffer, op);
      match op
      case PopOp => k.(buffer := b')
      case PushOp(s, _) =>
        k.(buffer := b', pushed := k.pushed + 1, recent := k.recent + [IsLate(k.buffer.next, s)])
      case AdaptOp(dt) =>
        var now := k.clock + dt;
        var before, after := k.buffer.tuning.depth, b'.tuning.depth;
        if before == after then k.(buffer := b', clock := now)
        else
          Books(b', k.pushed, k.changes + 1, [], now,
                if after < before then now else k.heldSince,
                if after < before then k.lowered + [now] else k.lowered)
  }

  function RecordAll<T>(cs: seq<Call<T>>): Books<T> {
    if cs == [] then Books(Empty(), 0, 0, [], 0.0, 0.0, [])
    else Record(RecordAll(cs[..|cs| - 1]), cs[|cs| - 1])
  }

  function LateAmong(recent: seq<bool>): (n: nat)
    ensures n <= |recent|
  {
    if recent == [] then 0
    else LateAmong(recent[..|recent| - 1]) + if recent[|recent| - 1] then 1 else 0
  }

  /** Time never runs backwards. */
  ghost predicate Clocked<T>(cs: seq<Call<T>>) {
    forall k | 0 <= k < |cs| && cs[k].Do? && cs[k].op.AdaptOp? :: cs[k].op.dt >= 0.0
  }

  ghost predicate SpacedOut(times: seq<real>, gap: real) {
    forall j, k | 0 <= j < k < |times| :: times[k] - times[j] >= gap
  }

  /** The packet counts are those of the books, with 100 packets behind every change. */
  ghost predicate CountsOk(total: nat, late: nat, recent: seq<bool>, changes: nat, pushed: nat) {
    total == |recent| && late == LateAmong(recent) && 100 * changes + |recent| <= pushed
  }

  /** So is the time since the hold-off started over, with five seconds between decreases. */
  ghost predicate TimesOk(since: real, clock: real, heldSince: real, lowered: seq<real>) {
    && since == clock - heldSince >= 0.0
    && (forall j | 0 <= j < |lowered| :: lowered[j] <= heldSince)
    && SpacedOut(lowered, 5.0)
  }

  ghost predicate Balanced<T>(k: Books<T>) {
    var t := k.buffer.tuning;
    && CountsOk(t.total, t.late, k.recent, k.changes, k.pushed)
    && TimesOk(t.sinceDecrease, k.clock, k.heldSince, k.lowered)
    && 1 <= t.depth <= 4
  }

  lemma OneMore(total: nat, late: nat, recent: seq<bool>, changes: nat, pushed: nat, isLate: bool)
    requires CountsOk(total, late, recent, changes, pushed)
    ensures CountsOk(total + 1, if isLate then late + 1 else late, recent + [isLate], changes, pushed + 1)
  {
    assert (recent + [isLate])[..|recent|] == recent;
  }

  lemma StartOver(changes: nat, pushed: nat)
    requires 100 * changes <= pushed
    ensures CountsOk(0, 0, [], changes, pushed)
  {
  }

  lemma PushCounts<T>(k: Books<T>, s: u16, pcm: T)
    requires Balanced(k)
    ensures Balanced(Record(k, Do(PushOp(s, pcm))))
  {
    var t, late := k.buffer.tuning, IsLate(k.buffer.next, s);
    assert Push(k.buffer, s, pcm).tuning == CountPush(t, late);
    OneMore(t.total, t.late, k.recent, k.changes, k.pushed, late);
    hide IsLate, Push, CountsOk, TimesOk;
  }

  lemma PopLeavesBooks<T>(k: Books<T>)
    requires Balanced(k)
    ensures Balanced(Record(k, Do(PopOp)))
  {
    assert Pop(k.buffer).0.tuning == k.buffer.tuning;
    hide Pop, CountsOk, TimesOk;
  }

  lemma ResetStartsOver<T>(k: Books<T>)
    requires Balanced(k)
    ensures Balanced(Record(k, Reset))
  {
    StartOver(k.changes, k.pushed);
    assert TimesOk(0.0, k.clock, k.clock, k.lowered);
    hide CountsOk, TimesOk;
  }

  /** What adapt does to the statistics, and when. */
  lemma RetuneExactly(t: Tuning, dt: real)
    ensures var u := Retune(t, dt);
            var rise := t.total >= 100 && 50 * t.late > t.total && t.depth < 4;
            var fall := t.total >= 100 && 1000 * t.late < t.total && t.depth > 1 && t.sinceDecrease + dt >= 5.0;
            && (rise ==> u == Tuning(t.depth + 1, 0, 0, t.sinceDecrease + dt))
            && (fall ==> u == Tuning(t.depth - 1, 0, 0, 0.0))
            && (!rise && !fall ==> u == Elapse(t, dt))
  {
  }

  lemma TimePasses(since: real, clock: real, heldSince: real, lowered: seq<real>, dt: real)
    requires TimesOk(since, clock, heldSince, lowered) && dt >= 0.0
    ensures TimesOk(since + dt, clock + dt, heldSince, lowered)
    ensures since + dt >= 5.0 ==> TimesOk(0.0, clock + dt, clock + dt, lowered + [clock + dt])
  {
  }

  lemma AdaptKeepsBooks<T>(k: Books<T>, dt: real)
    requires Balanced(k) && dt >= 0.0
    ensures Balanced(Record(k, Do(AdaptOp(dt))))
  {
    var t := k.buffer.tuning;
    RetuneExactly(t, dt);
    TimePasses(t.sinceDecrease, k.clock, k.heldSince, k.lowered, dt);
    if t.total >= 100 { StartOver(k.changes + 1, k.pushed); }
    hide Retune, CountsOk, TimesOk;
  }

  lemma RecordKeepsBalance<T>(k: Books<T>, c: Call<T>)
    requires Balanced(k)
    requires c.Do? && c.op.AdaptOp? ==> c.op.dt >= 0.0
    ensures Balanced(Record(k, c))
  {
    match c
    case Reset => ResetStartsOver(k);
    case Do(op) =>
      hide Balanced, Record;
      match op
      case PushOp(s, pcm) => PushCounts(k, s, pcm);
      case PopOp => PopLeavesBooks(k);
      case AdaptOp(dt) => AdaptKeepsBooks(k, dt);
  }

  /**
   * Bounds over every run: depth in 1..4, late never above total, at least 100 packets
   * behind each change, and at least 5 seconds between any two decreases.
   */
  lemma {:induction false} AdaptationBounds<T>(cs: seq<Call<T>>)
    requires Clocked(cs)
    ensures Balanced(RecordAll(cs))
    ensures var (k, t) := (RecordAll(cs), RecordAll(cs).buffer.tuning);
            && 1 <= t.depth <= 4 && t.late <= t.total
            && 100 * k.changes + t.total <= k.pushed
            && SpacedOut(k.lowered, 5.0)
  {
    if cs != [] {
      AdaptationBounds(cs[..|cs| - 1]);
      RecordKeepsBalance(RecordAll(cs[..|cs| - 1]), cs[|cs| - 1]);
      hide Record;
    }
  }

  lemma AdaptRetunes<T>(b: Buffer<T>, dt: real)
    ensures Adapt(b, dt).tuning == Retune(b.tuning, dt)
  {
  }

  /**
   * What adapt decides after every run, in terms of that run alone: with at least 100 packets
   * since the last change, more than 2% late raises the depth by one up to four; fewer than
   * 0.1% late, five seconds after the hold-off last started over, lowers it by one down to one.
   */
  lemma AdaptFollowsLoss<T>(cs: seq<Call<T>>, dt: real)
    requires Clocked(cs) && dt >= 0.0
    ensures var k := RecordAll(cs);
            var (depth, after) := (k.buffer.tuning.depth, Adapt(k.buffer, dt).tuning.depth);
            var (n, late) := (|k.recent|, LateAmong(k.recent));
            && (after == depth + 1 <==> n >= 100 && 50 * late > n && depth < 4)
            && (after + 1 == depth <==>
                  n >= 100 && 1000 * late < n && depth > 1 && k.clock + dt - k.heldSince >= 5.0)
            && (after == depth + 1 || after == depth || after + 1 == depth)
  {
    AdaptationBounds(cs);
    var k := RecordAll(cs);
    assert k.buffer.tuning.total == |k.recent| && k.buffer.tuning.late == LateAmong(k.recent);
    assert k.buffer.tuning.sinceDecrease == k.clock - k.heldSince;
    RetuneExactly(k.buffer.tuning, dt);
    hide *;
    assert Adapt(k.buffer, dt).tuning == Retune(k.buffer.tuning, dt) by { AdaptRetunes(k.buffer, dt); }
  }
}
