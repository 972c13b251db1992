/** Round-trip statistics (latency.rs), in whole microseconds. */
module Latency {
  import opened Words

  const MAX_PENDING: nat := 16
  const U64_MAX: nat := 0xFFFF_FFFF_FFFF_FFFF

  datatype Stats = Stats(last: nat, min: nat, avg: nat, max: nat, jitter: nat, samples: nat)

  datatype Tracker = Tracker(pending: map<u32, nat>, nextId: u32, stats: Stats, lastRtt: nat)

  const NO_STATS := Stats(0, U64_MAX, 0, 0, 0, 0)

  const NEW_TRACKER := Tracker(map[], 0, NO_STATS, 0)

  /** The smoothing step with weight 1/8, truncated: floor((7a + x) / 8). */
  function Smooth(a: nat, x: nat): nat { (7 * a + x) / 8 }

  function Distance(a: nat, b: nat): nat { if a < b then b - a else a - b }

  function Sampled(s: Stats, lastRtt: nat, rtt: nat): Stats {
    var first := s.samples == 0;
    Stats(rtt,
          if rtt < s.min then rtt else s.min,
          if first then rtt else Smooth(s.avg, rtt),
          if rtt > s.max then rtt else s.max,
          if first then 0 else Smooth(s.jitter, Distance(rtt, lastRtt)),
          s.samples + 1)
  }

  /** A full table first drops whichever key the hash map yields first. */
  function PingSent(t: Tracker, now: nat, dropped: u32): Tracker {
    var kept := if |t.pending| >= MAX_PENDING then t.pending - {dropped} else t.pending;
    t.(pending := kept[t.nextId := now], nextId := (t.nextId + 1) % (U32_MAX + 1))
  }

  /** The elapsed time since the ping, 0 if the clock does not show any. */
  function Elapsed(sent: nat, now: nat): nat { if sent <= now then now - sent else 0 }

  function PongReceived(t: Tracker, id: u32, now: nat): (Tracker, Option<nat>) {
    if id !in t.pending then (t, None)
    else
      var rtt := Elapsed(t.pending[id], now);
      (t.(pending := t.pending - {id}, stats := Sampled(t.stats, t.lastRtt, rtt), lastRtt := rtt), Some(rtt))
  }

  function Reset(t: Tracker): Tracker { t.(pending := map[], stats := NO_STATS, lastRtt := 0) }

  // ---------------------------------------------------------------------
  // Runs.
  // ---------------------------------------------------------------------

  datatype LatencyEvent = Ping(now: nat, dropped: u32) | Pong(id: u32, now: nat) | Clear

  /** The tracker and the number of pings issued since the last reset. */
  datatype Run = Run(tracker: Tracker, issued: nat)

  function Advance(r: Run, e: LatencyEvent): Run {
    match e
    case Ping(now, dropped) => Run(PingSent(r.tracker, now, dropped), r.issued + 1)
    case Pong(id, now) => r.(tracker := PongReceived(r.tracker, id, now).0)
    case Clear => Run(Reset(r.tracker), 0)
  }

  function RunOf(es: seq<LatencyEvent>): Run {
    if es == [] then Run(NEW_TRACKER, 0) else Advance(RunOf(es[..|es| - 1]), es[|es| - 1])
  }

  /** What may be dropped is a pending ping, and clocks fit 64 bits. */
  predicate Plausible(r: Run, e: LatencyEvent) {
    match e
    case Ping(now, dropped) => |r.tracker.pending| >= 16 ==> dropped in r.tracker.pending
    case Pong(_, now) => now <= U64_MAX
    case Clear => true
  }

  predicate PlausibleRun(es: seq<LatencyEvent>) {
    forall k | 0 <= k < |es| :: Plausible(RunOf(es[..k]), es[k])
  }

  ghost predicate Sound(s: Stats, lastRtt: nat) {
    if s.samples == 0 then s == NO_STATS
    else
      && s.min <= s.last <= s.max && s.min <= s.avg <= s.max
      && s.jitter <= s.max - s.min && s.last == lastRtt
  }

  ghost predicate RunOk(r: Run) {
    && Sound(r.tracker.stats, r.tracker.lastRtt)
    && |r.tracker.pending| <= 16
    && r.tracker.stats.samples + |r.tracker.pending| <= r.issued
  }

  /** Smoothing stays between two bounds in spite of truncation. */
  lemma SmoothBetween(a: nat, x: nat, lo: nat, hi: nat)
    requires lo <= a <= hi && lo <= x <= hi
    ensures lo <= Smooth(a, x) <= hi
  {
  }

  lemma SampledKeepsSound(s: Stats, lastRtt: nat, rtt: nat)
    requires Sound(s, lastRtt) && rtt <= U64_MAX
    ensures Sound(Sampled(s, lastRtt, rtt), rtt)
  {
    var s' := Sampled(s, lastRtt, rtt);
    if s.samples != 0 {
      SmoothBetween(s.avg, rtt, s'.min, s'.max);
      SmoothBetween(s.jitter, Distance(rtt, lastRtt), 0, s'.max - s'.min);
    }
    hide Smooth;
  }

  lemma RemovedOne(p: map<u32, nat>, id: u32)
    requires id in p
    ensures |p - {id}| == |p| - 1
  {
    assert (p - {id}).Keys == p.Keys - {id};
  }

  lemma AddedOne(p: map<u32, nat>, id: u32, now: nat)
    ensures |p[id := now]| <= |p| + 1
  {
    assert p[id := now].Keys == p.Keys + {id};
  }

  lemma AdvanceKeepsOk(r: Run, e: LatencyEvent)
    requires RunOk(r) && Plausible(r, e)
    ensures RunOk(Advance(r, e))
  {
    hide Smooth, Distance;
    var p: map<u32, nat> := r.tracker.pending;
    match e
    case Ping(now, dropped) =>
      var kept: map<u32, nat> := if |p| >= MAX_PENDING then p - {dropped} else p;
      if |p| >= MAX_PENDING { RemovedOne(p, dropped); }
      AddedOne(kept, r.tracker.nextId, now);
      hide Sound;
    case Pong(id, now) =>
      if id in p {
        SampledKeepsSound(r.tracker.stats, r.tracker.lastRtt, Elapsed(p[id], now));
        RemovedOne(p, id);
      }
      hide Sampled, Sound;
    case Clear =>
  }

  /**
   * Over every run: with at least one sample, min <= last, avg <= max and jitter is at
   * most their spread; at most 16 pings pend; samples and pending pings were all issued.
   */
  lemma {:induction false} StatsStaySound(es: seq<LatencyEvent>)
    requires PlausibleRun(es)
    ensures RunOk(RunOf(es))
  {
    if es != [] {
      var init := es[..|es| - 1];
      assert forall k | 0 <= k < |init| :: init[..k] == es[..k];
      StatsStaySound(init);
      AdvanceKeepsOk(RunOf(init), es[|es| - 1]);
    }
  }

  // ---------------------------------------------------------------------
  // What the statistics are, from the pings and pongs alone.
  // ---------------------------------------------------------------------

  function PingsIn(es: seq<LatencyEvent>): nat {
    if es == [] then 0 else PingsIn(es[..|es| - 1]) + if es[|es| - 1].Ping? then 1 else 0
  }

  /** When the ping of that id was sent which still waits for its pong, if one does. */
  function Awaited(es: seq<LatencyEvent>, id: u32): Option<nat> {
    if es == [] then None
    else
      var init := es[..|es| - 1];
      match es[|es| - 1]
      case Clear => None
      case Pong(answered, _) => if answered == id then None else Awaited(init, id)
      case Ping(now, dropped) =>
        if id as int == PingsIn(init) % 0x1_0000_0000 then Some(now)
        else if id == dropped && |RunOf(init).tracker.pending| >= 16 then None
        else Awaited(init, id)
  }

  lemma {:induction false} IdsInTurn(es: seq<LatencyEvent>)
    ensures RunOf(es).tracker.nextId as int == PingsIn(es) % 0x1_0000_0000
  {
    if es != [] { IdsInTurn(es[..|es| - 1]); }
  }

  lemma {:induction false} PendingIsAwaited(es: seq<LatencyEvent>, id: u32)
    ensures var p := RunOf(es).tracker.pending; Awaited(es, id) == if id in p then Some(p[id]) else None
  {
    if es != [] {
      PendingIsAwaited(es[..|es| - 1], id);
      IdsInTurn(es[..|es| - 1]);
      hide Sampled, Elapsed;
    }
  }

  /** The round trips measured since the last reset: for each pong that was awaited, the time since its ping. */
  function RoundTrips(es: seq<LatencyEvent>): seq<nat> {
    if es == [] then []
    else
      var init := es[..|es| - 1];
      match es[|es| - 1]
      case Clear => []
      case Ping(_, _) => RoundTrips(init)
      case Pong(id, now) =>
        match Awaited(init, id)
        case None => RoundTrips(init)
        case Some(sent) => RoundTrips(init) + [if sent <= now then now - sent else 0]
  }

  /** The last of values that start at `first` and then follow the inputs with weight 1/8, truncated. */
  ghost predicate Follows(trace: seq<nat>, inputs: seq<nat>, first: nat) {
    && |trace| == |inputs| > 0 && trace[0] == first
    && forall k | 0 < k < |trace| :: 8 * trace[k] <= 7 * trace[k - 1] + inputs[k] < 8 * trace[k] + 8
  }

  /** From each round trip to the next; nothing before the first. */
  function Changes(rtts: seq<nat>): seq<nat> {
    seq(|rtts|, k requires 0 <= k < |rtts| =>
      if k == 0 then 0 else if rtts[k - 1] <= rtts[k] then rtts[k] - rtts[k - 1] else rtts[k - 1] - rtts[k])
  }

  /** The statistics of these round trips, with the averages' histories. */
  ghost predicate StatsOf(s: Stats, rtts: seq<nat>, avgs: seq<nat>, jitters: seq<nat>) {
    if rtts == [] then s == Stats(0, 0xFFFF_FFFF_FFFF_FFFF, 0, 0, 0, 0)
    else
      && s.samples == |rtts| && s.last == rtts[|rtts| - 1]
      && s.min in rtts && s.max in rtts && (forall x | x in rtts :: s.min <= x <= s.max)
      && Follows(avgs, rtts, rtts[0]) && s.avg == avgs[|avgs| - 1]
      && Follows(jitters, Changes(rtts), 0) && s.jitter == jitters[|jitters| - 1]
  }

  lemma FollowsOn(trace: seq<nat>, inputs: seq<nat>, first: nat, x: nat)
    requires Follows(trace, inputs, first)
    ensures Follows(trace + [Smooth(trace[|trace| - 1], x)], inputs + [x], first)
  {
  }

  lemma OneMoreSample(s: Stats, rtts: seq<nat>, avgs: seq<nat>, jitters: seq<nat>, lastRtt: nat, rtt: nat)
    returns (avgs': seq<nat>, jitters': seq<nat>)
    requires StatsOf(s, rtts, avgs, jitters) && (rtts != [] ==> lastRtt == rtts[|rtts| - 1])
    requires rtt <= 0xFFFF_FFFF_FFFF_FFFF
    ensures StatsOf(Sampled(s, lastRtt, rtt), rtts + [rtt], avgs', jitters')
  {
    var more := rtts + [rtt];
    if rtts == [] {
      avgs', jitters' := [rtt], [0];
      assert more == [rtt];
    } else {
      var d := Distance(rtt, lastRtt);
      FollowsOn(avgs, rtts, rtts[0], rtt);
      FollowsOn(jitters, Changes(rtts), 0, d);
      assert Changes(more) == Changes(rtts) + [d];
      avgs', jitters' := avgs + [Smooth(s.avg, rtt)], jitters + [Smooth(s.jitter, d)];
      hide Follows, Smooth, Distance;
    }
  }

  /** One more round trip, if the event is a pong that was awaited. */
  function Measured(t: Tracker, rtts: seq<nat>, e: LatencyEvent): seq<nat> {
    match e
    case Clear => []
    case Ping(_, _) => rtts
    case Pong(id, now) => if id in t.pending then rtts + [Elapsed(t.pending[id], now)] else rtts
  }

  lemma LastEvent(es: seq<LatencyEvent>)
    requires es != []
    ensures var (init, e) := (es[..|es| - 1], es[|es| - 1]);
            && RunOf(es) == Advance(RunOf(init), e)
            && RoundTrips(es) == Measured(RunOf(init).tracker, RoundTrips(init), e)
  {
    var init, e := es[..|es| - 1], es[|es| - 1];
    if e.Pong? { PendingIsAwaited(init, e.id); }
    hide Advance, Awaited;
  }

  /** The statistics follow what is measured. */
  lemma EventMeasured(r: Run, rtts: seq<nat>, e: LatencyEvent, avgs: seq<nat>, jitters: seq<nat>)
    returns (avgs': seq<nat>, jitters': seq<nat>)
    requires StatsOf(r.tracker.stats, rtts, avgs, jitters) && (rtts != [] ==> r.tracker.lastRtt == rtts[|rtts| - 1])
    requires Plausible(r, e)
    ensures var (t, more) := (Advance(r, e).tracker, Measured(r.tracker, rtts, e));
            StatsOf(t.stats, more, avgs', jitters') && (more != [] ==> t.lastRtt == more[|more| - 1])
  {
    var t := r.tracker;
    avgs', jitters' := avgs, jitters;
    if e.Clear? {
      avgs', jitters' := [], [];
    } else if e.Pong? && e.id in t.pending {
      var rtt := Elapsed(t.pending[e.id], e.now);
      assert rtt <= 0xFFFF_FFFF_FFFF_FFFF;
      hide StatsOf, Sampled, Elapsed;
      avgs', jitters' := OneMoreSample(t.stats, rtts, avgs, jitters, t.lastRtt, rtt);
    }
    hide Follows, Sampled;
  }

  lemma NothingMeasured()
    ensures RunOf([]).tracker.stats == NO_STATS && RoundTrips([]) == [] && StatsOf(NO_STATS, [], [], [])
  {
  }

  /**
   * Over every run: what the tracker shows are the number, the last, the least and the greatest
   * of the round trips since the last reset; the average starts at the first and follows them
   * with weight 1/8, truncated, and the jitter starts at 0 and follows their changes likewise.
   */
  lemma {:induction false} StatsExactly(es: seq<LatencyEvent>) returns (avgs: seq<nat>, jitters: seq<nat>)
    requires PlausibleRun(es)
    ensures StatsOf(RunOf(es).tracker.stats, RoundTrips(es), avgs, jitters)
    ensures RoundTrips(es) != [] ==> RunOf(es).tracker.lastRtt == RoundTrips(es)[|RoundTrips(es)| - 1]
  {
    avgs, jitters := [], [];
    NothingMeasured();
    if es != [] {
      var init, e := es[..|es| - 1], es[|es| - 1];
      assert forall k | 0 <= k < |init| :: init[..k] == es[..k];
      assert PlausibleRun(init) && Plausible(RunOf(init), e);
      hide *;
      avgs, jitters := StatsExactly(init);
      LastEvent(es);
      avgs, jitters := EventMeasured(RunOf(init), RoundTrips(init), e, avgs, jitters);
    }
  }
}

/** The tracker object of latency.rs; the clock is a parameter. */
module LatencyTrackers {
  import opened Words
  import L = Latency

  class LatencyTracker {
    var pending: map<u32, nat>
    var nextPingId: u32
    var stats: L.Stats
    var lastRtt: nat
    ghost var issued: nat

    ghost function View(): L.Run
      reads this
    {
      L.Run(L.Tracker(pending, nextPingId, stats, lastRtt), issued)
    }

    ghost predicate Valid()
      reads this
    {
      L.RunOk(View())
    }

    constructor ()
      ensures Valid() && View() == L.RunOf([])
    {
      pending, nextPingId, stats, lastRtt, issued := map[], 0, L.NO_STATS, 0, 0;
    }

    method PingSent(now: nat) returns (id: u32)
      requires Valid()
      modifies this
      ensures Valid() && id == old(nextPingId)
      ensures exists dropped: u32 ::
                L.Plausible(old(View()), L.Ping(now, dropped)) && View() == L.Advance(old(View()), L.Ping(now, dropped))
    {
      ghost var before := View();
      id := nextPingId;
      nextPingId := (nextPingId + 1) % (U32_MAX + 1);
      var dropped := 0;
      if |pending| >= L.MAX_PENDING {
        assert |pending.Keys| > 0;
        var oldest :| oldest in pending;
        dropped := oldest;
        pending := pending - {oldest};
      }
      pending := pending[id := now];
      issued := issued + 1;
      L.AdvanceKeepsOk(before, L.Ping(now, dropped));
      assert View() == L.Advance(before, L.Ping(now, dropped));
    }

    method PongReceived(id: u32, now: nat) returns (rtt: Option<nat>)
      requires Valid() && now <= L.U64_MAX
      modifies this
      ensures Valid()
      ensures View() == L.Advance(old(View()), L.Pong(id, now))
      ensures rtt == L.PongReceived(old(View()).tracker, id, now).1
      // a pending ping is taken and gives the time since it was sent, 0 if the clock fell behind
      ensures rtt.Some? <==> id in old(pending)
      ensures pending == old(pending) - {id} && nextPingId == old(nextPingId)
      ensures id in old(pending) ==>
                var (sent, was) := (old(pending)[id], old(stats));
                && rtt == Some(if sent <= now then now - sent else 0)
                && stats.last == lastRtt == rtt.value && stats.samples == was.samples + 1
                && (was.samples > 0 ==> 8 * stats.avg <= 7 * was.avg + rtt.value < 8 * stats.avg + 8)
      ensures id !in old(pending) ==> stats == old(stats) && lastRtt == old(lastRtt)
    {
      L.AdvanceKeepsOk(View(), L.Pong(id, now));
      if id !in pending {
        return None;
      }
      var r := L.Elapsed(pending[id], now);
      pending := pending - {id};
      var s := stats.(last := r, samples := stats.samples + 1);
      if r < s.min {
        s := s.(min := r);
      }
      if r > s.max {
        s := s.(max := r);
      }
      if s.samples == 1 {
        s := s.(avg := r, jitter := 0);
      } else {
        s := s.(avg := L.Smooth(s.avg, r), jitter := L.Smooth(s.jitter, L.Distance(r, lastRtt)));
      }
      stats := s;
      lastRtt := r;
      rtt := Some(r);
    }

    method Reset()
      requires Valid()
      modifies this
      ensures Valid() && View() == L.Advance(old(View()), L.Clear)
    {
      pending := map[];
      stats := L.NO_STATS;
      lastRtt := 0;
      issued := 0;
    }
  }
}
