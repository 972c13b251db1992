/**
 * Which frames are played: exactly those of which a packet reaches the buffer in time, across
 * the switch to the per-peer key, whose counters start over, and across any number of wraps
 * of the 16-bit number.
 */
module AudioRuns {
  import opened Words
  import opened Wire
  import opened Crypto
  import opened Jitter
  import opened Playout
  import opened AudioPath
  import Replay

  /** A packet on the air lands exactly if it decodes, opens, and its context's filter admits it. */
  lemma LandsExactly(l: Link, es: seq<AudioEvent>, f: Flight, decodes: bool)
    requires ValidLink(l) && TimelyRun(l, es) && f in PathAfter(l, es).air
    ensures var (r, pair) := (PathAfter(l, es).receiver, f.packet.body.key == l.pair.key);
            Lands(l, r, f.packet, decodes) <==>
              && decodes
              && (pair ==> r.upgraded)
              && Replay.Admissible(Taken(l, es, pair), f.packet.header.counter)
  {
    var x, h := PathAfter(l, es), f.packet.header;
    RunKeepsPathInv(l, es);
    assert FlightOk(l, x.sender.log, f);
    var pair := f.packet.body.key == l.pair.key;
    FiltersTrack(l, es, pair);
    Replay.CheckRefines(FilterOf(x, pair), Taken(l, es, pair), h.counter);
    assert f.packet == AudioPacket(h, f.packet.body);
    OpensAcrossUpgrade(l, x.receiver.upgraded, h, x.sender.log[f.position]);
    assert f.packet.body == Encrypt(if pair then l.pair else l.shared, h, x.sender.log[f.position]);
    hide OpenAudio, Encrypt, PathInv, PathAfter, TimelyRun, Taken, Replay.Tracks, Replay.Check, Replay.Admissible;
  }

  /** Position i has been played or waits in the buffer. */
  ghost predicate Held(x: Path, i: int) { i in x.positions || i in x.playout.frames }

  /** The cursor has not passed position i and the buffer is not full. */
  ghost predicate Room(x: Path, i: int) {
    !Passed(x.playout.cursor, i) && |x.playout.frames| < 8
  }

  /** The event brings the frame of position i into the buffer. */
  ghost predicate Brings(l: Link, x: Path, e: AudioEvent, i: int) {
    && e.Hear? && e.flight.position == i
    && Lands(l, x.receiver, e.flight.packet, e.decodes) && Room(x, i)
  }

  /** A position is held after an event exactly if it was held before or the event brings it. */
  lemma AdvanceHolds(l: Link, x: Path, e: AudioEvent, i: int)
    ensures Held(Advance(l, x, e), i) <==> Held(x, i) || Brings(l, x, e, i)
  {
    hide Lands, OpenAudio, ReceiveAudio, Pop, SendAudio;
  }

  /** Event k of the run brings the frame of position i. */
  ghost predicate BringsAt(l: Link, es: seq<AudioEvent>, k: nat, i: int) {
    k < |es| && Brings(l, PathAfter(l, es[..k]), es[k], i)
  }

  ghost predicate ArrivedInTime(l: Link, es: seq<AudioEvent>, i: int) { exists k :: BringsAt(l, es, k, i) }

  lemma ArrivedSnoc(l: Link, es: seq<AudioEvent>, i: int)
    requires es != []
    ensures var init, last := es[..|es| - 1], es[|es| - 1];
            ArrivedInTime(l, es, i) <==> ArrivedInTime(l, init, i) || Brings(l, PathAfter(l, init), last, i)
  {
    hide Brings, PathAfter;
    var n := |es| - 1;
    var init := es[..n];
    assert forall k: nat | k < n :: init[..k] == es[..k];
    assert forall k: nat | k < n :: BringsAt(l, init, k, i) <==> BringsAt(l, es, k, i);
    assert BringsAt(l, es, n, i) <==> Brings(l, PathAfter(l, init), es[n], i);
  }

  /** Over a whole run: a position is played or buffered exactly if some event brought it. */
  lemma {:induction false} HeldExactly(l: Link, es: seq<AudioEvent>, i: int)
    ensures Held(PathAfter(l, es), i) <==> ArrivedInTime(l, es, i)
  {
    if es != [] {
      var init := es[..|es| - 1];
      HeldExactly(l, init, i);
      AdvanceHolds(l, PathAfter(l, init), es[|es| - 1], i);
      ArrivedSnoc(l, es, i);
      hide Held, Brings, Advance, ArrivedInTime;
    }
  }

  /** Frame i of the log has been played. */
  ghost predicate WasPlayed(x: Path, i: int) {
    exists n :: 0 <= n < |x.positions| && x.positions[n] == i
                && |x.played| == |x.positions| && 0 <= i < |x.sender.log| && x.played[n] == x.sender.log[i]
  }

  /**
   * What arrives in time is played: once the cursor has passed a position, its frame was
   * played if and only if some packet of it landed while the cursor had not passed it and
   * fewer than eight frames were waiting.
   */
  lemma PlayedExactly(l: Link, es: seq<AudioEvent>, i: int)
    requires ValidLink(l) && TimelyRun(l, es)
    requires Passed(PathAfter(l, es).playout.cursor, i)
    ensures WasPlayed(PathAfter(l, es), i) <==> ArrivedInTime(l, es, i)
  {
    HeldExactly(l, es, i);
    RunKeepsPathInv(l, es);
    PlayedInOrder(l, es);
    var x := PathAfter(l, es);
    var idx :| Simulates(x.receiver.buffer, x.playout, idx);
    assert i !in x.playout.frames;
    hide ArrivedInTime, PathAfter, TimelyRun, Slots, PlayedOk, FlightOk, InStep;
    if i in x.positions {
      var n :| 0 <= n < |x.positions| && x.positions[n] == i;
      assert x.played[n] == x.sender.log[i];
    }
  }

  lemma {:induction false} TimelyPrefix(l: Link, es: seq<AudioEvent>, k: nat)
    requires TimelyRun(l, es) && k < |es|
    ensures TimelyRun(l, es[..k]) && Possible(PathAfter(l, es[..k]), es[k])
    decreases |es|
  {
    hide Possible, Timely, PathAfter;
    var init := es[..|es| - 1];
    if k < |init| {
      TimelyPrefix(l, init, k);
      assert init[..k] == es[..k];
    }
  }

  /**
   * A packet heard for the first time, overtaken by fewer than 64 of its context, with its
   * key at hand, while its frame is not yet due and fewer than eight frames wait: its frame is
   * played by the time the cursor has passed it.
   */
  lemma HeardInTimeIsPlayed(l: Link, es: seq<AudioEvent>, k: nat)
    requires ValidLink(l) && TimelyRun(l, es) && k < |es| && es[k].Hear? && es[k].decodes
    requires var (x, f) := (PathAfter(l, es[..k]), es[k].flight);
             var pair := f.packet.body.key == l.pair.key;
             && Room(x, f.position) && (pair ==> x.receiver.upgraded)
             && (forall c | c in Taken(l, es[..k], pair) ::
                   c != f.packet.header.counter && c < f.packet.header.counter + 64)
    ensures var (x, i) := (PathAfter(l, es), es[k].flight.position);
            Passed(x.playout.cursor, i) ==> WasPlayed(x, i)
  {
    var i := es[k].flight.position;
    TimelyPrefix(l, es, k);
    LandsExactly(l, es[..k], es[k].flight, true);
    hide PathAfter, TimelyRun, Taken, Lands, WasPlayed, Room;
    assert BringsAt(l, es, k, i);
    if Passed(PathAfter(l, es).playout.cursor, i) { PlayedExactly(l, es, i); }
  }

  // ---------------------------------------------------------------------
  // A conversation in which every packet arrives before the next frame is due.
  // ---------------------------------------------------------------------

  lemma TimelySnoc(l: Link, es: seq<AudioEvent>, e: AudioEvent)
    requires TimelyRun(l, es) && Possible(PathAfter(l, es), e) && Timely(l, PathAfter(l, es), e)
    ensures TimelyRun(l, es + [e]) && PathAfter(l, es + [e]) == Advance(l, PathAfter(l, es), e)
    ensures forall pair :: Taken(l, es + [e], pair)
              == Taken(l, es, pair)
                 + if Accepts(l, PathAfter(l, es), e, pair) then {e.flight.packet.header.counter} else {}
  {
    assert (es + [e])[..|es|] == es;
    hide Possible, Timely, Accepts, Advance;
  }

  /** The context in use and how many of its counters have been used. */
  ghost predicate Counting(l: Link, es: seq<AudioEvent>, used: nat, upgraded: bool) {
    var x := PathAfter(l, es);
    && x.receiver.upgraded == upgraded && UsesPair(x.sender) == upgraded
    && used <= 0xFFFF_FFFF
    && (if upgraded then x.sender.pairCounter == Some(used) else x.sender.sharedCounter == used)
    && (forall c | c in Taken(l, es, upgraded) :: c < used)
    && (!upgraded ==> Taken(l, es, true) == {})
  }

  /** All n frames sent so far have been played and the buffer waits for the next. */
  ghost predicate CaughtUp(x: Path, n: nat) {
    && |x.sender.log| == n
    && x.positions == seq(n, i => i)
    && x.playout.frames == map[] && x.playout.tuning.depth == 1
    && x.playout.cursor == if n == 0 then None else Some(n)
  }

  ghost predicate Talked(l: Link, es: seq<AudioEvent>, frames: seq<Opus>, used: nat, upgraded: bool) {
    && TimelyRun(l, es) && PathAfter(l, es).sender.log == frames && CaughtUp(PathAfter(l, es), |frames|)
    && Counting(l, es, used, upgraded)
  }

  lemma SendUses(l: Link, s: Sender, used: nat, upgraded: bool, opus: Opus)
    requires UsesPair(s) == upgraded && used < 0xFFFF_FFFF
    requires if upgraded then s.pairCounter == Some(used) else s.sharedCounter == used
    ensures var ((s', p), h) := (SendAudio(l, s, opus), Header(0x01, l.sender, s.sendSeq, used));
            && p == Some(AudioPacket(h, Encrypt(if upgraded then l.pair else l.shared, h, opus)))
            && s'.log == s.log + [opus] && UsesPair(s') == upgraded
            && (if upgraded then s'.pairCounter == Some(used + 1) else s'.sharedCounter == used + 1)
  {
    hide Encrypt;
  }

  /** The next frame is sent, under the context in use and its next counter. */
  lemma Say(l: Link, es: seq<AudioEvent>, frames: seq<Opus>, used: nat, upgraded: bool, opus: Opus)
    returns (es': seq<AudioEvent>, p: AudioPacket)
    requires Talked(l, es, frames, used, upgraded) && used < 0xFFFF_FFFF
    ensures TimelyRun(l, es') && (forall pair :: Taken(l, es', pair) == Taken(l, es, pair))
    ensures p.header.counter == used && p.body == Encrypt(if upgraded then l.pair else l.shared, p.header, opus)
    ensures var x, x' := PathAfter(l, es), PathAfter(l, es');
            && Flight(|frames|, p) in x'.air
            && x' == x.(sender := x'.sender, air := x'.air)
            && x'.sender.log == frames + [opus]
            && UsesPair(x'.sender) == upgraded
            && (if upgraded then x'.sender.pairCounter == Some(used + 1) else x'.sender.sharedCounter == used + 1)
  {
    var x := PathAfter(l, es);
    SendUses(l, x.sender, used, upgraded, opus);
    p := SendAudio(l, x.sender, opus).1.value;
    hide SendAudio, PathAfter, TimelyRun, Taken, CaughtUp, Encrypt, UsesPair;
    TimelySnoc(l, es, Speak(opus));
    es' := es + [Speak(opus)];
  }

  /** It is heard, lands, and its counter is taken. */
  lemma HearIt(l: Link, es: seq<AudioEvent>, f: Flight, used: nat, upgraded: bool, opus: Opus)
    returns (es': seq<AudioEvent>)
    requires ValidLink(l) && TimelyRun(l, es) && f in PathAfter(l, es).air
    requires f.packet.header.counter == used
    requires f.packet.body == Encrypt(if upgraded then l.pair else l.shared, f.packet.header, opus)
    requires PathAfter(l, es).receiver.upgraded == upgraded && InWindow(PathAfter(l, es).playout, f.position)
    requires forall c | c in Taken(l, es, upgraded) :: c < used
    ensures TimelyRun(l, es')
    ensures Taken(l, es', upgraded) == Taken(l, es, upgraded) + {used}
    ensures Taken(l, es', !upgraded) == Taken(l, es, !upgraded)
    ensures var x, x' := PathAfter(l, es), PathAfter(l, es');
            && x' == x.(receiver := x'.receiver, playout := x'.playout)
            && x'.receiver.upgraded == upgraded
            && x'.playout == Arrive(x.playout, f.position, opus)
  {
    var x, e, h := PathAfter(l, es), Hear(f, true), f.packet.header;
    LandsExactly(l, es, f, true);
    OpensAcrossUpgrade(l, upgraded, h, opus);
    assert f.packet == AudioPacket(h, f.packet.body);
    assert OpenAudio(l, upgraded, f.packet) == Some((opus, upgraded));
    assert f.packet.body.key == l.pair.key <==> upgraded;
    hide OpenAudio, Encrypt, PathAfter, TimelyRun, Taken, Arrive, InWindow, Push, Replay.Check;
    assert Lands(l, x.receiver, f.packet, true);
    TimelySnoc(l, es, e);
    es' := es + [e];
    assert Accepts(l, x, e, upgraded) && !Accepts(l, x, e, !upgraded);
  }

  /** A frame that arrives when it is due and alone is played at once. */
  lemma StraightThrough(p: Playout<Opus>, n: nat, opus: Opus)
    requires p.frames == map[] && p.tuning.depth == 1 && (p.cursor.Some? ==> p.cursor.value == n)
    ensures InWindow(p, n)
    ensures var (p', at) := Play(Arrive(p, n, opus));
            && at == Some((n, opus)) && p'.frames == map[] && p'.tuning.depth == 1 && p'.cursor == Some(n + 1)
  {
    var q := Arrive(p, n, opus);
    assert q.frames == map[n := opus] && q.frames.Keys == {n};
    assert n in q.frames;
    assert q.frames - {n} == map[];
  }

  lemma SayHearPlay(l: Link, es: seq<AudioEvent>, frames: seq<Opus>, used: nat, upgraded: bool, opus: Opus)
    returns (es': seq<AudioEvent>)
    requires ValidLink(l) && Talked(l, es, frames, used, upgraded) && used < 0xFFFF_FFFF
    ensures Talked(l, es', frames + [opus], used + 1, upgraded)
  {
    var x, n := PathAfter(l, es), |frames|;
    hide PathAfter, TimelyRun, Taken, Encrypt, Arrive, Play, InWindow;
    var es1, p := Say(l, es, frames, used, upgraded, opus);
    StraightThrough(x.playout, n, opus);
    var es2 := HearIt(l, es1, Flight(n, p), used, upgraded, opus);
    var x2 := PathAfter(l, es2);
    TimelySnoc(l, es2, PlayFrame);
    es' := es2 + [PlayFrame];
    var x3 := PathAfter(l, es');
    hide Pop;
    assert x3.positions == seq(n, i => i) + [n] == seq(n + 1, i => i);
  }

  /** Both offers cross: each side installs the per-peer context. */
  lemma Upgrade(l: Link, es: seq<AudioEvent>, frames: seq<Opus>, used: nat) returns (es': seq<AudioEvent>)
    requires Talked(l, es, frames, used, false)
    ensures Talked(l, es', frames, 0, true)
  {
    hide PathAfter, TimelyRun, Taken;
    TimelySnoc(l, es, SenderOffers);
    es' := es + [SenderOffers];
    TimelySnoc(l, es', SenderGetsKey);
    es' := es' + [SenderGetsKey];
    TimelySnoc(l, es', ReceiverGetsKey);
    es' := es' + [ReceiverGetsKey];
  }

  /**
   * All of it is played: for any frames and any moment u of the upgrade (never, if u is too
   * large) there is a timely run in which every packet arrives before the next frame is due,
   * and it plays exactly the frames.
   */
  lemma {:induction false} EverythingHeardIsPlayed(l: Link, frames: seq<Opus>, u: nat) returns (es: seq<AudioEvent>)
    requires ValidLink(l) && |frames| <= 0xFFFF_FFFF
    ensures TimelyRun(l, es) && PathAfter(l, es).sender.log == PathAfter(l, es).played == frames
    ensures Talked(l, es, frames, if u <= |frames| then |frames| - u else |frames|, u <= |frames|)
    decreases |frames|
  {
    var n := |frames|;
    hide PathAfter, TimelyRun, Talked;
    if n == 0 {
      es := [];
      NothingSaid(l);
    } else {
      var init, opus := frames[..n - 1], frames[n - 1];
      es := EverythingHeardIsPlayed(l, init, u);
      assert init + [opus] == frames;
      es := SayHearPlay(l, es, init, if u < n then n - 1 - u else n - 1, u < n, opus);
    }
    if u == n { es := Upgrade(l, es, frames, n); }
    AllPlayed(l, es, frames, if u <= n then n - u else n, u <= n);
  }

  lemma NothingSaid(l: Link)
    ensures Talked(l, [], [], 0, false)
  {
  }

  lemma AllPlayed(l: Link, es: seq<AudioEvent>, frames: seq<Opus>, used: nat, upgraded: bool)
    requires ValidLink(l) && Talked(l, es, frames, used, upgraded)
    ensures TimelyRun(l, es) && PathAfter(l, es).sender.log == PathAfter(l, es).played == frames
  {
    PlayedInOrder(l, es);
    hide PathAfter, TimelyRun, Counting;
  }

  // ---------------------------------------------------------------------
  // Counters that start over.
  // ---------------------------------------------------------------------

  /** A repeated KEY_EXCHANGE or PEER_LIST: the counter of the context starts over. */
  function Restart(pair: bool): AudioEvent { if pair then SenderGetsKey else RenewShared }

  /** The sender goes on under the context after a restart. */
  predicate StaysWith(s: Sender, pair: bool) { if pair then s.kxSent else !UsesPair(s) }

  /** A restart and then some frames. */
  function Restarted(es: seq<AudioEvent>, pair: bool, frames: seq<Opus>): seq<AudioEvent> {
    if frames == [] then es + [Restart(pair)]
    else Restarted(es, pair, frames[..|frames| - 1]) + [Speak(frames[|frames| - 1])]
  }

  /** Since es, m frames have been sent under the context, and nothing was heard. */
  ghost predicate Counted(l: Link, es: seq<AudioEvent>, es': seq<AudioEvent>, pair: bool, m: nat) {
    && TimelyRun(l, es') && Taken(l, es', pair) == Taken(l, es, pair)
    && var (x, x') := (PathAfter(l, es), PathAfter(l, es'));
       && x'.receiver == x.receiver && UsesPair(x'.sender) == pair
       && (if pair then x'.sender.pairCounter == Some(m) else x'.sender.sharedCounter == m)
  }

  lemma RestartBegins(l: Link, es: seq<AudioEvent>, pair: bool)
    requires TimelyRun(l, es) && StaysWith(PathAfter(l, es).sender, pair)
    ensures Counted(l, es, es + [Restart(pair)], pair, 0)
  {
    var x, e := PathAfter(l, es), Restart(pair);
    NotAccepted(l, x, e, pair);
    hide PathAfter, TimelyRun, Taken, Accepts;
    TimelySnoc(l, es, e);
  }

  lemma SpeakCounts(l: Link, es: seq<AudioEvent>, es1: seq<AudioEvent>, pair: bool, m: nat, opus: Opus)
    requires Counted(l, es, es1, pair, m) && m < 0xFFFF_FFFF
    ensures Counted(l, es, es1 + [Speak(opus)], pair, m + 1)
  {
    var x, e := PathAfter(l, es1), Speak(opus);
    NotAccepted(l, x, e, pair);
    SendUses(l, x.sender, m, pair, opus);
    hide PathAfter, TimelyRun, Taken, Accepts, SendAudio, UsesPair;
    TimelySnoc(l, es1, e);
  }

  lemma {:induction false} RestartCounts(l: Link, es: seq<AudioEvent>, pair: bool, frames: seq<Opus>)
    requires TimelyRun(l, es) && StaysWith(PathAfter(l, es).sender, pair) && |frames| <= 0xFFFF_FFFF
    ensures Counted(l, es, Restarted(es, pair, frames), pair, |frames|)
    decreases |frames|
  {
    hide Counted, TimelyRun, PathAfter, StaysWith, Restart;
    if frames == [] {
      RestartBegins(l, es, pair);
    } else {
      var init := frames[..|frames| - 1];
      RestartCounts(l, es, pair, init);
      SpeakCounts(l, es, Restarted(es, pair, init), pair, |init|, frames[|frames| - 1]);
    }
  }

  lemma NotAccepted(l: Link, x: Path, e: AudioEvent, pair: bool)
    ensures !e.Hear? ==> !Accepts(l, x, e, pair)
  {
  }

  /** The last of the frames after a restart. */
  function LastFlight(l: Link, s: Sender, pair: bool, frames: seq<Opus>): Flight
    requires 0 < |frames| <= 0xFFFF_FFFF
  {
    var ctx, opus := if pair then l.pair else l.shared, frames[|frames| - 1];
    Flight(|s.log|, MakeAudio(ctx, l.sender, s.sendSeq, |frames| - 1, opus))
  }

  /**
   * A restart silences the sender for as long as it had talked: with counter n accepted, the
   * frames with counters up to n - 64 after the restart open to their payload and never land.
   */
  lemma RestartIsRefused(l: Link, es: seq<AudioEvent>, pair: bool, frames: seq<Opus>, n: u32, decodes: bool)
    requires ValidLink(l) && TimelyRun(l, es) && n in Taken(l, es, pair) && 0 < |frames| && |frames| + 63 <= n
    requires StaysWith(PathAfter(l, es).sender, pair) && (pair ==> PathAfter(l, es).receiver.upgraded)
    ensures var before, es' := Restarted(es, pair, frames[..|frames| - 1]), Restarted(es, pair, frames);
            var (f, x) := (LastFlight(l, PathAfter(l, before).sender, pair, frames), PathAfter(l, es'));
            && TimelyRun(l, es') && f in x.air
            && OpenAudio(l, x.receiver.upgraded, f.packet) == Some((frames[|frames| - 1], pair))
            && !Lands(l, x.receiver, f.packet, decodes)
  {
    var init, opus := frames[..|frames| - 1], frames[|frames| - 1];
    var before, es' := Restarted(es, pair, init), Restarted(es, pair, frames);
    RestartCounts(l, es, pair, init);
    RestartCounts(l, es, pair, frames);
    var x1, x := PathAfter(l, before), PathAfter(l, es');
    var f := LastFlight(l, x1.sender, pair, frames);
    SendUses(l, x1.sender, |init|, pair, opus);
    TimelySnoc(l, before, Speak(opus));
    assert f in x.air && f.packet.header.counter == |init|;
    OpensAcrossUpgrade(l, x.receiver.upgraded, f.packet.header, opus);
    assert f.packet == AudioPacket(f.packet.header, Encrypt(if pair then l.pair else l.shared, f.packet.header, opus));
    assert (f.packet.body.key == l.pair.key) == pair;
    hide OpenAudio, Encrypt, PathAfter, TimelyRun, Taken, Lands, LastFlight, Restarted, SendAudio;
    LandsExactly(l, es', f, decodes);
  }
}
