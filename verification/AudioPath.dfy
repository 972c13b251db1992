/**
 * Audio from one node to one of its peers: numbering, sealing, the network, opening,
 * replay filtering, buffering and playout, across the switch from the passphrase key to
 * the per-peer key (lib.rs, peer.rs, crypto.rs, jitter.rs together).
 *
 * A frame's payload stands for the PCM the decoder makes of it; whether the decoder
 * accepts it is up to the environment.
 */
module AudioPath {
  import opened Words
  import opened Wire
  import opened Crypto
  import opened Jitter
  import opened Playout
  import Replay

  type Opus = seq<u8>

  datatype AudioPacket = AudioPacket(header: Header, body: Sealed<Opus>)

  /** The two contexts of a pair and the sender's id. */
  datatype Link = Link(shared: Context, pair: Context, sender: u8)

  predicate ValidLink(l: Link) { l.shared.key.Psk? && l.pair.key.Derived? }

  // ---------------------------------------------------------------------
  // Sending.
  // ---------------------------------------------------------------------

  /** `log` is what was handed to send so far: entry i is the frame of position i. */
  datatype Sender = Sender(sendSeq: u16, sharedCounter: u32, pairCounter: Option<u32>,
                           kxSent: bool, kxReceived: bool, log: seq<Opus>)

  const NEW_SENDER := Sender(0, 0, None, false, false, [])

  predicate UsesPair(s: Sender) { s.kxSent && s.kxReceived && s.pairCounter.Some? }

  function MakeAudio(ctx: Context, id: u8, seqNum: u16, counter: u32, opus: Opus): AudioPacket {
    var h := Header(PKT_AUDIO, id, seqNum, counter);
    AudioPacket(h, Encrypt(ctx, h, opus))
  }

  /** One frame to one peer: the number is taken even if no counter is left. */
  function SendAudio(l: Link, s: Sender, opus: Opus): (Sender, Option<AudioPacket>) {
    var seqNum := s.sendSeq;
    var s1 := s.(sendSeq := Inc16(seqNum), log := s.log + [opus]);
    if UsesPair(s) then
      var (counter, r) := Reserve(s.pairCounter.value);
      (s1.(pairCounter := Some(counter)),
       if r.Some? then Some(MakeAudio(l.pair, l.sender, seqNum, r.value, opus)) else None)
    else
      var (counter, r) := Reserve(s.sharedCounter);
      (s1.(sharedCounter := counter),
       if r.Some? then Some(MakeAudio(l.shared, l.sender, seqNum, r.value, opus)) else None)
  }

  // ---------------------------------------------------------------------
  // Receiving.
  // ---------------------------------------------------------------------

  datatype Receiver = Receiver(upgraded: bool, sharedFilter: Replay.Filter, pairFilter: Replay.Filter,
                               buffer: Buffer<Opus>)

  const NEW_RECEIVER := Receiver(false, Replay.FRESH, Replay.FRESH, Empty())

  /** The per-peer context first if there is one, then the shared one; and which it was. */
  function OpenAudio(l: Link, upgraded: bool, p: AudioPacket): Option<(Opus, bool)> {
    var first := if upgraded then Decrypt(l.pair, p.header, p.body) else None;
    if first.Some? then Some((first.value, true))
    else
      var second := Decrypt(l.shared, p.header, p.body);
      if second.Some? then Some((second.value, false)) else None
  }

  function Filtered(r: Receiver, pair: bool, counter: u32): (Receiver, bool) {
    var (f, ok) := Replay.Check(if pair then r.pairFilter else r.sharedFilter, counter);
    (if pair then r.(pairFilter := f) else r.(sharedFilter := f), ok)
  }

  /** The packet is audio, opens, is no replay and decodes: its frame reaches the buffer. */
  predicate Lands(l: Link, r: Receiver, p: AudioPacket, decodes: bool) {
    var o := OpenAudio(l, r.upgraded, p);
    p.header.pktType == 0x01 && o.Some? && Filtered(r, o.value.1, p.header.counter).1 && decodes
  }

  function ReceiveAudio(l: Link, r: Receiver, p: AudioPacket, decodes: bool): Receiver {
    match OpenAudio(l, r.upgraded, p)
    case None => r
    case Some((opus, pair)) =>
      var (r1, ok) := Filtered(r, pair, p.header.counter);
      if ok && decodes then r1.(buffer := Push(r1.buffer, p.header.seqNum, opus)) else r1
  }

  /** The dispatch on the packet type: whatever is not sent as audio never reaches the audio branch. */
  function Incoming(l: Link, r: Receiver, p: AudioPacket, decodes: bool): Receiver {
    if p.header.pktType == PKT_AUDIO then ReceiveAudio(l, r, p, decodes) else r
  }

  /**
   * Opening is transparent to the upgrade: shared-key audio opens in any state, per-peer
   * audio opens exactly at an upgraded receiver, each to the payload that was sealed.
   */
  lemma OpensAcrossUpgrade(l: Link, upgraded: bool, h: Header, opus: Opus)
    requires ValidLink(l)
    ensures OpenAudio(l, upgraded, AudioPacket(h, Encrypt(l.shared, h, opus))) == Some((opus, false))
    ensures OpenAudio(l, upgraded, AudioPacket(h, Encrypt(l.pair, h, opus)))
            == if upgraded then Some((opus, true)) else None
  {
    DecryptExactly(l.shared, h, opus, l.pair, h);
    DecryptExactly(l.shared, h, opus, l.shared, h);
    DecryptExactly(l.pair, h, opus, l.pair, h);
    DecryptExactly(l.pair, h, opus, l.shared, h);
    hide Decrypt, Encrypt;
  }

  // ---------------------------------------------------------------------
  // The whole path.
  // ---------------------------------------------------------------------

  /** A packet in the network, and the position the sender gave its frame. */
  datatype Flight = Flight(position: nat, packet: AudioPacket)

  /**
   * The concrete state (sender, network, receiver, frames played), and beside it the
   * unwrapped playout and the positions it has emitted, which no node can see.
   */
  datatype Path = Path(sender: Sender, air: set<Flight>, receiver: Receiver, played: seq<Opus>,
                       playout: Playout<Opus>, positions: seq<int>)

  datatype AudioEvent =
    | Speak(opus: Opus)
    | UseSharedCounter // a keepalive, ping or pong, or audio to somebody else
    | RenewShared // a repeated PEER_LIST: the shared context starts over
    | SenderOffers
    | SenderGetsKey // any KEY_EXCHANGE: the per-peer context starts over
    | ReceiverGetsKey
    | Hear(flight: Flight, decodes: bool)
    | PlayFrame
    | Adjust(dt: real)

  ghost function Begin(): Path { Path(NEW_SENDER, {}, NEW_RECEIVER, [], Idle(), []) }

  /** Packets are never taken from the network, so loss, repetition and reordering are free. */
  ghost predicate Possible(x: Path, e: AudioEvent) { e.Hear? ==> e.flight in x.air }

  ghost function Advance(l: Link, x: Path, e: AudioEvent): Path {
    match e
    case Speak(opus) =>
      var (s, p) := SendAudio(l, x.sender, opus);
      x.(sender := s, air := if p.Some? then x.air + {Flight(|x.sender.log|, p.value)} else x.air)
    case UseSharedCounter => x.(sender := x.sender.(sharedCounter := Reserve(x.sender.sharedCounter).0))
    case RenewShared => x.(sender := x.sender.(sharedCounter := 0))
    case SenderOffers => x.(sender := x.sender.(kxSent := true))
    case SenderGetsKey => x.(sender := x.sender.(kxReceived := true, pairCounter := Some(0)))
    case ReceiverGetsKey => x.(receiver := x.receiver.(upgraded := true))
    case Hear(f, decodes) =>
      var r := Incoming(l, x.receiver, f.packet, decodes);
      if Lands(l, x.receiver, f.packet, decodes) then
        var opus := OpenAudio(l, x.receiver.upgraded, f.packet).value.0;
        x.(receiver := r, playout := Arrive(x.playout, f.position, opus))
      else x.(receiver := r)
    case PlayFrame =>
      var (b, out) := Pop(x.receiver.buffer);
      var (p, at) := Play(x.playout);
      x.(receiver := x.receiver.(buffer := b), playout := p,
         played := if out.Some? then x.played + [out.value] else x.played,
         positions := if at.Some? then x.positions + [at.value.0] else x.positions)
    case Adjust(dt) =>
      x.(receiver := x.receiver.(buffer := Adapt(x.receiver.buffer, dt)),
         playout := x.playout.(tuning := Retune(x.playout.tuning, dt)))
  }

  /** A packet that lands does so within the 16-bit window around the playout cursor. */
  ghost predicate Timely(l: Link, x: Path, e: AudioEvent) {
    e.Hear? && Lands(l, x.receiver, e.flight.packet, e.decodes) ==> InWindow(x.playout, e.flight.position)
  }

  ghost predicate TimelyRun(l: Link, es: seq<AudioEvent>)
    decreases |es|, 0
  {
    es == []
    || (var init, last := es[..|es| - 1], es[|es| - 1];
        TimelyRun(l, init) && Possible(PathAfter(l, init), last) && Timely(l, PathAfter(l, init), last))
  }

  ghost function PathAfter(l: Link, es: seq<AudioEvent>): Path
    decreases |es|, 1
  {
    if es == [] then Begin() else Advance(l, PathAfter(l, es[..|es| - 1]), es[|es| - 1])
  }

  // ---------------------------------------------------------------------
  // The invariant.
  // ---------------------------------------------------------------------

  ghost predicate FlightOk(l: Link, log: seq<Opus>, f: Flight) {
    && f.position < |log|
    && f.packet.header == Header(0x01, l.sender, f.position % 0x1_0000, f.packet.header.counter)
    && (f.packet.body == Encrypt(l.shared, f.packet.header, log[f.position])
        || f.packet.body == Encrypt(l.pair, f.packet.header, log[f.position]))
  }

  /** Buffered positions are positions of the log, with the log's frames. */
  ghost predicate FromLog(log: seq<Opus>, p: Playout<Opus>) {
    forall i | i in p.frames :: 0 <= i < |log| && p.frames[i] == log[i]
  }

  ghost predicate Passed(cursor: Option<int>, i: int) { cursor.Some? && i < cursor.value }

  /** What has been played: increasing positions behind the cursor, with the log's frames. */
  ghost predicate PlayedOk(log: seq<Opus>, played: seq<Opus>, positions: seq<int>, cursor: Option<int>) {
    && |played| == |positions|
    && Sorted(positions)
    && (forall k | 0 <= k < |positions| ::
          && 0 <= positions[k] < |log| && played[k] == log[positions[k]]
          && Passed(cursor, positions[k]))
  }

  ghost predicate InStep(b: Buffer<Opus>, p: Playout<Opus>) { exists idx :: Simulates(b, p, idx) }

  ghost predicate PathInv(l: Link, x: Path) {
    && x.sender.sendSeq == Wrap16(|x.sender.log|)
    && (forall f | f in x.air :: FlightOk(l, x.sender.log, f))
    && FromLog(x.sender.log, x.playout)
    && PlayedOk(x.sender.log, x.played, x.positions, x.playout.cursor)
    && InStep(x.receiver.buffer, x.playout)
  }

  lemma BeginInv(l: Link)
    ensures PathInv(l, Begin())
  {
    assert Simulates(Empty<Opus>(), Idle<Opus>(), []);
  }

  lemma LogGrows(log: seq<Opus>, log': seq<Opus>, played: seq<Opus>, positions: seq<int>, cursor: Option<int>)
    requires PlayedOk(log, played, positions, cursor)
    requires |log| <= |log'| && forall i | 0 <= i < |log| :: log'[i] == log[i]
    ensures PlayedOk(log', played, positions, cursor)
  {
    hide Sorted;
  }

  lemma SpeakKeepsInv(l: Link, x: Path, opus: Opus)
    requires PathInv(l, x)
    ensures PathInv(l, Advance(l, x, Speak(opus)))
  {
    var x' := Advance(l, x, Speak(opus));
    var log, log' := x.sender.log, x'.sender.log;
    NextWraps(|log|);
    hide Inc16, Reserve, Encrypt, InStep;
    assert log' == log + [opus] && x'.sender.sendSeq == Wrap16(|log'|);
    assert forall i | 0 <= i < |log| :: log'[i] == log[i];
    forall f | f in x'.air ensures FlightOk(l, log', f) {
      if f in x.air {
        assert FlightOk(l, log, f);
      } else {
        assert f.position == |log| && log'[|log|] == opus;
      }
    }
    assert FromLog(log', x.playout);
    LogGrows(log, log', x.played, x.positions, x.playout.cursor);
    hide FlightOk, FromLog, PlayedOk;
  }

  /** What lands is the frame of the packet's position. */
  lemma LandsWithItsFrame(l: Link, x: Path, f: Flight, decodes: bool)
    requires ValidLink(l) && PathInv(l, x) && f in x.air && Lands(l, x.receiver, f.packet, decodes)
    ensures OpenAudio(l, x.receiver.upgraded, f.packet).value.0 == x.sender.log[f.position]
    ensures Incoming(l, x.receiver, f.packet, decodes).buffer
            == Push(x.receiver.buffer, Wrap16(f.position), x.sender.log[f.position])
  {
    var log, h := x.sender.log, f.packet.header;
    assert FlightOk(l, log, f);
    hide PathInv, Wrap16, Push, Replay.Check;
    assert f.packet == AudioPacket(h, f.packet.body);
    OpensAcrossUpgrade(l, x.receiver.upgraded, h, log[f.position]);
    hide OpenAudio, Encrypt;
  }

  lemma PushInStep(b: Buffer<Opus>, p: Playout<Opus>, i: int, opus: Opus)
    requires InStep(b, p) && InWindow(p, i)
    ensures InStep(Push(b, Wrap16(i), opus), Arrive(p, i, opus))
  {
    var idx :| Simulates(b, p, idx);
    var idx' := PushSimulates(b, p, idx, i, opus);
  }

  lemma HearKeepsInv(l: Link, x: Path, f: Flight, decodes: bool)
    requires ValidLink(l) && PathInv(l, x) && f in x.air && Timely(l, x, Hear(f, decodes))
    ensures PathInv(l, Advance(l, x, Hear(f, decodes)))
  {
    hide OpenAudio, Replay.Check, Wrap16, Push, InStep, InWindow, PlayedOk, Encrypt;
    var x' := Advance(l, x, Hear(f, decodes));
    if Lands(l, x.receiver, f.packet, decodes) {
      LandsWithItsFrame(l, x, f, decodes);
      assert FlightOk(l, x.sender.log, f);
      hide Lands, Incoming;
      PushInStep(x.receiver.buffer, x.playout, f.position, x.sender.log[f.position]);
    } else {
      assert x'.receiver.buffer == x.receiver.buffer;
    }
  }

  lemma PlayedOneMore(log: seq<Opus>, played: seq<Opus>, positions: seq<int>, cursor: Option<int>, at: int)
    requires PlayedOk(log, played, positions, cursor) && 0 <= at < |log|
    requires cursor.Some? ==> cursor.value <= at
    ensures PlayedOk(log, played + [log[at]], positions + [at], Some(at + 1))
  {
  }

  lemma PlayedNoMore(log: seq<Opus>, played: seq<Opus>, positions: seq<int>, cursor: Option<int>, cursor': Option<int>)
    requires PlayedOk(log, played, positions, cursor)
    requires cursor.Some? ==> cursor'.Some? && cursor.value <= cursor'.value
    ensures PlayedOk(log, played, positions, cursor')
  {
  }

  lemma PopInStep(b: Buffer<Opus>, p: Playout<Opus>)
    requires InStep(b, p)
    ensures var ((b', out), (p', at)) := (Pop(b), Play(p));
            InStep(b', p') && out == Pcm(at) && Bounded(p)
  {
    var idx :| Simulates(b, p, idx);
    var idx' := PopSimulates(b, p, idx);
    assert Bounded(p);
    hide Simulates, Pop, Play, Bounded;
  }

  lemma PlayKeepsInv(l: Link, x: Path)
    requires PathInv(l, x)
    ensures PathInv(l, Advance(l, x, PlayFrame))
  {
    hide Pop, Play, InStep, Wrap16, FlightOk, PlayedOk;
    PopInStep(x.receiver.buffer, x.playout);
    PlayMoves(x.playout);
    var x', at, log := Advance(l, x, PlayFrame), Play(x.playout).1, x.sender.log;
    if at.Some? {
      PlayedOneMore(log, x.played, x.positions, x.playout.cursor, at.value.0);
    } else {
      PlayedNoMore(log, x.played, x.positions, x.playout.cursor, x'.playout.cursor);
    }
  }

  lemma AdvanceKeepsInv(l: Link, x: Path, e: AudioEvent)
    requires ValidLink(l) && PathInv(l, x) && Possible(x, e) && Timely(l, x, e)
    ensures PathInv(l, Advance(l, x, e))
  {
    match e
    case Speak(opus) => SpeakKeepsInv(l, x, opus);
    case Hear(f, decodes) => HearKeepsInv(l, x, f, decodes);
    case PlayFrame => PlayKeepsInv(l, x);
    case Adjust(dt) =>
      var idx :| Simulates(x.receiver.buffer, x.playout, idx);
      var x' := Advance(l, x, e);
      assert Simulates(x'.receiver.buffer, x'.playout, idx);
    case _ =>
  }

  lemma {:induction false} RunKeepsPathInv(l: Link, es: seq<AudioEvent>)
    requires ValidLink(l) && TimelyRun(l, es)
    ensures PathInv(l, PathAfter(l, es))
    decreases |es|
  {
    if es == [] {
      BeginInv(l);
    } else {
      var init := es[..|es| - 1];
      RunKeepsPathInv(l, init);
      AdvanceKeepsInv(l, PathAfter(l, init), es[|es| - 1]);
      hide PathInv, Advance, Timely;
    }
  }

  /** What was played are frames of the log at strictly increasing positions. */
  ghost predicate InOrder(x: Path) {
    && |x.played| == |x.positions|
    && (forall k | 0 <= k < |x.played| ::
          0 <= x.positions[k] < |x.sender.log| && x.played[k] == x.sender.log[x.positions[k]])
    && (forall m, n | 0 <= m < n < |x.positions| :: x.positions[m] < x.positions[n])
  }

  /**
   * End to end: over every run whose landings are timely, the frames played are the
   * sender's frames at strictly increasing positions: in order, none twice, none altered.
   */
  lemma PlayedInOrder(l: Link, es: seq<AudioEvent>)
    requires ValidLink(l) && TimelyRun(l, es)
    ensures InOrder(PathAfter(l, es))
  {
    RunKeepsPathInv(l, es);
    hide InStep, FlightOk, PathAfter, TimelyRun;
  }

  // ---------------------------------------------------------------------
  // Replays.
  // ---------------------------------------------------------------------

  /** The event makes the filter of the given context accept the packet's counter. */
  ghost predicate Accepts(l: Link, x: Path, e: AudioEvent, pair: bool) {
    && e.Hear? && e.flight.packet.header.pktType == 0x01
    && var o := OpenAudio(l, x.receiver.upgraded, e.flight.packet);
       && o.Some? && o.value.1 == pair
       && Filtered(x.receiver, pair, e.flight.packet.header.counter).1
  }

  /** Counters of one context that a run has accepted. */
  ghost function Taken(l: Link, es: seq<AudioEvent>, pair: bool): set<u32> {
    if es == [] then {}
    else
      var init, last := es[..|es| - 1], es[|es| - 1];
      Taken(l, init, pair)
      + if Accepts(l, PathAfter(l, init), last, pair) then {last.flight.packet.header.counter} else {}
  }

  ghost function FilterOf(x: Path, pair: bool): Replay.Filter {
    if pair then x.receiver.pairFilter else x.receiver.sharedFilter
  }

  lemma AdvanceFilters(l: Link, x: Path, e: AudioEvent, pair: bool)
    ensures FilterOf(Advance(l, x, e), pair)
            == if Accepts(l, x, e, pair)
               then Replay.Check(FilterOf(x, pair), e.flight.packet.header.counter).0
               else FilterOf(x, pair)
  {
    hide OpenAudio, Push, Pop, Play, Arrive, SendAudio;
    if e.Hear? {
      assert FilterOf(Advance(l, x, e), pair) == FilterOf(x.(receiver := Incoming(l, x.receiver, e.flight.packet, e.decodes)), pair);
    }
  }

  lemma {:induction false} FiltersTrack(l: Link, es: seq<AudioEvent>, pair: bool)
    ensures Replay.Tracks(FilterOf(PathAfter(l, es), pair), Taken(l, es, pair))
  {
    if es == [] {
      Replay.FreshTracks();
    } else {
      var init, last := es[..|es| - 1], es[|es| - 1];
      FiltersTrack(l, init, pair);
      AdvanceFilters(l, PathAfter(l, init), last, pair);
      if last.Hear? {
        Replay.CheckRefines(FilterOf(PathAfter(l, init), pair), Taken(l, init, pair), last.flight.packet.header.counter);
      }
      hide Advance, Replay.Tracks, Replay.Check, OpenAudio;
      assert Taken(l, init, pair) + {} == Taken(l, init, pair);
    }
  }

  lemma {:induction false} TakenGrows(l: Link, es: seq<AudioEvent>, n: nat, pair: bool)
    requires n <= |es|
    ensures Taken(l, es[..n], pair) <= Taken(l, es, pair)
  {
    if n == |es| {
      assert es[..n] == es;
    } else {
      assert es[..|es| - 1][..n] == es[..n];
      TakenGrows(l, es[..|es| - 1], n, pair);
    }
  }

  /** No counter of a context is accepted twice, whatever the network repeats. */
  lemma NoReplayAccepted(l: Link, es: seq<AudioEvent>, j: nat, k: nat, pair: bool)
    requires j < k < |es|
    requires Accepts(l, PathAfter(l, es[..j]), es[j], pair) && Accepts(l, PathAfter(l, es[..k]), es[k], pair)
    ensures es[j].flight.packet.header.counter != es[k].flight.packet.header.counter
  {
    var upto, c := es[..j + 1], es[k].flight.packet.header.counter;
    assert upto[..j] == es[..j];
    assert es[j].flight.packet.header.counter in Taken(l, upto, pair);
    assert es[..k][..j + 1] == upto;
    TakenGrows(l, es[..k], j + 1, pair);
    FiltersTrack(l, es[..k], pair);
    Replay.CheckRefines(FilterOf(PathAfter(l, es[..k]), pair), Taken(l, es[..k], pair), c);
    hide Replay.Tracks, Replay.Check, PathAfter, Taken, OpenAudio;
  }
}

/** The audio branches of lib.rs on the objects they use. */
module AudioPeers {
  import opened Words
  import opened Wire
  import opened Crypto
  import opened Jitter
  import opened JitterBuffers
  import opened AudioPath
  import Replay

  /** The audio fields of a remote peer; `PeerTable.Peer` has the fields the handshake uses. */
  class AudioPeer {
    var sendSeq: u16
    var kxSent: bool
    var kxReceived: bool
    var peerCrypto: CryptoContext?
    var replayFilter: Replay.ReplayFilter
    var peerReplayFilter: Replay.ReplayFilter
    var jitterBuffer: JitterBuffer<Opus>
    ghost var log: seq<Opus>

    constructor ()
      ensures sendSeq == 0 && !kxSent && !kxReceived && peerCrypto == null && log == []
      ensures fresh(replayFilter) && fresh(peerReplayFilter) && fresh(jitterBuffer)
      ensures replayFilter != peerReplayFilter && replayFilter.Valid() && peerReplayFilter.Valid()
      ensures ReceiverView() == NEW_RECEIVER
    {
      sendSeq, kxSent, kxReceived, peerCrypto, log := 0, false, false, null, [];
      replayFilter := new Replay.ReplayFilter();
      peerReplayFilter := new Replay.ReplayFilter();
      jitterBuffer := new JitterBuffer<Opus>();
    }

    ghost function SenderView(shared: CryptoContext): Sender
      reads this, shared, peerCrypto
    {
      Sender(sendSeq, shared.sendCounter,
             if peerCrypto == null then None else Some(peerCrypto.sendCounter),
             kxSent, kxReceived, log)
    }

    ghost function ReceiverView(): Receiver
      reads this, replayFilter, peerReplayFilter, jitterBuffer
    {
      Receiver(kxReceived && peerCrypto != null, replayFilter.State(), peerReplayFilter.State(),
               jitterBuffer.State())
    }

    method NextSeq() returns (s: u16)
      modifies this`sendSeq
      ensures s == old(sendSeq) && sendSeq == Inc16(old(sendSeq))
    {
      s := sendSeq;
      sendSeq := Inc16(sendSeq);
    }

    /** The link from here to this peer, or back: these context objects and a sender's id. */
    ghost predicate Uses(l: Link, shared: CryptoContext)
      reads this
    {
      l.shared == shared.Ctx() && (peerCrypto != null ==> l.pair == peerCrypto.Ctx())
    }

    /** Seal one frame for this peer, under its own key once both offers have crossed. */
    method SendFrame(ghost l: Link, shared: CryptoContext, localId: u8, opus: Opus) returns (p: Option<AudioPacket>)
      requires Uses(l, shared) && l.sender == localId
      requires shared.Valid() && (peerCrypto != null ==> peerCrypto.Valid() && peerCrypto != shared)
      modifies this`sendSeq, this`log, shared, peerCrypto
      ensures shared.Valid() && (peerCrypto != null ==> peerCrypto.Valid())
      ensures (SenderView(shared), p) == SendAudio(l, old(SenderView(shared)), opus)
      // the number is taken in any case; the counter is the next one of the context in use
      ensures sendSeq as int == (old(sendSeq) as int + 1) % 0x1_0000 && log == old(log) + [opus]
      ensures var pair := kxSent && kxReceived && peerCrypto != null;
              var (ctx, other) := if pair then (peerCrypto, shared) else (shared, peerCrypto);
              var (used, h) := (old(ctx.sendCounter), Header(0x01, localId, old(sendSeq), old(ctx.sendCounter)));
              && (other != null ==> unchanged(other))
              && if used == 0xFFFF_FFFF then p == None && ctx.sendCounter == used
                 else p == Some(AudioPacket(h, Encrypt(ctx.Ctx(), h, opus))) && ctx.sendCounter as int == used as int + 1
    {
      log := log + [opus];
      var seqNum := NextSeq();
      var ctx := if kxSent && kxReceived && peerCrypto != null then peerCrypto else shared;
      var counter := ctx.NextCounter();
      if counter.None? {
        return None;
      }
      p := Some(MakeAudio(ctx.Ctx(), localId, seqNum, counter.value, opus));
    }

    /** One packet from this peer, dispatched on its type. */
    method ReceivePacket(ghost l: Link, shared: CryptoContext, p: AudioPacket, decodes: bool)
      requires Uses(l, shared)
      requires replayFilter.Valid() && peerReplayFilter.Valid() && replayFilter != peerReplayFilter
      modifies replayFilter, peerReplayFilter, jitterBuffer
      ensures replayFilter.Valid() && peerReplayFilter.Valid()
      ensures ReceiverView() == Incoming(l, old(ReceiverView()), p, decodes)
      ensures p.header.pktType != 0x01 ==> ReceiverView() == old(ReceiverView())
      ensures p.header.pktType == 0x01 ==> ReceiverView() == ReceiveAudio(l, old(ReceiverView()), p, decodes)
    {
      if p.header.pktType == PKT_AUDIO {
        ReceiveFrame(l, shared, p, decodes);
      }
    }

    /** One audio packet from this peer; `decodes` is the decoder's verdict on the payload. */
    method ReceiveFrame(ghost l: Link, shared: CryptoContext, p: AudioPacket, decodes: bool)
      requires Uses(l, shared)
      requires replayFilter.Valid() && peerReplayFilter.Valid() && replayFilter != peerReplayFilter
      modifies replayFilter, peerReplayFilter, jitterBuffer
      ensures replayFilter.Valid() && peerReplayFilter.Valid()
      ensures ReceiverView() == ReceiveAudio(l, old(ReceiverView()), p, decodes)
    {
      var plain: Option<Opus>, pair := None, false;
      if kxReceived && peerCrypto != null {
        plain := Decrypt(peerCrypto.Ctx(), p.header, p.body);
        pair := plain.Some?;
      }
      if plain.None? {
        plain := Decrypt(shared.Ctx(), p.header, p.body);
      }
      if plain.None? {
        return;
      }
      var ok: bool;
      if pair {
        ok := peerReplayFilter.CheckAndAccept(p.header.counter);
      } else {
        ok := replayFilter.CheckAndAccept(p.header.counter);
      }
      if ok && decodes {
        jitterBuffer.Push(p.header.seqNum, plain.value);
      }
    }
  }
}
