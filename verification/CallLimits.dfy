/**
 * Two calls in which voice does not come through as it should, for every configuration: an
 * offer delivered twice silences a sender, and a JOIN answered twice mixes up the frames.
 */
module CallLimits {
  import opened Words
  import opened Wire
  import opened Crypto
  import opened PeerListCodec
  import opened PeerTable
  import opened Handshake
  import opened Mesh
  import opened MeshAgreement
  import opened MeshReached
  import opened MeshConnected
  import opened AudioPath
  import opened AudioRuns
  import opened Conference
  import opened VoiceOverMesh
  import opened HandshakeRuns
  import opened CallRuns
  import Jitter
  import Playout
  import Replay

  // ---------------------------------------------------------------------
  // An offer delivered twice.
  // ---------------------------------------------------------------------

  /** These frames have been sent under the per-peer key and nothing has been heard. */
  ghost predicate Spoken(p: Path, frames: seq<Opus>) {
    && p.sender.log == frames && p.sender.sendSeq == Wrap16(|frames|) && UsesPair(p.sender)
    && p.sender.pairCounter == Some(|frames|)
    && p.receiver == NEW_RECEIVER.(upgraded := true) && p.playout == Playout.Idle()
  }

  /** The packet of frame k with the given counter. */
  function PairFlight(l: Link, k: nat, counter: u32, opus: Opus): Flight {
    Flight(k, MakeAudio(l.pair, l.sender, Wrap16(k), counter, opus))
  }

  lemma SpeakOn(l: Link, p: Path, frames: seq<Opus>, opus: Opus)
    requires Spoken(p, frames) && |frames| < 0xFFFF_FFFF
    ensures var p' := Advance(l, p, Speak(opus));
            Spoken(p', frames + [opus]) && PairFlight(l, |frames|, |frames|, opus) in p'.air
  {
    SendUses(l, p.sender, |frames|, true, opus);
    Playout.NextWraps(|frames|);
    assert SendAudio(l, p.sender, opus).0.sendSeq == Inc16(p.sender.sendSeq);
    hide SendAudio, MakeAudio, Wrap16, Inc16;
  }

  lemma {:induction false} TalkMany(c: Config, acts: seq<Act>, a: SocketAddr, frames: seq<Opus>) returns (acts': seq<Act>)
    requires ValidConfig(c) && CallRun(c, acts) && Prepared(c, WorldAfter(c, acts), a) && 0 < |frames| <= 0xFFFF_FFFF
    requires Spoken(LaneAfter(c, acts, Up(c, a)), [])
    ensures CallRun(c, acts') && WorldAfter(c, acts') == WorldAfter(c, acts)
    ensures Spoken(LaneAfter(c, acts', Up(c, a)), frames)
    ensures var (side, k) := (SideLink(c, WorldAfter(c, acts).tables[a], 0), |frames| - 1);
            PairFlight(side, k, k, frames[k]) in LaneAfter(c, acts', Up(c, a)).air
    decreases |frames|
  {
    var n, init, opus := Up(c, a), frames[..|frames| - 1], frames[|frames| - 1];
    assert init + [opus] == frames;
    hide CallRun, WorldAfter, LaneAfter, Advance, Spoken, SideLink, PairFlight, Upgraded, Matched;
    acts' := acts;
    if init == [] {
      assert LaneAfter(c, acts, n) == LaneAfter(c, acts', n);
    } else {
      acts' := TalkMany(c, acts, a, init);
    }
    SpeakOn(SideLink(c, WorldAfter(c, acts).tables[a], 0), LaneAfter(c, acts', n), init, opus);
    acts' := SayOn(c, acts', n, opus);
  }

  lemma ReadyToSpeak(p: Path)
    requires Untouched(p) && UsesPair(p.sender) && p.receiver.upgraded
    ensures Spoken(p, [])
  {
  }

  /** The filter has accepted the counter 64, and will not accept 0 any more. */
  lemma SixtyFourThenZero(r: Receiver)
    requires r.pairFilter == Replay.FRESH
    ensures var (r', ok) := Filtered(r, true, 64);
            ok && !Filtered(r', true, 0).1
  {
  }

  lemma LastIsHeard(l: Link, side: Link, p: Path, frames: seq<Opus>)
    requires ValidLink(side) && side.pair == l.pair && Spoken(p, frames) && |frames| == 65
    ensures var e := Hear(PairFlight(l, 64, 64, frames[64]), true);
            var p' := Advance(side, p, e);
            && Timely(side, p, e) && p'.sender == p.sender && p'.receiver.upgraded
            && !Filtered(p'.receiver, true, 0).1
  {
    var f := PairFlight(l, 64, 64, frames[64]);
    OpensAcrossUpgrade(side, true, f.packet.header, frames[64]);
    assert f.packet == AudioPacket(f.packet.header, Encrypt(side.pair, f.packet.header, frames[64]));
    assert f.packet.header.counter == 64;
    SixtyFourThenZero(p.receiver);
    hide OpenAudio, Encrypt, PairFlight, Jitter.Push, Playout.Arrive, Replay.Check, Wrap16;
  }

  /** Taking the offer once more leaves everything prepared. */
  lemma StillPrepared(c: Config, w: World, w': World, a: SocketAddr)
    requires a != c.host && Prepared(c, w, a) && a in w'.tables && w'.tables == w.tables[a := w'.tables[a]]
    requires TookKey(c, a, w.tables[a], w'.tables[a], 0)
    ensures Prepared(c, w', a)
  {
    hide PairContext, Matched, RollOf;
  }

  lemma OfferIsTaken(c: Config, w: World, a: SocketAddr)
    requires ValidConfig(c) && a != c.host && Inv(c, w) && Prepared(c, w, a)
    requires w.tables.Keys == c.secrets.Keys && OfferFrom(c, c.host, a, 0) in w.net
    ensures var s := Deliver(OfferFrom(c, c.host, a, 0), c.host, []);
            && Enabled(c, w, s) && TakesKey(c, s, w.tables[a]) && Prepared(c, Next(c, w, s), a)
  {
    var m := OfferFrom(c, c.host, a, 0);
    var s := Deliver(m, c.host, []);
    OfferShape(c, c.host, a, 0);
    NodeFacts(c, w, a);
    MsgFacts(c, w, m);
    KeyTakenIs(c, TheRoll(c, w), a, w.tables[a], m);
    KeyExchangeDoes(c, TheRoll(c, w), a, w.tables[a], m);
    assert 0 in w.tables[a].peers && w.tables[a].session == c.session;
    hide Inv, NodeOk, MsgOk, HandleKeyExchange, KeyTaken, OfferFrom, PairContext, RollOf, RollOk, RollIsHosts, Prepared, TookKey;
    StillPrepared(c, w, Next(c, w, s), a);
  }

  lemma OfferOnLane(c: Config, w: World, s: Step, n: Lane, p: Path)
    requires w.tables.Keys == c.secrets.Keys && Can(c, w, Control(s)) && Actor(s) == n.src && n.dst != n.src
    requires TakesKey(c, s, w.tables[n.src]) && s.msg.packet.header.peerId == n.to
    ensures OnLane(c, w, Control(s), n, p) == Advance(NO_LINK, Advance(NO_LINK, p, SenderGetsKey), SenderOffers)
  {
    AdvanceJoined(NO_LINK, p, [SenderGetsKey], [SenderOffers]);
    AdvanceOne(NO_LINK, p, SenderGetsKey);
    AdvanceOne(NO_LINK, Advance(NO_LINK, p, SenderGetsKey), SenderOffers);
    hide Advance, AdvanceAll, KeyTaken, Enabled;
    assert ActEvents(c, w, Control(s), n) == [SenderGetsKey] + [SenderOffers];
  }

  /** The host's offer is delivered once more: nothing changes but the joiner's counter. */
  lemma OfferAgain(c: Config, acts: seq<Act>, a: SocketAddr) returns (acts': seq<Act>)
    requires ValidConfig(c) && a != c.host && CallRun(c, acts) && Prepared(c, WorldAfter(c, acts), a)
    requires OfferFrom(c, c.host, a, 0) in WorldAfter(c, acts).net
    ensures CallRun(c, acts') && Prepared(c, WorldAfter(c, acts'), a)
    ensures LaneAfter(c, acts', Up(c, a))
            == Advance(NO_LINK, Advance(NO_LINK, LaneAfter(c, acts, Up(c, a)), SenderGetsKey), SenderOffers)
  {
    var w, m, n := WorldAfter(c, acts), OfferFrom(c, c.host, a, 0), Up(c, a);
    var s := Deliver(m, c.host, []);
    assert Within(c, n);
    hide CallRun, WorldAfter, LaneAfter, OfferFrom, Prepared, OnLane, Enabled, Next, Inv, KeyInv, LaneOk, LaneEvents, TakesKey;
    LaneFacts(c, acts, n);
    OfferShape(c, c.host, a, 0);
    OfferIsTaken(c, w, a);
    acts' := Do(c, acts, Control(s));
    OfferOnLane(c, w, s, n, LaneAfter(c, acts, n));
  }

  /** The joiner has sent 65 frames under the per-peer key and the host has heard the last. */
  lemma TalkedForAWhile(c: Config, a: SocketAddr, frames: seq<Opus>) returns (acts: seq<Act>)
    requires ValidConfig(c) && a in c.secrets && a != c.host && |frames| == 65
    ensures CallRun(c, acts) && Prepared(c, WorldAfter(c, acts), a) && OfferFrom(c, c.host, a, 0) in WorldAfter(c, acts).net
    ensures var p := LaneAfter(c, acts, Up(c, a));
            && p.sender.log == frames && p.sender.sendSeq == Wrap16(65)
            && p.receiver.upgraded && !Filtered(p.receiver, true, 0).1
  {
    var n := Up(c, a);
    acts := Ready(c, a);
    var w := WorldAfter(c, acts);
    var mine, theirs := SideLink(c, w.tables[a], 0), SideLink(c, w.tables[c.host], 1);
    PreparedLinks(c, w, a);
    ReadyToSpeak(LaneAfter(c, acts, n));
    hide CallRun, WorldAfter, LaneAfter, Untouched, Advance, Spoken, SideLink, PairFlight, Upgraded, Matched, UsesPair, OfferFrom,
      Timely, ValidLink, PairContext, Filtered;
    acts := TalkMany(c, acts, a, frames);
    LastIsHeard(mine, theirs, LaneAfter(c, acts, n), frames);
    FlightNames(mine, 64, 64, frames[64]);
    SpokenIs(LaneAfter(c, acts, n), frames);
    acts := HearFrom(c, acts, n, n, PairFlight(mine, 64, 64, frames[64]));
  }

  /**
   * With nobody admitted twice and one KEY_EXCHANGE delivered twice: the joiner has talked for
   * 65 frames under the per-peer key, the host's offer is delivered once more, and the joiner's
   * next frame opens at the host but is refused, whatever the decoder says.
   */
  lemma OfferTwiceSilences(c: Config, a: SocketAddr, frames: seq<Opus>, opus: Opus, decodes: bool)
    returns (acts: seq<Act>, f: Flight)
    requires ValidConfig(c) && a in c.secrets && a != c.host && |frames| == 65
    ensures CallRun(c, acts) && Matched(TheRoll(c, WorldAfter(c, acts)), Up(c, a))
    ensures var (t, p) := (WorldAfter(c, acts).tables[c.host], LaneAfter(c, acts, Up(c, a)));
            && p.sender.log == frames + [opus] && 1 in t.peers && f in p.air && f.position == 65
            && OpenAudio(SideLink(c, t, 1), p.receiver.upgraded, f.packet) == Some((opus, true))
            && !Lands(SideLink(c, t, 1), p.receiver, f.packet, decodes)
  {
    var n := Up(c, a);
    hide CallRun, WorldAfter, LaneAfter, Advance, SideLink, PairFlight, Upgraded, Matched, OfferFrom, ValidLink, PairContext, Lands,
      OpenAudio, Filtered;
    acts := TalkedForAWhile(c, a, frames);
    var p := LaneAfter(c, acts, n);
    acts := OfferAgain(c, acts, a);
    var w, q := WorldAfter(c, acts), LaneAfter(c, acts, n);
    PreparedLinks(c, w, a);
    var mine, theirs := SideLink(c, w.tables[a], 0), SideLink(c, w.tables[c.host], 1);
    f := PairFlight(mine, 65, 0, opus);
    NextIsRefused(mine, theirs, p, q, frames, opus, decodes);
    acts := SayOn(c, acts, n, opus);
  }

  lemma FlightNames(l: Link, k: nat, counter: u32, opus: Opus)
    ensures PairFlight(l, k, counter, opus).packet.header.peerId == l.sender && PairFlight(l, k, counter, opus).position == k
  {
  }

  lemma SpokenIs(p: Path, frames: seq<Opus>)
    requires Spoken(p, frames)
    ensures p.sender.log == frames && p.sender.sendSeq == Wrap16(|frames|) && p.sender.kxSent
  {
    hide Wrap16;
  }

  /** After the restart the next frame has counter 0. */
  lemma NextIsRefused(l: Link, side: Link, p: Path, q: Path, frames: seq<Opus>, opus: Opus, decodes: bool)
    requires ValidLink(side) && side.pair == l.pair && |frames| == 65
    requires q == Advance(NO_LINK, Advance(NO_LINK, p, SenderGetsKey), SenderOffers)
    requires p.sender.log == frames && p.sender.sendSeq == Wrap16(65)
    requires p.receiver.upgraded && !Filtered(p.receiver, true, 0).1
    ensures var (f, x) := (PairFlight(l, 65, 0, opus), Advance(l, q, Speak(opus)));
            && f in x.air && f.position == 65 && x.sender.log == frames + [opus]
            && OpenAudio(side, x.receiver.upgraded, f.packet) == Some((opus, true))
            && !Lands(side, x.receiver, f.packet, decodes)
  {
    var f := PairFlight(l, 65, 0, opus);
    assert q.sender == p.sender.(kxSent := true, kxReceived := true, pairCounter := Some(0)) && q.receiver == p.receiver;
    SendUses(l, q.sender, 0, true, opus);
    OpensAcrossUpgrade(side, true, f.packet.header, opus);
    assert f.packet == AudioPacket(f.packet.header, Encrypt(side.pair, f.packet.header, opus));
    assert f.packet.header.counter == 0;
    hide SendAudio, OpenAudio, Encrypt, Filtered, Wrap16, MakeAudio;
  }

  // ---------------------------------------------------------------------
  // A JOIN answered twice.
  // ---------------------------------------------------------------------

  /** The host's entries for the joiner, both heard at the joiner's one entry for the host. */
  function First(c: Config, a: SocketAddr): Lane { Lane(c.host, 1, a, 0) }

  function Second(c: Config, a: SocketAddr): Lane { Lane(c.host, 2, a, 0) }

  /** Passphrase audio: number and counter as they stand, and sealed under the shared context. */
  function SharedFlight(l: Link, k: nat, seqNum: u16, counter: u32, opus: Opus): Flight {
    Flight(k, MakeAudio(l.shared, l.sender, seqNum, counter, opus))
  }

  lemma SharedSpeak(l: Link, p: Path, opus: Opus)
    requires !UsesPair(p.sender) && p.sender.sharedCounter < 0xFFFF_FFFF
    ensures var (s, p') := (p.sender, Advance(l, p, Speak(opus)));
            && p' == p.(sender := p'.sender, air := p'.air) && p.air <= p'.air
            && SharedFlight(l, |s.log|, s.sendSeq, s.sharedCounter, opus) in p'.air
            && p'.sender.log == s.log + [opus] && p'.sender.sendSeq == Inc16(s.sendSeq)
            && p'.sender.sharedCounter == s.sharedCounter + 1
  {
    hide MakeAudio, Inc16;
  }

  /** Passphrase audio at a receiver that has no other key. */
  lemma SharedHear(side: Link, p: Path, f: Flight, opus: Opus)
    requires !p.receiver.upgraded && f.packet.body == Encrypt(side.shared, f.packet.header, opus)
    requires f.packet.header.pktType == 0x01 && f.packet.header.seqNum == Wrap16(f.position)
    requires Filtered(p.receiver, false, f.packet.header.counter).1
    ensures var (r, p') := (p.receiver, Advance(side, p, Hear(f, true)));
            && p' == p.(receiver := p'.receiver, playout := Playout.Arrive(p.playout, f.position, opus))
            && p'.receiver.buffer == Jitter.Push(r.buffer, Wrap16(f.position), opus) && !p'.receiver.upgraded
            && p'.receiver.sharedFilter == Replay.Check(r.sharedFilter, f.packet.header.counter).0
            && (Playout.InWindow(p.playout, f.position) ==> Timely(side, p, Hear(f, true)))
  {
    var h := f.packet.header;
    DecryptExactly(side.shared, h, opus, side.shared, h);
    assert OpenAudio(side, false, f.packet) == Some((opus, false));
    hide OpenAudio, Encrypt, Decrypt, Jitter.Push, Playout.Arrive, Playout.InWindow, Replay.Check, Wrap16;
  }

  /** A frame that is due and alone is heard and played. */
  lemma HeardAndPlayed(side: Link, p: Path, f: Flight, opus: Opus)
    requires !p.receiver.upgraded && f.packet.body == Encrypt(side.shared, f.packet.header, opus)
    requires f.packet.header.pktType == 0x01 && f.packet.header.seqNum == Wrap16(f.position)
    requires Filtered(p.receiver, false, f.packet.header.counter).1
    requires InStep(p.receiver.buffer, p.playout) && p.playout.frames == map[] && p.playout.tuning.depth == 1
    requires p.playout.cursor.Some? ==> p.playout.cursor.value == f.position
    ensures var q := Advance(NO_LINK, Advance(side, p, Hear(f, true)), PlayFrame);
            && Timely(side, p, Hear(f, true)) && q.played == p.played + [opus] && q.positions == p.positions + [f.position]
            && q.sender == p.sender && q.air == p.air && !q.receiver.upgraded
            && q.receiver.sharedFilter == Replay.Check(p.receiver.sharedFilter, f.packet.header.counter).0
            && InStep(q.receiver.buffer, q.playout) && q.playout.frames == map[] && q.playout.tuning.depth == 1
            && q.playout.cursor == Some(f.position + 1)
  {
    hide *;
    SharedHear(side, p, f, opus);
    StraightThrough(p.playout, f.position, opus);
    var p' := Advance(side, p, Hear(f, true));
    PushInStep(p.receiver.buffer, p.playout, f.position, opus);
    PlayNow(p', f.position, opus);
  }

  lemma PlayNow(p: Path, k: nat, opus: Opus)
    requires InStep(p.receiver.buffer, p.playout) && Playout.Play(p.playout).1 == Some((k, opus))
    ensures var q := Advance(NO_LINK, p, PlayFrame);
            && q.played == p.played + [opus] && q.positions == p.positions + [k]
            && q.sender == p.sender && q.air == p.air && q.receiver == p.receiver.(buffer := q.receiver.buffer)
            && InStep(q.receiver.buffer, q.playout) && q.playout == Playout.Play(p.playout).0
  {
    PopInStep(p.receiver.buffer, p.playout);
    hide InStep, Jitter.Pop, Playout.Play;
  }

  lemma TwoThenOne(r: Receiver)
    requires r.sharedFilter == Replay.FRESH
    ensures Filtered(r, false, 2).1
    ensures forall r': Receiver | r'.sharedFilter == Replay.Check(Replay.FRESH, 2).0 :: Filtered(r', false, 1).1
  {
    Replay.FreshTracks();
    Replay.CheckRefines(Replay.FRESH, {}, 2);
    Replay.CheckRefines(Replay.Check(Replay.FRESH, 2).0, {2}, 1);
    assert {} + {2} == {2};
    hide Replay.Check, Replay.Tracks;
  }

  /** The host and the joiner are connected under the passphrase. */
  ghost predicate Linked(c: Config, w: World, a: SocketAddr, id: u8) {
    && a in w.tables && c.host in w.tables
    && Files(w, a, 0, c.host) && w.tables[a].peers[0].state == Connected && w.tables[a].peers[0].context.None?
    && Files(w, c.host, id, a) && w.tables[c.host].peers[id].state == Connected && w.tables[c.host].peers[id].context.None?
    && w.tables[a].session == w.tables[c.host].session == c.session && w.tables[c.host].localId == 0
  }

  lemma UnderPassphrase(c: Config, a: SocketAddr) returns (acts: seq<Act>)
    requires ValidConfig(c) && a in c.secrets && a != c.host
    ensures CallRun(c, acts) && Linked(c, WorldAfter(c, acts), a, 1)
    ensures JoinOf(c, a) in WorldAfter(c, acts).net && Admitted(c, WorldAfter(c, acts).tables[c.host], [a])
    ensures forall n :: Untouched(LaneAfter(c, acts, n))
  {
    hide Run, Legal, CallRun, WorldAfter, LaneAfter, Untouched, Admitted, JoinOf, InSession;
    var steps := Introduce(c, a);
    steps := Connect(c, steps, a);
    acts := Lift(c, steps);
  }

  /** The JOIN arrives once more: the host has a second entry for the joiner, and no lane changes. */
  lemma JoinOnceMore(c: Config, acts: seq<Act>, a: SocketAddr, both: seq<SocketAddr>) returns (acts': seq<Act>)
    requires ValidConfig(c) && a in c.secrets && a != c.host && CallRun(c, acts) && Linked(c, WorldAfter(c, acts), a, 1)
    requires JoinOf(c, a) in WorldAfter(c, acts).net && Admitted(c, WorldAfter(c, acts).tables[c.host], [a]) && both == [a, a]
    ensures CallRun(c, acts') && Linked(c, WorldAfter(c, acts'), a, 1) && Linked(c, WorldAfter(c, acts'), a, 2)
    ensures forall n :: LaneAfter(c, acts', n) == LaneAfter(c, acts, n)
  {
    var w, s := WorldAfter(c, acts), Deliver(JoinOf(c, a), c.host, ListOf(c, both));
    assert both[..1] == [a];
    JoinShape(c, a);
    hide CallRun, WorldAfter, LaneAfter, Admitted, JoinOf, ListOf, Linked, Inv, KeyInv, LaneOk, LaneEvents, Next, Enabled, OnLane;
    LaneFacts(c, acts, Lane(c.host, 0, c.host, 0));
    JoinPosts(c, w, both);
    acts' := Do(c, acts, Control(s));
    JoinLinks(c, w, a, both);
    forall n ensures LaneAfter(c, acts', n) == LaneAfter(c, acts, n) {
      JoinOnLane(c, w, s, n, LaneAfter(c, acts, n));
    }
  }

  lemma JoinOnLane(c: Config, w: World, s: Step, n: Lane, p: Path)
    requires w.tables.Keys == c.secrets.Keys && Can(c, w, Control(s)) && IsJoin(s)
    ensures OnLane(c, w, Control(s), n, p) == p
  {
    assert ActEvents(c, w, Control(s), n) == [];
    NoEvents(p);
    hide AdvanceAll;
  }

  lemma LinkedTwice(c: Config, w: World, w': World, a: SocketAddr)
    requires a != c.host && Linked(c, w, a, 1) && c.host in w'.tables && w'.tables == w.tables[c.host := w'.tables[c.host]]
    requires w'.tables[c.host].localId == 0 && w'.tables[c.host].session == c.session
    requires w'.tables[c.host].peers == w.tables[c.host].peers[2 := NewPeer(2, a).(state := Connected)]
    ensures Linked(c, w', a, 1) && Linked(c, w', a, 2)
  {
  }

  lemma JoinLinks(c: Config, w: World, a: SocketAddr, both: seq<SocketAddr>)
    requires ValidConfig(c) && Inv(c, w) && a != c.host && Linked(c, w, a, 1) && both == [a, a]
    requires Admitted(c, w.tables[c.host], both[..1])
    ensures var w' := Post(w, c.host, Reply(Admit(w.tables[c.host], a).0, [Send(a, AnswerOf(c, both).packet)]));
            Linked(c, w', a, 1) && Linked(c, w', a, 2)
  {
    var t := w.tables[c.host];
    assert Agrees(TheRoll(c, w), t) by { NodeFacts(c, w, c.host); }
    AdmitOne(c, t, both);
    assert Admit(t, a).0.localId == 0 && Admit(t, a).0.session == c.session;
    var r := Reply(Admit(t, a).0, [Send(a, AnswerOf(c, both).packet)]);
    PostIs(w, c.host, r);
    hide *;
    LinkedTwice(c, w, Post(w, c.host, r), a);
  }

  /** The joiner plays the third frame and then the second. */
  lemma MixedUp(side: Link, p: Path, f1: Flight, f2: Flight, second: Opus, third: Opus)
    requires p.receiver == NEW_RECEIVER && p.playout == Playout.Idle() && p.played == [] && p.positions == []
    requires f1.position == 1 && f1.packet.header.seqNum == 1 && f1.packet.header.counter == 1
    requires f2.position == 0 && f2.packet.header.seqNum == 0 && f2.packet.header.counter == 2
    requires f1.packet.header.pktType == f2.packet.header.pktType == 0x01
    requires f1.packet.body == Encrypt(side.shared, f1.packet.header, second)
    requires f2.packet.body == Encrypt(side.shared, f2.packet.header, third)
    ensures var p1 := Advance(side, p, Hear(f2, true));
            var p2 := Advance(NO_LINK, p1, PlayFrame);
            var p3 := Advance(side, p2, Hear(f1, true));
            var p4 := Advance(NO_LINK, p3, PlayFrame);
            && Timely(side, p, Hear(f2, true)) && Timely(side, p2, Hear(f1, true)) && p2.air == p.air
            && p4.played == [third, second] && p4.positions == [0, 1] && p4.sender == p.sender
  {
    assert Wrap16(0) == 0 && Wrap16(1) == 1;
    assert Playout.Simulates(Jitter.Empty<Opus>(), Playout.Idle<Opus>(), []);
    TwoThenOne(p.receiver);
    hide Advance, Encrypt, Filtered, Timely, Wrap16, Playout.Simulates, Replay.Check;
    HeardAndPlayed(side, p, f2, third);
    var p2 := Advance(NO_LINK, Advance(side, p, Hear(f2, true)), PlayFrame);
    HeardAndPlayed(side, p2, f1, second);
  }

  /** Nothing has been heard on the lane, and so many counters have been used. */
  ghost predicate Unheard(p: Path, used: nat) {
    && p.receiver == NEW_RECEIVER && p.playout == Playout.Idle() && p.played == [] && p.positions == []
    && p.sender.sharedCounter == used <= 10
  }

  /** What saying one more frame on a lane leads to. */
  ghost predicate SaidOne(l: Link, p: Path, p': Path, opus: Opus, used: nat) {
    && Unheard(p', used + 1) && p.air <= p'.air && p'.sender.log == p.sender.log + [opus]
    && p'.sender.sendSeq == Inc16(p.sender.sendSeq)
    && SharedFlight(l, |p.sender.log|, p.sender.sendSeq, used, opus) in p'.air
  }

  lemma SpeakUnheard(l: Link, p: Path, opus: Opus, used: nat)
    requires Unheard(p, used) && used < 10 && !UsesPair(p.sender)
    ensures SaidOne(l, p, Advance(l, p, Speak(opus)), opus, used)
  {
    SharedSpeak(l, p, opus);
    hide Advance, SharedFlight, Inc16, UsesPair;
  }

  /** Only the counter has moved. */
  ghost predicate CountedOne(p: Path, p': Path, used: nat) {
    Unheard(p', used + 1) && p' == p.(sender := p.sender.(sharedCounter := used + 1))
  }

  lemma CountUnheard(p: Path, used: nat)
    requires Unheard(p, used) && used < 10
    ensures CountedOne(p, Advance(NO_LINK, p, UseSharedCounter), used)
  {
  }

  /** One frame on lane n; on another lane of the same node only the counter moves. */
  lemma SayShared(c: Config, acts: seq<Act>, n: Lane, m: Lane, opus: Opus) returns (acts': seq<Act>)
    requires ValidConfig(c) && CallRun(c, acts) && Within(c, n) && Can(c, WorldAfter(c, acts), Talk(n.src, n.to, opus))
    requires m.src == n.src && m.to != n.to && !Upgraded(WorldAfter(c, acts).tables[n.src].peers[n.to])
    ensures CallRun(c, acts') && WorldAfter(c, acts') == WorldAfter(c, acts)
    ensures !UsesPair(LaneAfter(c, acts, n).sender)
    ensures var side := SideLink(c, WorldAfter(c, acts).tables[n.src], n.to);
            LaneAfter(c, acts', n) == Advance(side, LaneAfter(c, acts, n), Speak(opus))
    ensures LaneAfter(c, acts', m) == Advance(NO_LINK, LaneAfter(c, acts, m), UseSharedCounter)
  {
    AudioFollowsTables(c, acts, n);
    hide CallRun, WorldAfter, LaneAfter, Advance, SideLink, UsesPair, Upgraded;
    acts' := Do(c, acts, Talk(n.src, n.to, opus));
    var side := SideLink(c, WorldAfter(c, acts).tables[n.src], n.to);
    AdvanceOne(side, LaneAfter(c, acts, n), Speak(opus));
    AdvanceOne(side, LaneAfter(c, acts, m), UseSharedCounter);
    SilentAlike(side, NO_LINK, LaneAfter(c, acts, m), UseSharedCounter);
  }

  /** The same between the host and the joiner, to the given one of the host's entries. */
  lemma HostSays(c: Config, acts: seq<Act>, a: SocketAddr, id: u8, other: u8, opus: Opus, used: nat) returns (acts': seq<Act>)
    requires ValidConfig(c) && a in c.secrets && CallRun(c, acts) && Linked(c, WorldAfter(c, acts), a, id) && id != other
    requires Unheard(LaneAfter(c, acts, Lane(c.host, id, a, 0)), used) && used < 10
    requires Unheard(LaneAfter(c, acts, Lane(c.host, other, a, 0)), used)
    ensures CallRun(c, acts') && WorldAfter(c, acts') == WorldAfter(c, acts)
    ensures var (n, m) := (Lane(c.host, id, a, 0), Lane(c.host, other, a, 0));
            && SaidOne(SideLink(c, WorldAfter(c, acts).tables[c.host], id), LaneAfter(c, acts, n), LaneAfter(c, acts', n), opus, used)
            && CountedOne(LaneAfter(c, acts, m), LaneAfter(c, acts', m), used)
  {
    var n, m := Lane(c.host, id, a, 0), Lane(c.host, other, a, 0);
    hide CallRun, WorldAfter, LaneAfter, Advance, UsesPair, Unheard, SharedFlight, SideLink, SaidOne, CountedOne;
    acts' := SayShared(c, acts, n, m, opus);
    SpeakUnheard(SideLink(c, WorldAfter(c, acts).tables[c.host], id), LaneAfter(c, acts, n), opus, used);
    CountUnheard(LaneAfter(c, acts, m), used);
  }

  /** The host's first two frames go to its one entry. */
  lemma TwoFrames(c: Config, a: SocketAddr, f0: Opus, f1: Opus) returns (acts: seq<Act>)
    requires ValidConfig(c) && a in c.secrets && a != c.host
    ensures CallRun(c, acts) && Linked(c, WorldAfter(c, acts), a, 1)
    ensures JoinOf(c, a) in WorldAfter(c, acts).net && Admitted(c, WorldAfter(c, acts).tables[c.host], [a])
    ensures var (p, q, side) := (LaneAfter(c, acts, First(c, a)), LaneAfter(c, acts, Second(c, a)),
                                 SideLink(c, WorldAfter(c, acts).tables[c.host], 1));
            && Unheard(p, 2) && p.sender.log == [f0] + [f1] && SharedFlight(side, 1, 1, 1, f1) in p.air
            && Unheard(q, 2) && q.sender.log == [] && q.sender.sendSeq == 0
  {
    var n, m := First(c, a), Second(c, a);
    acts := UnderPassphrase(c, a);
    var p0, q0 := LaneAfter(c, acts, n), LaneAfter(c, acts, m);
    var side := SideLink(c, WorldAfter(c, acts).tables[c.host], 1);
    StartsUnheard(c, acts, n);
    StartsUnheard(c, acts, m);
    hide CallRun, WorldAfter, LaneAfter, Untouched, Unheard, SharedFlight, Admitted, JoinOf, Inc16, SideLink, Linked, SaidOne,
      CountedOne;
    acts := HostSays(c, acts, a, 1, 2, f0, 0);
    var p1, q1 := LaneAfter(c, acts, n), LaneAfter(c, acts, m);
    SaidIs(side, p0, p1, f0, 0);
    CountedIs(q0, q1, 0);
    acts := HostSays(c, acts, a, 1, 2, f1, 1);
    SaidIs(side, p1, LaneAfter(c, acts, n), f1, 1);
    CountedIs(q1, LaneAfter(c, acts, m), 1);
    SaidTwo(side, p0, p1, LaneAfter(c, acts, n), f0, f1);
  }

  lemma SaidIs(l: Link, p: Path, p': Path, opus: Opus, used: nat)
    requires SaidOne(l, p, p', opus, used)
    ensures Unheard(p', used + 1) && p.air <= p'.air && p'.sender.log == p.sender.log + [opus]
  {
    hide Unheard, SharedFlight, Inc16;
  }

  lemma CountedIs(p: Path, p': Path, used: nat)
    requires CountedOne(p, p', used)
    ensures Unheard(p', used + 1) && p'.air == p.air
    ensures p'.sender.log == p.sender.log && p'.sender.sendSeq == p.sender.sendSeq
  {
    hide Unheard;
  }

  lemma SaidTwo(l: Link, p: Path, p1: Path, p2: Path, f0: Opus, f1: Opus)
    requires SaidOne(l, p, p1, f0, 0) && SaidOne(l, p1, p2, f1, 1) && p.sender.log == [] && p.sender.sendSeq == 0
    ensures p2.sender.log == [f0] + [f1] && SharedFlight(l, 1, 1, 1, f1) in p2.air
  {
    assert Inc16(0) == 1;
    assert [] + [f0] == [f0];
    hide Unheard, SharedFlight, Inc16;
  }

  /** The JOIN arrives again, and the third frame goes to both entries. */
  lemma ThirdFrame(c: Config, a: SocketAddr, f0: Opus, f1: Opus, f2: Opus) returns (acts: seq<Act>)
    requires ValidConfig(c) && a in c.secrets && a != c.host
    ensures CallRun(c, acts) && Linked(c, WorldAfter(c, acts), a, 1) && Linked(c, WorldAfter(c, acts), a, 2)
    ensures var (p, q, side) := (LaneAfter(c, acts, First(c, a)), LaneAfter(c, acts, Second(c, a)),
                                 SideLink(c, WorldAfter(c, acts).tables[c.host], 1));
            && Unheard(p, 4) && p.sender.log == [f0] + [f1] + [f2] && SharedFlight(side, 1, 1, 1, f1) in p.air
            && Unheard(q, 4) && SharedFlight(side, 0, 0, 2, f2) in q.air
  {
    var n, m, both := First(c, a), Second(c, a), [a, a];
    hide CallRun, WorldAfter, LaneAfter, Unheard, SharedFlight, Admitted, JoinOf, Inc16, SideLink, SaidOne, CountedOne;
    acts := TwoFrames(c, a, f0, f1);
    var w, p0, q0 := WorldAfter(c, acts), LaneAfter(c, acts, n), LaneAfter(c, acts, m);
    acts := JoinOnceMore(c, acts, a, both);
    SameSide(c, w, WorldAfter(c, acts), a);
    var side := SideLink(c, WorldAfter(c, acts).tables[c.host], 1);
    OneSide(c, WorldAfter(c, acts), a, f1, f2);
    acts := HostSays(c, acts, a, 2, 1, f2, 2);
    var p1, q1 := LaneAfter(c, acts, n), LaneAfter(c, acts, m);
    SaidIs(side, q0, q1, f2, 2);
    FirstSaid(side, q0, q1, f2, 2);
    CountedIs(p0, p1, 2);
    acts := HostSays(c, acts, a, 1, 2, f2, 3);
    SaidIs(side, p1, LaneAfter(c, acts, n), f2, 3);
    CountedIs(q1, LaneAfter(c, acts, m), 3);
  }

  lemma FirstSaid(l: Link, p: Path, p': Path, opus: Opus, used: nat)
    requires SaidOne(l, p, p', opus, used) && p.sender.log == [] && p.sender.sendSeq == 0
    ensures SharedFlight(l, 0, 0, used, opus) in p'.air
  {
    hide Unheard, SharedFlight, Inc16;
  }

  lemma SameSide(c: Config, w: World, w': World, a: SocketAddr)
    requires Linked(c, w, a, 1) && Linked(c, w', a, 1)
    ensures SideLink(c, w.tables[c.host], 1) == SideLink(c, w'.tables[c.host], 1)
  {
  }

  lemma StartsUnheard(c: Config, acts: seq<Act>, n: Lane)
    requires ValidConfig(c) && CallRun(c, acts) && Within(c, n) && Untouched(LaneAfter(c, acts, n))
    requires n.from in WorldAfter(c, acts).tables[n.dst].peers
             && WorldAfter(c, acts).tables[n.dst].peers[n.from].context.None?
    ensures var p := LaneAfter(c, acts, n);
            Unheard(p, 0) && p.sender.log == [] && p.sender.sendSeq == 0
  {
    AudioFollowsTables(c, acts, n);
    hide CallRun, WorldAfter, LaneAfter;
  }

  /**
   * With a JOIN answered twice the host has two entries at one address, each with a numbering
   * of its own, and the joiner hears both under the host's one id. For every configuration
   * and joiner there is such a call, every packet in the window, in which the host says three
   * frames and the joiner plays the third and then the second.
   */
  lemma RepeatedJoinMixesFrames(c: Config, a: SocketAddr, f0: Opus, f1: Opus, f2: Opus) returns (acts: seq<Act>)
    requires ValidConfig(c) && a in c.secrets && a != c.host
    ensures CallRun(c, acts)
    ensures var p := LaneAfter(c, acts, First(c, a));
            && p.sender.log == [f0, f1, f2] && p.played == [f2, f1]
            && (f0 != f2 ==> !InOrder(p))
  {
    acts := ThirdFrame(c, a, f0, f1, f2);
    var w := WorldAfter(c, acts);
    var side, mine := SideLink(c, w.tables[c.host], 1), SideLink(c, w.tables[a], 0);
    var flight1, flight2 := SharedFlight(side, 1, 1, 1, f1), SharedFlight(side, 0, 0, 2, f2);
    var p, q := LaneAfter(c, acts, First(c, a)), LaneAfter(c, acts, Second(c, a));
    hide *;
    OneSide(c, w, a, f1, f2);
    UnheardIs(p, 4);
    UnheardIs(q, 4);
    MixedUp(mine, p, flight1, flight2, f1, f2);
    MixedUp(mine, q, flight1, flight2, f1, f2);
    acts := HearBoth(c, acts, a, flight1, flight2);
    OutOfOrder(LaneAfter(c, acts, First(c, a)), f0, f1, f2);
  }

  lemma OutOfOrder(p: Path, f0: Opus, f1: Opus, f2: Opus)
    requires p.sender.log == [f0] + [f1] + [f2] && p.played == [f2, f1] && p.positions == [0, 1]
    ensures p.sender.log == [f0, f1, f2] && (f0 != f2 ==> !InOrder(p))
  {
    assert p.sender.log[0] == f0 && p.played[0] == f2 && p.positions[0] == 0;
  }

  /** The joiner hears the packet of the second entry and then one of the first, playing each. */
  lemma HearBoth(c: Config, acts: seq<Act>, a: SocketAddr, flight1: Flight, flight2: Flight) returns (acts': seq<Act>)
    requires ValidConfig(c) && a in c.secrets && CallRun(c, acts)
    requires Linked(c, WorldAfter(c, acts), a, 1) && Linked(c, WorldAfter(c, acts), a, 2)
    requires flight1.packet.header.peerId == 0 && flight2.packet.header.peerId == 0
    requires var (p, q, mine) := (LaneAfter(c, acts, First(c, a)), LaneAfter(c, acts, Second(c, a)),
                                  SideLink(c, WorldAfter(c, acts).tables[a], 0));
             var p2 := Advance(NO_LINK, Advance(mine, p, Hear(flight2, true)), PlayFrame);
             && flight1 in p.air && flight2 in q.air && p2.air == p.air
             && Timely(mine, q, Hear(flight2, true)) && Timely(mine, p2, Hear(flight1, true))
    ensures CallRun(c, acts')
    ensures var (p, mine) := (LaneAfter(c, acts, First(c, a)), SideLink(c, WorldAfter(c, acts).tables[a], 0));
            var p2 := Advance(NO_LINK, Advance(mine, p, Hear(flight2, true)), PlayFrame);
            LaneAfter(c, acts', First(c, a)) == Advance(NO_LINK, Advance(mine, p2, Hear(flight1, true)), PlayFrame)
  {
    var n, m := First(c, a), Second(c, a);
    hide CallRun, WorldAfter, LaneAfter, Advance, SideLink, Timely;
    acts' := HearFrom(c, acts, m, n, flight2);
    acts' := PlayOne(c, acts', n);
    acts' := HearFrom(c, acts', n, n, flight1);
    acts' := PlayOne(c, acts', n);
  }

  lemma UnheardIs(p: Path, used: nat)
    requires Unheard(p, used)
    ensures p.receiver == NEW_RECEIVER && p.playout == Playout.Idle() && p.played == [] && p.positions == []
  {
  }

  /** Both entries of the host seal alike, and the joiner opens it. */
  lemma OneSide(c: Config, w: World, a: SocketAddr, f1: Opus, f2: Opus)
    requires Linked(c, w, a, 1) && Linked(c, w, a, 2)
    ensures SideLink(c, w.tables[c.host], 1) == SideLink(c, w.tables[c.host], 2)
    ensures var (side, mine) := (SideLink(c, w.tables[c.host], 1), SideLink(c, w.tables[a], 0));
            var (g1, g2) := (SharedFlight(side, 1, 1, 1, f1), SharedFlight(side, 0, 0, 2, f2));
            && g1.position == 1 && g1.packet.header == Header(0x01, 0, 1, 1)
            && g2.position == 0 && g2.packet.header == Header(0x01, 0, 0, 2)
            && g1.packet.body == Encrypt(mine.shared, g1.packet.header, f1)
            && g2.packet.body == Encrypt(mine.shared, g2.packet.header, f2)
  {
    hide Encrypt;
  }
}
