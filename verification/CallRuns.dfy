/** A call in which voice gets through, for every configuration, joiner and frame. */
module CallRuns {
  import opened Words
  import opened Wire
  import opened Crypto
  import opened PeerListCodec
  import opened PeerTable
  import opened Handshake
  import opened Mesh
  import opened MeshAgreement
  import opened MeshReached
  import opened MeshConnected
  import opened AudioPath
  import opened AudioRuns
  import opened Conference
  import opened VoiceOverMesh
  import HandshakeRuns
  import Jitter
  import Playout
  import Replay

  // ---------------------------------------------------------------------
  // Building calls.
  // ---------------------------------------------------------------------

  /** One more act. */
  lemma Do(c: Config, acts: seq<Act>, act: Act) returns (acts': seq<Act>)
    requires ValidConfig(c) && CallRun(c, acts) && Can(c, WorldAfter(c, acts), act)
    requires act.Listen? ==> Arrives(c, WorldAfter(c, acts), act, LaneAfter(c, acts, Route(act)))
    ensures CallRun(c, acts') && WorldAfter(c, acts') == After(c, WorldAfter(c, acts), act)
    ensures forall n :: LaneAfter(c, acts', n) == OnLane(c, WorldAfter(c, acts), act, n, LaneAfter(c, acts, n))
  {
    acts' := acts + [act];
    assert acts'[..|acts'| - 1] == acts && acts'[|acts'| - 1] == act;
    hide Can, After, OnLane, Arrives, Route;
  }

  /** No audio has been sent or heard on the lane. */
  ghost predicate Untouched(p: Path) {
    && p.sender.log == [] && p.sender.sendSeq == 0 && p.sender.sharedCounter == 0 && p.air == {} && p.played == []
    && (p.sender.pairCounter.Some? ==> p.sender.pairCounter == Some(0))
    && p.receiver == NEW_RECEIVER.(upgraded := p.receiver.upgraded) && p.playout == Playout.Idle() && p.positions == []
  }

  lemma {:induction false} SilentUntouched(l: Link, p: Path, es: seq<AudioEvent>)
    requires Untouched(p) && (AllOut(es) || AllIn(es))
    ensures Untouched(AdvanceAll(l, p, es))
    decreases |es|
  {
    if es != [] {
      assert forall k | 0 <= k < |es[1..]| :: es[1..][k] == es[k + 1];
      assert es[0] in {SenderOffers, SenderGetsKey, RenewShared} || es[0] == ReceiverGetsKey;
      SilentUntouched(l, Advance(l, p, es[0]), es[1..]);
      hide SendAudio, ReceiveAudio, Lands;
    }
  }

  lemma ControlUntouched(c: Config, w: World, s: Step, n: Lane, p: Path)
    requires w.tables.Keys == c.secrets.Keys && Can(c, w, Control(s)) && Untouched(p)
    ensures Untouched(OnLane(c, w, Control(s), n, p))
  {
    var outs, ins := OutsOf(c, w, s, n), InsOf(c, w, s, n);
    assert AllOut(outs) && AllIn(ins) by { hide KeyTaken, ListRead, Enabled; }
    hide Untouched, AdvanceAll, Enabled, OutsOf, InsOf, AllOut, AllIn;
    SilentUntouched(NO_LINK, p, outs);
    SilentUntouched(NO_LINK, AdvanceAll(NO_LINK, p, outs), ins);
    AdvanceJoined(NO_LINK, p, outs, ins);
  }

  /** Every run of the mesh is a call in which nobody has spoken yet. */
  lemma {:induction false} Lift(c: Config, steps: seq<Step>) returns (acts: seq<Act>)
    requires ValidConfig(c) && Legal(c, steps)
    ensures CallRun(c, acts) && WorldAfter(c, acts) == Run(c, steps)
    ensures forall n :: Untouched(LaneAfter(c, acts, n))
    decreases |steps|
  {
    if steps == [] {
      acts := [];
    } else {
      var init, s := steps[..|steps| - 1], steps[|steps| - 1];
      assert Legal(c, init) && Enabled(c, Run(c, init), s);
      assert Run(c, steps) == Next(c, Run(c, init), s);
      hide CallRun, WorldAfter, LaneAfter, Legal, Run, Enabled, Next, OnLane, Untouched;
      var before := Lift(c, init);
      acts := Do(c, before, Control(s));
      forall n ensures Untouched(LaneAfter(c, acts, n)) {
        ControlUntouched(c, Run(c, init), s, n, LaneAfter(c, before, n));
      }
    }
  }

  lemma SayOn(c: Config, acts: seq<Act>, n: Lane, opus: Opus) returns (acts': seq<Act>)
    requires ValidConfig(c) && CallRun(c, acts) && Can(c, WorldAfter(c, acts), Talk(n.src, n.to, opus))
    ensures CallRun(c, acts') && WorldAfter(c, acts') == WorldAfter(c, acts)
    ensures var side := SideLink(c, WorldAfter(c, acts).tables[n.src], n.to);
            LaneAfter(c, acts', n) == Advance(side, LaneAfter(c, acts, n), Speak(opus))
  {
    hide CallRun, WorldAfter, LaneAfter, Advance, SideLink;
    acts' := Do(c, acts, Talk(n.src, n.to, opus));
    AdvanceOne(SideLink(c, WorldAfter(c, acts).tables[n.src], n.to), LaneAfter(c, acts, n), Speak(opus));
  }

  /** The packet on the air of lane m is heard on lane n, which has the same receiving entry. */
  lemma HearFrom(c: Config, acts: seq<Act>, m: Lane, n: Lane, f: Flight) returns (acts': seq<Act>)
    requires ValidConfig(c) && CallRun(c, acts) && Within(c, m) && m.dst == n.dst && m.from == n.from
    requires var w := WorldAfter(c, acts);
             && Files(w, m.src, m.to, m.dst) && n.from in w.tables[n.dst].peers
             && f in LaneAfter(c, acts, m).air && f.packet.header.peerId == n.from
             && Timely(SideLink(c, w.tables[n.dst], n.from), LaneAfter(c, acts, m), Hear(f, true))
    ensures CallRun(c, acts') && WorldAfter(c, acts') == WorldAfter(c, acts)
    ensures var side := SideLink(c, WorldAfter(c, acts).tables[n.dst], n.from);
            LaneAfter(c, acts', n) == Advance(side, LaneAfter(c, acts, n), Hear(f, true))
  {
    hide CallRun, WorldAfter, LaneAfter, Advance, SideLink, Timely;
    acts' := Do(c, acts, Listen(m.src, m.to, m.dst, f, true));
    AdvanceOne(SideLink(c, WorldAfter(c, acts).tables[n.dst], n.from), LaneAfter(c, acts, n), Hear(f, true));
  }

  lemma PlayOne(c: Config, acts: seq<Act>, n: Lane) returns (acts': seq<Act>)
    requires ValidConfig(c) && CallRun(c, acts) && Can(c, WorldAfter(c, acts), PlayOut(n.dst, n.from))
    ensures CallRun(c, acts') && WorldAfter(c, acts') == WorldAfter(c, acts)
    ensures LaneAfter(c, acts', n) == Advance(NO_LINK, LaneAfter(c, acts, n), PlayFrame)
  {
    hide CallRun, WorldAfter, LaneAfter, Advance;
    acts' := Do(c, acts, PlayOut(n.dst, n.from));
    AdvanceOne(NO_LINK, LaneAfter(c, acts, n), PlayFrame);
  }

  // ---------------------------------------------------------------------
  // From the joiner to the host, under the per-peer key.
  // ---------------------------------------------------------------------

  /** The joiner's entry for the host, and the host's entry for the joiner. */
  function Up(c: Config, a: SocketAddr): Lane { Lane(a, 0, c.host, 1) }

  /** Node a, which is 1, and the host are connected, hold the same context and have one id each. */
  ghost predicate Prepared(c: Config, w: World, a: SocketAddr) {
    && a in w.tables && c.host in w.tables && a in c.secrets && c.host in c.secrets
    && var (t, host) := (w.tables[a], w.tables[c.host]);
       && Files(w, a, 0, c.host) && t.peers[0].state == Connected && Upgraded(t.peers[0])
       && Files(w, c.host, 1, a) && host.peers[1].state == Connected && Upgraded(host.peers[1])
       && t.peers[0].context == host.peers[1].context == Some(PairContext(c, a, c.host, 1, 0))
       && host.session == c.session && t.localId == 1 && t.session == c.session && Matched(TheRoll(c, w), Up(c, a))
  }

  /** Both sides then describe the same valid link. */
  lemma PreparedLinks(c: Config, w: World, a: SocketAddr)
    requires ValidConfig(c) && Prepared(c, w, a)
    ensures var (mine, theirs) := (SideLink(c, w.tables[a], 0), SideLink(c, w.tables[c.host], 1));
            ValidLink(theirs) && mine.pair == theirs.pair && mine.sender == 1
  {
    PairContextAgrees(c, a, c.host, 1, 0);
    hide PairContext;
  }

  lemma PreparedBy(c: Config, w: World, a: SocketAddr)
    requires ValidConfig(c) && a in c.secrets && a != c.host && w.tables.Keys == c.secrets.Keys
    requires var ctx := Some(PairContext(c, a, c.host, 1, 0));
             && HandshakeRuns.Solo(w.tables[a], 1, c.session, HandshakeRuns.PeerAt(0, c.host, Connected, true, ctx))
             && HandshakeRuns.Solo(w.tables[c.host], 0, c.session, HandshakeRuns.PeerAt(1, a, Connected, true, ctx))
    ensures Prepared(c, w, a)
  {
    PairContextAgrees(c, a, c.host, 1, 0);
    assert TheRoll(c, w) == map[0 := c.host, 1 := a];
    hide PairContext, RollOf;
  }

  lemma Ready(c: Config, a: SocketAddr) returns (acts: seq<Act>)
    requires ValidConfig(c) && a in c.secrets && a != c.host
    ensures CallRun(c, acts) && Prepared(c, WorldAfter(c, acts), a) && Untouched(LaneAfter(c, acts, Up(c, a)))
    ensures UsesPair(LaneAfter(c, acts, Up(c, a)).sender) && LaneAfter(c, acts, Up(c, a)).receiver.upgraded
    ensures HandshakeRuns.OfferFrom(c, c.host, a, 0) in WorldAfter(c, acts).net
  {
    var steps := HandshakeRuns.HandshakeCompletes(c, a);
    PreparedBy(c, Run(c, steps), a);
    hide Legal, Run, CallRun, WorldAfter, LaneAfter, Untouched, PairContext, HandshakeRuns.OfferFrom;
    acts := Lift(c, steps);
    AudioFollowsTables(c, acts, Up(c, a));
    hide Matched;
  }

  /** The first packet under the per-peer key. */
  function FirstFlight(l: Link, opus: Opus): Flight { Flight(0, MakeAudio(l.pair, l.sender, 0, 0, opus)) }

  lemma FirstIsSent(l: Link, p: Path, opus: Opus)
    requires Untouched(p) && UsesPair(p.sender)
    ensures var p' := Advance(l, p, Speak(opus));
            && FirstFlight(l, opus) in p'.air && p'.sender.log == [opus]
            && p' == p.(sender := p'.sender, air := p'.air)
  {
    SendUses(l, p.sender, 0, true, opus);
    hide SendAudio, MakeAudio;
  }

  lemma ZeroIsFresh(r: Receiver)
    requires r.pairFilter == Replay.FRESH
    ensures Filtered(r, true, 0).1
  {
    Replay.FreshTracks();
    Replay.CheckRefines(Replay.FRESH, {}, 0);
    hide Replay.Check, Replay.Tracks;
  }

  lemma FirstIsHeard(l: Link, side: Link, p: Path, opus: Opus)
    requires ValidLink(side) && side.pair == l.pair && p.receiver == NEW_RECEIVER.(upgraded := true)
    requires p.playout == Playout.Idle()
    ensures var e := Hear(FirstFlight(l, opus), true);
            var p' := Advance(side, p, e);
            && Timely(side, p, e) && p'.sender == p.sender && p'.played == p.played
            && p'.receiver.buffer == Jitter.Push(Jitter.Empty(), 0, opus)
  {
    var f := FirstFlight(l, opus);
    OpensAcrossUpgrade(side, true, f.packet.header, opus);
    assert f.packet == AudioPacket(f.packet.header, Encrypt(side.pair, f.packet.header, opus));
    assert f.packet.header.seqNum == 0 && f.packet.header.counter == 0;
    ZeroIsFresh(p.receiver);
    hide OpenAudio, Encrypt, FirstFlight, Jitter.Push, Playout.Arrive, Replay.Check;
  }

  lemma FirstIsPlayed(p: Path, opus: Opus)
    requires p.receiver.buffer == Jitter.Push(Jitter.Empty(), 0, opus) && p.played == []
    ensures Advance(NO_LINK, p, PlayFrame).played == [opus] && Advance(NO_LINK, p, PlayFrame).sender == p.sender
  {
    Playout.PushOne(0, opus);
    Playout.PopsFront(p.receiver.buffer, Jitter.Frame(0, opus));
    hide Jitter.Push, Jitter.Pop, Playout.Play;
  }

  lemma FirstThrough(mine: Link, theirs: Link, p: Path, opus: Opus)
    requires ValidLink(theirs) && mine.pair == theirs.pair && mine.sender == 1
    requires Untouched(p) && UsesPair(p.sender) && p.receiver.upgraded
    ensures var f := FirstFlight(mine, opus);
            var p1 := Advance(mine, p, Speak(opus));
            var p2 := Advance(theirs, p1, Hear(f, true));
            var p3 := Advance(NO_LINK, p2, PlayFrame);
            && f.packet.header.peerId == 1 && f in p1.air && Timely(theirs, p1, Hear(f, true))
            && p3.sender.log == [opus] && p3.played == [opus] && UsesPair(p3.sender)
  {
    var p1 := Advance(mine, p, Speak(opus));
    FirstIsSent(mine, p, opus);
    FirstIsHeard(mine, theirs, p1, opus);
    FirstIsPlayed(Advance(theirs, p1, Hear(FirstFlight(mine, opus), true)), opus);
    SameFlags(mine, p, Speak(opus));
    hide Advance, Timely;
  }

  /**
   * For every configuration, joiner and frame there is a call in which the joiner's frame,
   * sealed under the per-peer key, is played by the host.
   */
  lemma VoiceGetsThrough(c: Config, a: SocketAddr, opus: Opus) returns (acts: seq<Act>)
    requires ValidConfig(c) && a in c.secrets && a != c.host
    ensures CallRun(c, acts) && Matched(TheRoll(c, WorldAfter(c, acts)), Up(c, a))
    ensures var p := LaneAfter(c, acts, Up(c, a));
            p.sender.log == [opus] && p.played == [opus] && UsesPair(p.sender)
  {
    var n := Up(c, a);
    acts := Ready(c, a);
    var w, p := WorldAfter(c, acts), LaneAfter(c, acts, n);
    var mine, theirs := SideLink(c, w.tables[a], 0), SideLink(c, w.tables[c.host], 1);
    PreparedLinks(c, w, a);
    FirstThrough(mine, theirs, p, opus);
    hide CallRun, WorldAfter, LaneAfter, Untouched, Advance, FirstFlight, UsesPair, Upgraded, Timely, ValidLink, SideLink, Matched;
    acts := SayOn(c, acts, n, opus);
    acts := HearFrom(c, acts, n, n, FirstFlight(mine, opus));
    acts := PlayOne(c, acts, n);
  }
}
