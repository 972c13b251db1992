/** What a run of mesh and audio together guarantees, to pairs of nodes that have one id each. */
module VoiceOverMesh {
  import opened Words
  import opened Wire
  import opened Crypto
  import opened PeerListCodec
  import opened PeerTable
  import opened Handshake
  import opened Mesh
  import opened MeshAgreement
  import opened MeshReached
  import opened MeshConnected
  import opened AudioPath
  import opened Conference
  import opened AudioRuns
  import opened AudioReference
  import Replay

  // ---------------------------------------------------------------------
  // The mesh half of a call is a run of the mesh.
  // ---------------------------------------------------------------------

  /** The control steps of a call. */
  function Controls(acts: seq<Act>): seq<Step> {
    if acts == [] then []
    else
      var last := acts[|acts| - 1];
      Controls(acts[..|acts| - 1]) + if last.Control? then [last.step] else []
  }

  lemma LegalSnoc(c: Config, steps: seq<Step>, s: Step, steps': seq<Step>)
    requires Legal(c, steps) && steps' == steps + [s] && Enabled(c, Run(c, steps), s)
    ensures Legal(c, steps') && Run(c, steps') == Next(c, Run(c, steps), s)
  {
    assert steps'[..|steps'| - 1] == steps && steps'[|steps'| - 1] == s;
    hide Enabled, Next;
  }

  /** The control steps of a call are a run of the mesh and lead to the call's tables. */
  lemma {:induction false} CallProjects(c: Config, acts: seq<Act>)
    requires ValidConfig(c) && CallRun(c, acts)
    ensures Legal(c, Controls(acts)) && Run(c, Controls(acts)) == WorldAfter(c, acts)
    decreases |acts|
  {
    if acts != [] {
      var init, last := acts[..|acts| - 1], acts[|acts| - 1];
      Unfolds(c, acts, Lane(c.host, 0, c.host, 0));
      CallProjects(c, init);
      var before, steps := Controls(init), Controls(acts);
      if last.Control? {
        assert steps == before + [last.step];
        hide CallRun, WorldAfter, Legal, Run, Enabled, Next, OnLane, ActEvents, Controls;
        LegalSnoc(c, before, last.step, steps);
      } else {
        assert steps == before + [] == before;
        hide CallRun, WorldAfter, Legal, Run, OnLane, ActEvents, Controls;
      }
    }
  }

  // ---------------------------------------------------------------------
  // Every matched lane is an audio run on the pair's link.
  // ---------------------------------------------------------------------

  /** Entries of two nodes for each other match, if the host has admitted each node at most once. */
  lemma EntriesMatch(c: Config, w: World, n: Lane)
    requires Inv(c, w) && Files(w, n.src, n.to, n.dst) && Files(w, n.dst, n.from, n.src)
    requires OneId(TheRoll(c, w), n.src) && OneId(TheRoll(c, w), n.dst)
    ensures Matched(TheRoll(c, w), n)
  {
    EntryFacts(c, w, n.src, n.to);
    EntryFacts(c, w, n.dst, n.from);
    hide Inv, RollOf, OneId, Fits;
    OneIdFits(TheRoll(c, w), n.src, n.from);
    OneIdFits(TheRoll(c, w), n.dst, n.to);
  }

  lemma OneIdFits(roll: Roll, a: SocketAddr, i: u8)
    requires OneId(roll, a) && i in roll && roll[i] == a
    ensures Fits(roll, a, i)
  {
  }

  lemma LaneFacts(c: Config, acts: seq<Act>, n: Lane)
    requires ValidConfig(c) && CallRun(c, acts) && Within(c, n)
    ensures var w := WorldAfter(c, acts);
            KeyInv(c, w) && Inv(c, w) && LaneOk(c, w, n, LaneEvents(c, acts, n), LaneAfter(c, acts, n))
  {
    CallKeepsInv(c, acts);
    hide CallRun, WorldAfter, LaneAfter, LaneEvents, LaneOk;
  }

  lemma LinkIsValid(c: Config, n: Lane)
    requires ValidConfig(c) && Within(c, n)
    ensures ValidLink(LinkOf(c, n))
  {
    PairContextAgrees(c, n.src, n.dst, n.from, n.to);
    hide PairContext;
  }

  /**
   * What has happened on a matched lane is a timely audio run on the one link that the two
   * nodes' secrets and ids determine, and it has led to the lane's state.
   */
  lemma LaneIsAudioRun(c: Config, acts: seq<Act>, n: Lane)
    requires ValidConfig(c) && CallRun(c, acts) && Within(c, n) && Matched(TheRoll(c, WorldAfter(c, acts)), n)
    ensures TimelyRun(LinkOf(c, n), LaneEvents(c, acts, n))
    ensures PathAfter(LinkOf(c, n), LaneEvents(c, acts, n)) == LaneAfter(c, acts, n)
  {
    LaneFacts(c, acts, n);
    hide CallRun, WorldAfter, LaneAfter, LaneEvents, KeyInv, Inv, RollOf, LinkOf, Matched, InSync, AirOk;
  }

  /**
   * What is on the air of a matched lane are exactly the frames spoken on it, each in an audio
   * packet with the number of its turn, under the key and with the counter that the lane's
   * events call for.
   */
  lemma LaneAirExactly(c: Config, acts: seq<Act>, n: Lane, f: Flight)
    requires ValidConfig(c) && CallRun(c, acts) && Within(c, n) && Matched(TheRoll(c, WorldAfter(c, acts)), n)
    ensures f in LaneAfter(c, acts, n).air <==> WasSent(LinkOf(c, n), LaneEvents(c, acts, n), f)
    ensures LaneAfter(c, acts, n).sender.log == Frames(LaneEvents(c, acts, n))
  {
    LaneIsAudioRun(c, acts, n);
    hide *;
    AirIsReference(LinkOf(c, n), LaneEvents(c, acts, n), f);
  }

  /**
   * End to end over every run of mesh and audio together, with packets of both kinds lost,
   * repeated and reordered: whatever two nodes have exchanged so far, if the host has admitted
   * each at most once, what one has played of the other are the other's frames at strictly
   * increasing positions: in order, none twice, none altered.
   */
  lemma VoiceIsPlayedInOrder(c: Config, acts: seq<Act>, n: Lane)
    requires ValidConfig(c) && CallRun(c, acts) && Within(c, n) && Matched(TheRoll(c, WorldAfter(c, acts)), n)
    ensures InOrder(LaneAfter(c, acts, n))
  {
    LaneIsAudioRun(c, acts, n);
    LinkIsValid(c, n);
    hide *;
    PlayedInOrder(LinkOf(c, n), LaneEvents(c, acts, n));
  }

  // ---------------------------------------------------------------------
  // What is heard and what is played.
  // ---------------------------------------------------------------------

  /** The act delivers a packet of position k to the lane's receiving entry, in time and with room. */
  ghost predicate BringsAct(c: Config, w: World, act: Act, n: Lane, p: Path, k: int) {
    && act.Listen? && act.dst == n.dst && act.flight.packet.header.peerId == n.from
    && n.dst in w.tables && n.from in w.tables[n.dst].peers
    && Brings(SideLink(c, w.tables[n.dst], n.from), p, Hear(act.flight, act.decodes), k)
  }

  /** Some act of the call has done so. */
  ghost predicate Landed(c: Config, acts: seq<Act>, n: Lane, k: int)
    requires ValidConfig(c) && CallRun(c, acts)
    decreases |acts|
  {
    acts != []
    && var init := acts[..|acts| - 1];
       Landed(c, init, n, k) || BringsAct(c, WorldAfter(c, init), acts[|acts| - 1], n, LaneAfter(c, init, n), k)
  }

  lemma {:induction false} SilentHolds(l: Link, p: Path, es: seq<AudioEvent>, k: int)
    requires AllSilent(es)
    ensures Held(AdvanceAll(l, p, es), k) <==> Held(p, k)
    decreases |es|
  {
    if es != [] {
      assert Silent(es[0]) && AllSilent(es[1..]);
      AdvanceHolds(l, p, es[0], k);
      hide Advance, Held, AllSilent;
      SilentHolds(l, Advance(l, p, es[0]), es[1..], k);
    }
  }

  /** Every act but a control step is at most one event on a lane. */
  lemma AudioActIs(c: Config, w: World, act: Act, n: Lane, p: Path)
    requires w.tables.Keys == c.secrets.Keys && Can(c, w, act) && !act.Control?
    ensures var (l, es) := (ActLink(c, w, act), ActEvents(c, w, act, n));
            && |es| <= 1 && OnLane(c, w, act, n, p) == if es == [] then p else Advance(l, p, es[0])
  {
    var l, es := ActLink(c, w, act), ActEvents(c, w, act, n);
    assert |es| <= 1;
    hide ActLink, ActEvents, Can;
    if es == [] {
      AdvanceOne(l, p, PlayFrame);
    } else {
      assert es == [es[0]];
      AdvanceOne(l, p, es[0]);
    }
  }

  /** A packet is heard on a lane exactly if its header names the lane's receiving entry. */
  lemma HearsExactly(c: Config, w: World, act: Act, n: Lane, p: Path, k: int)
    requires w.tables.Keys == c.secrets.Keys && Can(c, w, act) && !act.Control?
    ensures var (l, es) := (ActLink(c, w, act), ActEvents(c, w, act, n));
            BringsAct(c, w, act, n, p, k) <==> es != [] && es[0].Hear? && Brings(l, p, es[0], k)
  {
    hide Brings, Upgraded, SideLink;
  }

  lemma ActHolds(c: Config, w: World, act: Act, n: Lane, p: Path, k: int)
    requires Inv(c, w) && w.tables.Keys == c.secrets.Keys && c.host in c.secrets && Can(c, w, act)
    requires Within(c, n) && InSync(w, n, p)
    ensures Held(OnLane(c, w, act, n, p), k) <==> Held(p, k) || BringsAct(c, w, act, n, p, k)
  {
    var l, es := ActLink(c, w, act), ActEvents(c, w, act, n);
    if act.Control? {
      ControlSync(c, w, act.step, n, p);
      assert !BringsAct(c, w, act, n, p, k);
      hide Inv, Enabled, Next, OutsOf, InsOf, AllSilent, Held, AdvanceAll, BringsAct, InSync;
      SilentHolds(l, p, es, k);
    } else {
      hide *;
      AudioActIs(c, w, act, n, p);
      HearsExactly(c, w, act, n, p, k);
      if es != [] {
        AdvanceHolds(l, p, es[0], k);
        OnlyHearBrings(l, p, es[0], k);
      }
    }
  }

  lemma OnlyHearBrings(l: Link, p: Path, e: AudioEvent, k: int)
    ensures !e.Hear? ==> !Brings(l, p, e, k)
  {
  }

  /** A position is played or buffered exactly if some act of the call brought it. */
  lemma {:induction false} HeldIffLanded(c: Config, acts: seq<Act>, n: Lane, k: int)
    requires ValidConfig(c) && CallRun(c, acts) && Within(c, n)
    ensures Held(LaneAfter(c, acts, n), k) <==> Landed(c, acts, n, k)
    decreases |acts|
  {
    if acts != [] {
      var init := acts[..|acts| - 1];
      Unfolds(c, acts, n);
      HeldIffLanded(c, init, n, k);
      LaneFacts(c, init, n);
      assert InSync(WorldAfter(c, init), n, LaneAfter(c, init, n));
      hide CallRun, WorldAfter, LaneAfter, LaneEvents, Held, BringsAct, OnLane, ActEvents, LaneOk, KeyInv, Inv, InSync, Can;
      ActHolds(c, WorldAfter(c, init), acts[|acts| - 1], n, LaneAfter(c, init, n), k);
    }
  }

  /**
   * What arrives in time is played: on a matched lane, a frame that the cursor has passed was
   * played exactly if some act of the call delivered a packet of it that landed before that,
   * while fewer than eight frames waited.
   */
  lemma VoiceInTimeIsPlayed(c: Config, acts: seq<Act>, n: Lane, k: int)
    requires ValidConfig(c) && CallRun(c, acts) && Within(c, n) && Matched(TheRoll(c, WorldAfter(c, acts)), n)
    requires Passed(LaneAfter(c, acts, n).playout.cursor, k)
    ensures WasPlayed(LaneAfter(c, acts, n), k) <==> Landed(c, acts, n, k)
  {
    LaneIsAudioRun(c, acts, n);
    LinkIsValid(c, n);
    hide *;
    HeldIffLanded(c, acts, n, k);
    PlayedExactly(LinkOf(c, n), LaneEvents(c, acts, n), k);
    HeldExactly(LinkOf(c, n), LaneEvents(c, acts, n), k);
  }

  /**
   * Exactly when a packet is heard: it decodes, it was sealed under the passphrase or its
   * receiver holds the per-peer key, and its counter was never accepted on this lane in its
   * context and is fewer than 64 below everything that was.
   */
  lemma VoiceIsHeardExactly(c: Config, acts: seq<Act>, n: Lane, f: Flight, decodes: bool)
    requires ValidConfig(c) && CallRun(c, acts) && Within(c, n) && Matched(TheRoll(c, WorldAfter(c, acts)), n)
    requires f in LaneAfter(c, acts, n).air && n.from in WorldAfter(c, acts).tables[n.dst].peers
    ensures var (t, r, l) := (WorldAfter(c, acts).tables[n.dst], LaneAfter(c, acts, n).receiver, LinkOf(c, n));
            var pair := f.packet.body.key == l.pair.key;
            Lands(SideLink(c, t, n.from), r, f.packet, decodes) <==>
              && decodes
              && (pair ==> t.peers[n.from].kxReceived && t.peers[n.from].context.Some?)
              && Replay.Admissible(Taken(l, LaneEvents(c, acts, n), pair), f.packet.header.counter)
  {
    var w, l, p := WorldAfter(c, acts), LinkOf(c, n), LaneAfter(c, acts, n);
    LaneFacts(c, acts, n);
    LaneIsAudioRun(c, acts, n);
    LinkIsValid(c, n);
    assert ReceiverSync(w.tables[n.dst], n.from, p.receiver);
    hide CallRun, WorldAfter, LaneAfter, LaneEvents, KeyInv, Inv, RollOf, LinkOf, Matched, InSync, AirOk, Lands, Taken, SideLink,
      PathAfter, TimelyRun, ValidLink, RunsTo;
    LandsExactly(l, LaneEvents(c, acts, n), f, decodes);
    ReceiverSide(c, w, n);
    HearAlike(l, SideLink(c, w.tables[n.dst], n.from), p, f, decodes);
  }

  // ---------------------------------------------------------------------
  // Audio state follows the tables.
  // ---------------------------------------------------------------------

  /**
   * At every node: audio for an entry is sealed under the per-peer key exactly if the entry has
   * both offers and a context, and that key is tried exactly if the entry has received one.
   */
  lemma AudioFollowsTables(c: Config, acts: seq<Act>, n: Lane)
    requires ValidConfig(c) && CallRun(c, acts) && Within(c, n)
    ensures var (w, p) := (WorldAfter(c, acts), LaneAfter(c, acts, n));
            && (n.to in w.tables[n.src].peers ==>
                  (UsesPair(p.sender) <==> Upgraded(w.tables[n.src].peers[n.to])))
            && (n.from in w.tables[n.dst].peers ==>
                  var peer := w.tables[n.dst].peers[n.from];
                  p.receiver.upgraded <==> peer.kxReceived && peer.context.Some?)
  {
    LaneFacts(c, acts, n);
    hide CallRun, WorldAfter, LaneAfter, LaneEvents, KeyInv, Inv, RollOf, LinkOf, Matched, AirOk;
  }

  /** What an act does to the passphrase context's counter at node x. */
  ghost function SharedCounterAfter(c: Config, w: World, act: Act, x: SocketAddr, n: u32): u32
    requires w.tables.Keys == c.secrets.Keys && Can(c, w, act)
  {
    match act
    case Control(s) => if x == Actor(s) && ReadsList(c, s) then 0 else n
    case Talk(a, id, _) => if x == a && !Upgraded(w.tables[a].peers[id]) then Reserve(n).0 else n
    case Beat(a) => if x == a then Reserve(n).0 else n
    case _ => n
  }

  lemma EventOnCounter(l: Link, p: Path, e: AudioEvent)
    ensures var (n, n') := (p.sender.sharedCounter, Advance(l, p, e).sender.sharedCounter);
            n' == if e.RenewShared? then 0
                  else if e.UseSharedCounter? || (e.Speak? && !UsesPair(p.sender)) then Reserve(n).0
                  else n
  {
    hide OpenAudio, MakeAudio;
  }

  lemma OutOnCounter(c: Config, s: Step, t: Table, id: u8, p: Path)
    requires Actor(s) in c.secrets
    ensures AdvanceAll(NO_LINK, p, OutEvents(c, s, t, id)).sender.sharedCounter
            == if ReadsList(c, s) then 0 else p.sender.sharedCounter
  {
    AdvanceOne(NO_LINK, p, SenderOffers);
    AdvanceOne(NO_LINK, p, RenewShared);
    AdvanceOne(NO_LINK, p, SenderGetsKey);
    AdvanceOne(NO_LINK, Advance(NO_LINK, p, SenderGetsKey), SenderOffers);
    AdvanceJoined(NO_LINK, p, [SenderGetsKey], [SenderOffers]);
    assert [SenderGetsKey] + [SenderOffers] == [SenderGetsKey, SenderOffers];
    hide AdvanceAll, KeyTaken, ListRead, SendAudio, ReceiveAudio, Lands;
  }

  lemma ControlOnCounter(c: Config, w: World, s: Step, n: Lane, p: Path)
    requires Inv(c, w) && w.tables.Keys == c.secrets.Keys && Can(c, w, Control(s)) && Within(c, n) && InSync(w, n, p)
    ensures OnLane(c, w, Control(s), n, p).sender.sharedCounter
            == SharedCounterAfter(c, w, Control(s), n.src, p.sender.sharedCounter)
  {
    var outs, ins := OutsOf(c, w, s, n), InsOf(c, w, s, n);
    var q := AdvanceAll(NO_LINK, p, outs);
    ControlOuts(c, w, s, n, p);
    HalvesApart(NO_LINK, p, outs);
    ControlIns(c, w, s, n, q);
    HalvesApart(NO_LINK, q, ins);
    AdvanceJoined(NO_LINK, p, outs, ins);
    if n.src == Actor(s) { OutOnCounter(c, s, w.tables[n.src], n.to, p); } else { NoEvents(p); }
    hide Inv, Enabled, InSync, AdvanceAll, OutEvents, InEvents, AllOut, AllIn, ReadsList, Next, SenderSync, ReceiverSync;
  }

  /** What an audio act's event, if it has one on the lane, does to the counter. */
  lemma AudioOnCounter(c: Config, w: World, act: Act, n: Lane, p: Path)
    requires w.tables.Keys == c.secrets.Keys && Can(c, w, act) && !act.Control? && n.src in w.tables
    requires SenderSync(w.tables[n.src], n.to, p.sender)
    ensures var (es, m) := (ActEvents(c, w, act, n), p.sender.sharedCounter);
            SharedCounterAfter(c, w, act, n.src, m)
            == if es != [] && (es[0].UseSharedCounter? || (es[0].Speak? && !UsesPair(p.sender))) then Reserve(m).0 else m
    ensures ActEvents(c, w, act, n) != [] ==> !ActEvents(c, w, act, n)[0].RenewShared?
  {
    hide Reserve, SideLink;
  }

  lemma ActOnCounter(c: Config, w: World, act: Act, n: Lane, p: Path)
    requires Inv(c, w) && w.tables.Keys == c.secrets.Keys && Can(c, w, act) && Within(c, n) && InSync(w, n, p)
    ensures OnLane(c, w, act, n, p).sender.sharedCounter
            == SharedCounterAfter(c, w, act, n.src, p.sender.sharedCounter)
  {
    assert n.src in w.tables && SenderSync(w.tables[n.src], n.to, p.sender);
    hide *;
    if act.Control? {
      ControlOnCounter(c, w, act.step, n, p);
    } else {
      var l, es := ActLink(c, w, act), ActEvents(c, w, act, n);
      AudioActIs(c, w, act, n, p);
      AudioOnCounter(c, w, act, n, p);
      if es != [] { EventOnCounter(l, p, es[0]); }
    }
  }

  /** All lanes of a node count with its one passphrase context. */
  lemma {:induction false} OneSharedCounter(c: Config, acts: seq<Act>, n: Lane, m: Lane)
    requires ValidConfig(c) && CallRun(c, acts) && Within(c, n) && Within(c, m) && n.src == m.src
    ensures LaneAfter(c, acts, n).sender.sharedCounter == LaneAfter(c, acts, m).sender.sharedCounter
    decreases |acts|
  {
    if acts != [] {
      var init, act := acts[..|acts| - 1], acts[|acts| - 1];
      Unfolds(c, acts, n);
      Unfolds(c, acts, m);
      OneSharedCounter(c, init, n, m);
      LaneFacts(c, init, n);
      LaneFacts(c, init, m);
      var w := WorldAfter(c, init);
      assert InSync(w, n, LaneAfter(c, init, n)) && InSync(w, m, LaneAfter(c, init, m));
      hide *;
      ActOnCounter(c, w, act, n, LaneAfter(c, init, n));
      ActOnCounter(c, w, act, m, LaneAfter(c, init, m));
    }
  }

  // ---------------------------------------------------------------------
  // Lanes are views of peer entries.
  // ---------------------------------------------------------------------

  predicate SameOut(p: Path, q: Path) { p.sender == q.sender && p.air == q.air }

  predicate SameIn(p: Path, q: Path) {
    p.receiver == q.receiver && p.played == q.played && p.playout == q.playout && p.positions == q.positions
  }

  predicate OutEvent(e: AudioEvent) {
    e.Speak? || e.UseSharedCounter? || e.RenewShared? || e.SenderOffers? || e.SenderGetsKey?
  }

  /** Every event concerns one half of a lane and looks at no more than that half. */
  lemma EventHalves(l: Link, p: Path, q: Path, e: AudioEvent)
    ensures OutEvent(e) ==> SameIn(p, Advance(l, p, e)) && (SameOut(p, q) ==> SameOut(Advance(l, p, e), Advance(l, q, e)))
    ensures !OutEvent(e) ==> SameOut(p, Advance(l, p, e)) && (SameIn(p, q) ==> SameIn(Advance(l, p, e), Advance(l, q, e)))
  {
    hide SendAudio, ReceiveAudio, Lands, OpenAudio;
  }

  /** The events of one half. */
  ghost function Half(es: seq<AudioEvent>, out: bool): seq<AudioEvent> {
    if es == [] then [] else (if OutEvent(es[0]) == out then [es[0]] else []) + Half(es[1..], out)
  }

  ghost predicate SameHalf(p: Path, q: Path, out: bool) { if out then SameOut(p, q) else SameIn(p, q) }

  /** The other half's events can be left out. */
  lemma {:induction false} HalfIsEnough(l: Link, p: Path, q: Path, es: seq<AudioEvent>, out: bool)
    requires SameHalf(p, q, out)
    ensures SameHalf(AdvanceAll(l, p, es), AdvanceAll(l, q, Half(es, out)), out)
    decreases |es|
  {
    if es != [] {
      var e, rest := es[0], es[1..];
      EventHalves(l, p, q, e);
      if OutEvent(e) == out {
        assert Half(es, out)[0] == e && Half(es, out)[1..] == Half(rest, out);
        hide Advance, OutEvent, Half;
        HalfIsEnough(l, Advance(l, p, e), Advance(l, q, e), rest, out);
      } else {
        assert Half(es, out) == Half(rest, out);
        hide Advance, OutEvent, Half;
        HalfIsEnough(l, Advance(l, p, e), q, rest, out);
      }
    }
  }

  /** Lanes that share an entry see the same events of it. */
  ghost predicate Shares(n: Lane, m: Lane, out: bool) {
    if out then n.src == m.src && n.to == m.to else n.dst == m.dst && n.from == m.from
  }

  lemma {:induction false} HalfJoined(ds: seq<AudioEvent>, es: seq<AudioEvent>, out: bool)
    ensures Half(ds + es, out) == Half(ds, out) + Half(es, out)
    decreases |ds|
  {
    hide OutEvent;
    if ds == [] {
      assert ds + es == es;
    } else {
      assert (ds + es)[1..] == ds[1..] + es;
      HalfJoined(ds[1..], es, out);
    }
  }

  lemma {:induction false} HalfPure(es: seq<AudioEvent>, out: bool, mine: bool)
    requires forall k | 0 <= k < |es| :: OutEvent(es[k]) == mine
    ensures Half(es, out) == if out == mine then es else []
    decreases |es|
  {
    if es != [] {
      HalfPure(es[1..], out, mine);
      assert [es[0]] + es[1..] == es;
    }
  }

  lemma ControlHalves(c: Config, w: World, s: Step, n: Lane)
    requires w.tables.Keys == c.secrets.Keys && Enabled(c, w, s)
    ensures forall k | 0 <= k < |OutsOf(c, w, s, n)| :: OutEvent(OutsOf(c, w, s, n)[k])
    ensures forall k | 0 <= k < |InsOf(c, w, s, n)| :: !OutEvent(InsOf(c, w, s, n)[k])
  {
    hide KeyTaken, ListRead, Enabled;
  }

  lemma HalfOfControl(c: Config, w: World, s: Step, n: Lane, out: bool)
    requires w.tables.Keys == c.secrets.Keys && Can(c, w, Control(s))
    ensures Half(ActEvents(c, w, Control(s), n), out) == if out then OutsOf(c, w, s, n) else InsOf(c, w, s, n)
  {
    var outs, ins := OutsOf(c, w, s, n), InsOf(c, w, s, n);
    ControlHalves(c, w, s, n);
    hide OutsOf, InsOf, Half, OutEvent, Enabled;
    HalfJoined(outs, ins, out);
    HalfPure(outs, out, true);
    HalfPure(ins, out, false);
  }

  lemma SharedEvents(c: Config, w: World, act: Act, n: Lane, m: Lane, out: bool)
    requires w.tables.Keys == c.secrets.Keys && Can(c, w, act) && Shares(n, m, out)
    ensures Half(ActEvents(c, w, act, n), out) == Half(ActEvents(c, w, act, m), out)
  {
    if act.Control? {
      HalfOfControl(c, w, act.step, n, out);
      HalfOfControl(c, w, act.step, m, out);
      hide ActEvents, Half, OutEvents, InEvents, Enabled;
    } else if out == (act.Talk? || act.Beat?) {
      assert ActEvents(c, w, act, n) == ActEvents(c, w, act, m);
      hide ActEvents, Half;
    } else {
      HalfPure(ActEvents(c, w, act, n), out, !out);
      HalfPure(ActEvents(c, w, act, m), out, !out);
      hide ActEvents, Half;
    }
  }

  /**
   * A lane adds nothing to the two entries it looks at: lanes that share the sending entry
   * have the same sender and packets, and lanes that share the receiving entry the same
   * filters, buffer and played frames.
   */
  lemma {:induction false} LanesAreViews(c: Config, acts: seq<Act>, n: Lane, m: Lane, out: bool)
    requires ValidConfig(c) && CallRun(c, acts) && Shares(n, m, out)
    ensures SameHalf(LaneAfter(c, acts, n), LaneAfter(c, acts, m), out)
    decreases |acts|
  {
    if acts != [] {
      var init, act := acts[..|acts| - 1], acts[|acts| - 1];
      Unfolds(c, acts, n);
      Unfolds(c, acts, m);
      LanesAreViews(c, init, n, m, out);
      var w, p, q := WorldAfter(c, init), LaneAfter(c, init, n), LaneAfter(c, init, m);
      hide CallRun, WorldAfter, LaneAfter, LaneEvents, ActEvents, ActLink, AdvanceAll, Half, Can, After, Shares;
      SharedEvents(c, w, act, n, m, out);
      HalfIsEnough(ActLink(c, w, act), p, q, ActEvents(c, w, act, n), out);
      HalfIsEnough(ActLink(c, w, act), q, q, ActEvents(c, w, act, m), out);
    }
  }

  // ---------------------------------------------------------------------
  // One-sided upgrades.
  // ---------------------------------------------------------------------

  /** The step delivers an offer of peer i to node b, which has an entry for it. */
  ghost predicate DeliversOffer(w: World, s: Step, b: SocketAddr, i: u8) {
    && s.Deliver? && s.msg.dst == b && b in w.tables && i in w.tables[b].peers
    && s.msg.packet.header.pktType == PKT_KEY_EXCHANGE && s.msg.packet.header.peerId == i
  }

  /** Some step of the run has done so. */
  ghost predicate OfferDelivered(c: Config, steps: seq<Step>, b: SocketAddr, i: u8)
    requires Legal(c, steps)
    decreases |steps|
  {
    steps != []
    && var init := steps[..|steps| - 1];
       OfferDelivered(c, init, b, i) || DeliversOffer(Run(c, init), steps[|steps| - 1], b, i)
  }

  predicate Holds(t: Table, i: u8) { i in t.peers && t.peers[i].context.Some? }

  lemma HoldsAfter(c: Config, s: Step, a: SocketAddr, t: Table, t': Table, i: u8)
    requires a in c.secrets && Actor(s) == a && StepDoes(c, s, a, t, t')
    ensures Holds(t', i) <==> Holds(t, i) || (TakesKey(c, s, t) && s.msg.packet.header.peerId == i)
  {
    hide KeyTaken, PairContext;
  }

  lemma HoldsNext(c: Config, w: World, s: Step, b: SocketAddr, i: u8)
    requires Inv(c, w) && w.tables.Keys == c.secrets.Keys && Enabled(c, w, s) && b in w.tables
    ensures Holds(Next(c, w, s).tables[b], i) <==> Holds(w.tables[b], i) || DeliversOffer(w, s, b, i)
  {
    var a := Actor(s);
    ActorAnswers(c, w, s);
    if b == a {
      StepDoesIt(c, w, s);
      if s.Deliver? && s.msg.packet.header.pktType == PKT_KEY_EXCHANGE {
        NodeFacts(c, w, a);
        MsgFacts(c, w, s.msg);
        KeyTakenIs(c, TheRoll(c, w), a, w.tables[a], s.msg);
        if s.msg.packet.header.peerId in w.tables[a].peers { HasIdentity(c, w, a); }
      }
      hide Inv, Enabled, Next, Answer, StepDoes, NodeOk, MsgOk, RollOf, RollOk, RollIsHosts, KeyTaken, PairContext, Holds, OneId;
      HoldsAfter(c, s, a, w.tables[a], Next(c, w, s).tables[a], i);
    } else {
      hide Inv, Enabled, Next, Answer, Holds;
    }
  }

  /** Over every run: a node holds a context for a peer exactly if an offer of that peer was delivered to it. */
  lemma {:induction false} HoldsExactly(c: Config, steps: seq<Step>, b: SocketAddr, i: u8)
    requires ValidConfig(c) && Legal(c, steps) && b in c.secrets
    ensures Holds(Run(c, steps).tables[b], i) <==> OfferDelivered(c, steps, b, i)
    decreases |steps|
  {
    if steps != [] {
      var init := steps[..|steps| - 1];
      HoldsExactly(c, init, b, i);
      RunKeepsInv(c, init);
      HoldsNext(c, Run(c, init), steps[|steps| - 1], b, i);
      hide Inv, Enabled, Next, DeliversOffer, Holds;
    }
  }

  /**
   * Exactly when audio sealed under the per-peer key opens: when the sender's own offer has
   * been delivered. Node a holds a context for b, and files it under j; b files a under i; the
   * host has admitted both once. Whether it is then heard is up to the filter: see
   * VoiceIsHeardExactly.
   */
  lemma UpgradedOpensExactly(c: Config, steps: seq<Step>, a: SocketAddr, j: u8, b: SocketAddr, i: u8,
                             h: Header, opus: Opus)
    requires ValidConfig(c) && Legal(c, steps)
    requires var w := Run(c, steps);
             && OneId(TheRoll(c, w), a) && OneId(TheRoll(c, w), b)
             && Files(w, a, j, b) && Files(w, b, i, a) && w.tables[a].peers[j].context.Some?
    ensures var (mine, t) := (Run(c, steps).tables[a].peers[j].context.value, Run(c, steps).tables[b]);
            OpenAudio(SideLink(c, t, i), t.peers[i].context.Some?, AudioPacket(h, Encrypt(mine, h, opus)))
            == if OfferDelivered(c, steps, b, i) then Some((opus, true)) else None
  {
    var w := Run(c, steps);
    RunKeepsKeyInv(c, steps);
    assert w.tables.Keys == c.secrets.Keys && Inv(c, w) && KeysOk(c, a, w.tables[a]);
    HoldsExactly(c, steps, b, i);
    EntryFacts(c, w, a, j);
    EntryFacts(c, w, b, i);
    KeysAgree(c, steps, a, j, b, i, h, opus);
    var mine, side := w.tables[a].peers[j].context.value, SideLink(c, w.tables[b], i);
    PairContextAgrees(c, a, b, w.tables[a].localId, j);
    hide KeyInv, Inv, Run, Legal, OfferDelivered, PairContext, RollOf, OneId;
    DecryptExactly(mine, h, opus, side.shared, h);
    DecryptExactly(mine, h, opus, side.pair, h);
    hide Decrypt, Encrypt;
  }
}
