/**
 * The mesh and the audio between its nodes in one run. Control packets change the peer
 * tables and, with them, the audio state of the entries they concern; audio is sent, received
 * and played under the keys, ids and flags that the tables hold at that moment.
 */
module Conference {
  import opened Words
  import opened Wire
  import opened Crypto
  import opened PeerListCodec
  import opened PeerTable
  import opened Handshake
  import opened Mesh
  import opened MeshAgreement
  import opened MeshReached
  import opened MeshConnected
  import opened AudioPath
  import Jitter
  import Playout

  /** `entry` is the peer entry at the source for which a packet was sealed. */
  datatype Act =
    | Control(step: Step)
    | Talk(who: SocketAddr, id: u8, opus: Opus)
    | Beat(who: SocketAddr) // a keepalive, ping or pong
    | Listen(src: SocketAddr, entry: u8, dst: SocketAddr, flight: Flight, decodes: bool)
    | PlayOut(who: SocketAddr, id: u8)
    | Tune(who: SocketAddr, id: u8, dt: real)

  /**
   * Audio state belongs to peer entries. A lane looks at two of them together: the sending
   * half of node src's entry `to`, and the receiving half of node dst's entry `from`.
   */
  datatype Lane = Lane(src: SocketAddr, to: u8, dst: SocketAddr, from: u8)

  /** What a node knows of the link to or from its peer: its session, the peer's context, its own id. */
  function SideLink(c: Config, t: Table, id: u8): Link
    requires id in t.peers
  {
    var shared := Context(c.psk, t.session);
    Link(shared, if t.peers[id].context.Some? then t.peers[id].context.value else shared, t.localId)
  }

  /** For events that touch no packet. */
  const NO_LINK := Link(Context(Psk(0), NO_SESSION), Context(Psk(0), NO_SESSION), 0)

  predicate Silent(e: AudioEvent) { !e.Speak? && !e.Hear? }

  ghost predicate AllSilent(es: seq<AudioEvent>) { forall k | 0 <= k < |es| :: Silent(es[k]) }

  /** Per-peer audio is sealed with the peer's own key. */
  predicate Upgraded(p: Peer) { p.kxSent && p.kxReceived && p.context.Some? }

  // ---------------------------------------------------------------------
  // What an act does to a lane.
  // ---------------------------------------------------------------------

  /** The node at which a control step happens. */
  function Actor(s: Step): SocketAddr {
    match s
    case SendJoin(a, _) => a
    case Deliver(m, _, _) => m.dst
    case Silence(a, _) => a
    case OfferKey(a, _) => a
  }

  /** The step delivers an offer that is taken (and answered, if no offer was sent before). */
  predicate TakesKey(c: Config, s: Step, t: Table)
    requires Actor(s) in c.secrets
  {
    s.Deliver? && s.msg.packet.header.pktType == PKT_KEY_EXCHANGE && KeyTaken(Me(c, s.msg.dst), t, s.msg.packet).Some?
  }

  /** The step delivers a peer list that is read. */
  predicate ReadsList(c: Config, s: Step)
    requires Actor(s) in c.secrets
  {
    s.Deliver? && s.msg.packet.header.pktType == PKT_PEER_LIST && ListRead(Me(c, s.msg.dst), s.msg.packet).Some?
  }

  /** What a control step does to the sending half of entry id at its node, which has table t. */
  function OutEvents(c: Config, s: Step, t: Table, id: u8): seq<AudioEvent>
    requires Actor(s) in c.secrets
  {
    if s.OfferKey? then if s.id == id && id in t.peers then [SenderOffers] else []
    else if TakesKey(c, s, t) then
      if s.msg.packet.header.peerId == id then [SenderGetsKey, SenderOffers] else []
    else if ReadsList(c, s) then [RenewShared]
    else []
  }

  /** And to the receiving half. */
  function InEvents(c: Config, s: Step, t: Table, id: u8): seq<AudioEvent>
    requires Actor(s) in c.secrets
  {
    if TakesKey(c, s, t) && s.msg.packet.header.peerId == id then [ReceiverGetsKey] else []
  }

  /** The same for a lane, whose two halves may be at other nodes. */
  ghost function OutsOf(c: Config, w: World, s: Step, n: Lane): seq<AudioEvent>
    requires w.tables.Keys == c.secrets.Keys && Enabled(c, w, s)
  {
    if n.src == Actor(s) then OutEvents(c, s, w.tables[n.src], n.to) else []
  }

  ghost function InsOf(c: Config, w: World, s: Step, n: Lane): seq<AudioEvent>
    requires w.tables.Keys == c.secrets.Keys && Enabled(c, w, s)
  {
    if n.dst == Actor(s) then InEvents(c, s, w.tables[n.dst], n.from) else []
  }

  ghost function ActEvents(c: Config, w: World, act: Act, n: Lane): seq<AudioEvent>
    requires w.tables.Keys == c.secrets.Keys && Can(c, w, act)
  {
    match act
    case Control(s) =>
      OutsOf(c, w, s, n) + InsOf(c, w, s, n)
    case Talk(a, id, opus) =>
      if n.src != a then []
      else if n.to == id then [Speak(opus)]
      else if Upgraded(w.tables[a].peers[id]) then []
      else [UseSharedCounter]
    case Beat(a) => if n.src == a then [UseSharedCounter] else []
    case Listen(_, _, b, f, decodes) =>
      // the entry is the one the header names
      if n.dst == b && n.from == f.packet.header.peerId && n.from in w.tables[b].peers then [Hear(f, decodes)] else []
    case PlayOut(b, id) => if n.dst == b && n.from == id then [PlayFrame] else []
    case Tune(b, id, dt) => if n.dst == b && n.from == id then [Adjust(dt)] else []
  }

  /** Sealing and opening use what the acting node's table says. */
  ghost function ActLink(c: Config, w: World, act: Act): Link
    requires w.tables.Keys == c.secrets.Keys && Can(c, w, act)
  {
    match act
    case Talk(a, id, _) => SideLink(c, w.tables[a], id)
    case Listen(_, _, b, f, _) =>
      if f.packet.header.peerId in w.tables[b].peers then SideLink(c, w.tables[b], f.packet.header.peerId) else NO_LINK
    case _ => NO_LINK
  }

  ghost function AdvanceAll(l: Link, p: Path, es: seq<AudioEvent>): Path
    decreases |es|
  {
    if es == [] then p else AdvanceAll(l, Advance(l, p, es[0]), es[1..])
  }

  ghost function OnLane(c: Config, w: World, act: Act, n: Lane, p: Path): Path
    requires w.tables.Keys == c.secrets.Keys && Can(c, w, act)
  {
    AdvanceAll(ActLink(c, w, act), p, ActEvents(c, w, act, n))
  }

  ghost function After(c: Config, w: World, act: Act): (w': World)
    requires w.tables.Keys == c.secrets.Keys && Can(c, w, act)
    ensures w'.tables.Keys == c.secrets.Keys
  {
    if act.Control? then Next(c, w, act.step) else w
  }

  /** The tables allow it. */
  ghost predicate Can(c: Config, w: World, act: Act)
    requires w.tables.Keys == c.secrets.Keys
  {
    match act
    case Control(s) => Enabled(c, w, s)
    case Talk(a, id, _) => a in w.tables && id in w.tables[a].peers && w.tables[a].peers[id].state == Connected
    case Beat(a) => a in w.tables
    case Listen(a, id, b, _, _) =>
      a in w.tables && b in w.tables && id in w.tables[a].peers && w.tables[a].peers[id].addr == b
    case PlayOut(b, id) => b in w.tables && id in w.tables[b].peers && w.tables[b].peers[id].state == Connected
    case Tune(b, id, _) => b in w.tables && id in w.tables[b].peers
  }

  /** The lane that a packet takes: from the entry it was sealed for to the entry its header names. */
  function Route(act: Act): Lane
    requires act.Listen?
  {
    Lane(act.src, act.entry, act.dst, act.flight.packet.header.peerId)
  }

  /** The packet was sent on its lane, and if it lands, it lands in the 16-bit window. */
  ghost predicate Arrives(c: Config, w: World, act: Act, p: Path)
    requires act.Listen? && act.dst in w.tables
  {
    var t, id := w.tables[act.dst], act.flight.packet.header.peerId;
    && act.flight in p.air
    && (id in t.peers ==> Timely(SideLink(c, t, id), p, Hear(act.flight, act.decodes)))
  }

  // ---------------------------------------------------------------------
  // Runs.
  // ---------------------------------------------------------------------

  ghost predicate CallRun(c: Config, acts: seq<Act>)
    requires ValidConfig(c)
    decreases |acts|, 0
  {
    acts == []
    || (var init, last := acts[..|acts| - 1], acts[|acts| - 1];
        && CallRun(c, init) && Can(c, WorldAfter(c, init), last)
        && (last.Listen? ==> Arrives(c, WorldAfter(c, init), last, LaneAfter(c, init, Route(last)))))
  }

  ghost function WorldAfter(c: Config, acts: seq<Act>): (w: World)
    requires ValidConfig(c) && CallRun(c, acts)
    ensures w.tables.Keys == c.secrets.Keys
    decreases |acts|, 1
  {
    if acts == [] then Start(c)
    else After(c, WorldAfter(c, acts[..|acts| - 1]), acts[|acts| - 1])
  }

  ghost function LaneAfter(c: Config, acts: seq<Act>, n: Lane): Path
    requires ValidConfig(c) && CallRun(c, acts)
    decreases |acts|, 1
  {
    if acts == [] then Begin()
    else
      var init := acts[..|acts| - 1];
      OnLane(c, WorldAfter(c, init), acts[|acts| - 1], n, LaneAfter(c, init, n))
  }

  /** Everything that has happened on a lane. */
  ghost function LaneEvents(c: Config, acts: seq<Act>, n: Lane): seq<AudioEvent>
    requires ValidConfig(c) && CallRun(c, acts)
    decreases |acts|, 1
  {
    if acts == [] then []
    else
      var init := acts[..|acts| - 1];
      LaneEvents(c, init, n) + ActEvents(c, WorldAfter(c, init), acts[|acts| - 1], n)
  }

  // ---------------------------------------------------------------------
  // The invariant of a lane.
  // ---------------------------------------------------------------------

  /** The link from x, node i, to y, node j. */
  function LinkFor(c: Config, x: SocketAddr, y: SocketAddr, i: u8, j: u8): Link
    requires x in c.secrets && y in c.secrets
  {
    Link(Context(c.psk, c.session), PairContext(c, x, y, i, j), i)
  }

  predicate Within(c: Config, n: Lane) { n.src in c.secrets && n.dst in c.secrets }

  function LinkOf(c: Config, n: Lane): Link
    requires Within(c, n)
  {
    LinkFor(c, n.src, n.dst, n.from, n.to)
  }

  /** As far as the host has admitted nodes, a goes by i and by nothing else. */
  ghost predicate Fits(roll: Roll, a: SocketAddr, i: u8) { forall k | k in roll :: roll[k] == a <==> k == i }

  /** The two entries of the lane are each other's, and each node has no other id. */
  ghost predicate Matched(roll: Roll, n: Lane) { Fits(roll, n.src, n.from) && Fits(roll, n.dst, n.to) }

  ghost predicate RunsTo(l: Link, es: seq<AudioEvent>, p: Path) { TimelyRun(l, es) && PathAfter(l, es) == p }

  /** The sender's flags are those of its table entry; without an entry there are none. */
  predicate SenderSync(t: Table, id: u8, s: Sender) {
    if id in t.peers then
      && s.kxSent == t.peers[id].kxSent && s.kxReceived == t.peers[id].kxReceived
      && s.pairCounter.Some? == t.peers[id].context.Some?
    else !s.kxSent && !s.kxReceived && s.pairCounter.None?
  }

  /** Likewise the receiver's flag. */
  predicate ReceiverSync(t: Table, id: u8, r: Receiver) {
    r.upgraded == (id in t.peers && t.peers[id].kxReceived && t.peers[id].context.Some?)
  }

  /** Packets carry an id of the node that sent them. */
  ghost predicate AirOk(roll: Roll, src: SocketAddr, air: set<Flight>) {
    forall f | f in air :: f.packet.header.peerId in roll && roll[f.packet.header.peerId] == src
  }

  ghost predicate InSync(w: World, n: Lane, p: Path)
    requires n.src in w.tables && n.dst in w.tables
  {
    SenderSync(w.tables[n.src], n.to, p.sender) && ReceiverSync(w.tables[n.dst], n.from, p.receiver)
  }

  ghost predicate LaneOk(c: Config, w: World, n: Lane, es: seq<AudioEvent>, p: Path)
    requires w.tables.Keys == c.secrets.Keys && Within(c, n) && c.host in c.secrets
  {
    && InSync(w, n, p)
    && AirOk(TheRoll(c, w), n.src, p.air)
    && (Matched(TheRoll(c, w), n) ==> RunsTo(LinkOf(c, n), es, p))
  }

  // ---------------------------------------------------------------------
  // Going on with a run.
  // ---------------------------------------------------------------------

  lemma AdvanceOne(l: Link, p: Path, e: AudioEvent)
    ensures AdvanceAll(l, p, []) == p && AdvanceAll(l, p, [e]) == Advance(l, p, e)
  {
    hide Advance;
    assert [e][1..] == [];
  }

  lemma {:induction false} AdvanceJoined(l: Link, p: Path, ds: seq<AudioEvent>, es: seq<AudioEvent>)
    ensures AdvanceAll(l, p, ds + es) == AdvanceAll(l, AdvanceAll(l, p, ds), es)
    decreases |ds|
  {
    hide Advance;
    if ds == [] {
      assert ds + es == es;
    } else {
      AdvanceJoined(l, Advance(l, p, ds[0]), ds[1..], es);
      assert (ds + es)[1..] == ds[1..] + es;
    }
  }

  lemma RunGoesOn(l: Link, es: seq<AudioEvent>, p: Path, e: AudioEvent)
    requires RunsTo(l, es, p) && Possible(p, e) && Timely(l, p, e)
    ensures RunsTo(l, es + [e], Advance(l, p, e))
  {
    hide Possible, Timely, Advance;
    assert (es + [e])[..|es|] == es;
  }

  lemma SilentAlike(l: Link, l': Link, p: Path, e: AudioEvent)
    requires Silent(e)
    ensures Advance(l, p, e) == Advance(l', p, e)
  {
    hide Jitter.Pop, Playout.Play, Jitter.Adapt, Jitter.Retune;
  }

  /** Silent events need no link. */
  lemma SilentGoesOn(l: Link, l': Link, es: seq<AudioEvent>, p: Path, e: AudioEvent)
    requires RunsTo(l, es, p) && Silent(e)
    ensures RunsTo(l, es + [e], Advance(l', p, e))
  {
    SilentAlike(l, l', p, e);
    hide RunsTo, Advance;
    RunGoesOn(l, es, p, e);
  }

  lemma {:induction false} SilentRunsOn(l: Link, l': Link, es: seq<AudioEvent>, p: Path, more: seq<AudioEvent>)
    requires RunsTo(l, es, p) && AllSilent(more)
    ensures RunsTo(l, es + more, AdvanceAll(l', p, more))
    decreases |more|
  {
    hide RunsTo, Advance, Silent;
    if more == [] {
      assert es + more == es;
    } else {
      var e, rest := more[0], more[1..];
      var longer := es + [e];
      assert longer + rest == es + more;
      assert Silent(e) && AllSilent(rest);
      hide AllSilent;
      SilentGoesOn(l, l', es, p, e);
      SilentRunsOn(l, l', longer, Advance(l', p, e), rest);
    }
  }

  /** Sending looks only at parts of the link on which the sender's side is right. */
  lemma SpeakAlike(l: Link, l': Link, p: Path, opus: Opus)
    requires l.shared == l'.shared && l.sender == l'.sender && (p.sender.pairCounter.Some? ==> l.pair == l'.pair)
    ensures Advance(l, p, Speak(opus)) == Advance(l', p, Speak(opus))
  {
    hide MakeAudio;
  }

  /** Receiving looks only at parts of the link on which the receiver's side is right. */
  lemma HearAlike(l: Link, l': Link, p: Path, f: Flight, decodes: bool)
    requires l.shared == l'.shared && (p.receiver.upgraded ==> l.pair == l'.pair)
    ensures Advance(l, p, Hear(f, decodes)) == Advance(l', p, Hear(f, decodes))
    ensures Timely(l, p, Hear(f, decodes)) <==> Timely(l', p, Hear(f, decodes))
    ensures Lands(l, p.receiver, f.packet, decodes) <==> Lands(l', p.receiver, f.packet, decodes)
  {
    assert OpenAudio(l, p.receiver.upgraded, f.packet) == OpenAudio(l', p.receiver.upgraded, f.packet);
    hide OpenAudio, Playout.Arrive, Jitter.Push, Filtered, Playout.InWindow;
  }

  // ---------------------------------------------------------------------
  // Ids and links.
  // ---------------------------------------------------------------------

  lemma FitsIsOneId(roll: Roll, a: SocketAddr, i: u8)
    requires Fits(roll, a, i)
    ensures OneId(roll, a)
  {
  }

  lemma FitsBefore(roll: Roll, roll': Roll, a: SocketAddr, i: u8)
    requires Extends(roll, roll') && Fits(roll', a, i)
    ensures Fits(roll, a, i)
  {
  }

  /** What a table entry says in terms of the roll. */
  lemma EntryFacts(c: Config, w: World, a: SocketAddr, id: u8)
    requires Inv(c, w) && a in w.tables && id in w.tables[a].peers
    ensures a in c.secrets && c.host in w.tables && w.tables.Keys == c.secrets.Keys
    ensures var t, roll := w.tables[a], TheRoll(c, w);
            && t.session == c.session
            && t.localId in roll && roll[t.localId] == a
            && id in roll && roll[id] == t.peers[id].addr && t.peers[id].addr in c.secrets
  {
    NodeFacts(c, w, a);
    HasIdentity(c, w, a);
  }

  /** The side of a matched lane's sender describes the lane's link. */
  lemma SenderSide(c: Config, w: World, n: Lane)
    requires KeyInv(c, w) && Within(c, n) && n.src in w.tables && n.to in w.tables[n.src].peers
    requires c.host in w.tables && Matched(TheRoll(c, w), n)
    ensures var (t, l) := (w.tables[n.src], LinkOf(c, n));
            var side := SideLink(c, t, n.to);
            && side.shared == l.shared && side.sender == l.sender
            && (t.peers[n.to].context.Some? ==> side.pair == l.pair)
  {
    EntryFacts(c, w, n.src, n.to);
    FitsIsOneId(TheRoll(c, w), n.src, n.from);
    assert KeysOk(c, n.src, w.tables[n.src]);
    hide KeyInv, RollOf, PairContext, OneId;
  }

  /** And so does the side of its receiver. */
  lemma ReceiverSide(c: Config, w: World, n: Lane)
    requires KeyInv(c, w) && Within(c, n) && n.dst in w.tables && n.from in w.tables[n.dst].peers
    requires c.host in w.tables && Matched(TheRoll(c, w), n)
    ensures var (t, l) := (w.tables[n.dst], LinkOf(c, n));
            var side := SideLink(c, t, n.from);
            && side.shared == l.shared && (t.peers[n.from].context.Some? ==> side.pair == l.pair)
  {
    EntryFacts(c, w, n.dst, n.from);
    FitsIsOneId(TheRoll(c, w), n.dst, n.to);
    assert KeysOk(c, n.dst, w.tables[n.dst]);
    PairContextAgrees(c, n.src, n.dst, n.from, n.to);
    hide KeyInv, RollOf, PairContext, OneId;
  }

  /** A packet that reaches the entry of a matched lane was sent on that lane. */
  lemma HeaderSelectsSender(c: Config, w: World, act: Act, n: Lane, air: set<Flight>)
    requires Inv(c, w) && w.tables.Keys == c.secrets.Keys && c.host in w.tables && Can(c, w, act) && act.Listen?
    requires Within(c, n) && Matched(TheRoll(c, w), n) && n.dst == act.dst && n.from == act.flight.packet.header.peerId
    requires AirOk(TheRoll(c, w), act.src, air) && act.flight in air
    ensures Route(act) == n
  {
    EntryFacts(c, w, act.src, act.entry);
    hide Inv, RollOf;
  }

  // ---------------------------------------------------------------------
  // Control steps.
  // ---------------------------------------------------------------------

  lemma ActorAnswers(c: Config, w: World, s: Step)
    requires w.tables.Keys == c.secrets.Keys && Enabled(c, w, s)
    ensures var (a, r) := Answer(c, w, s);
            a == Actor(s) && a in w.tables && Next(c, w, s).tables == w.tables[a := r.table]
  {
    hide Handle, CheckTimeouts, OfferTo, Make;
  }

  ghost predicate AllOut(es: seq<AudioEvent>) {
    forall k | 0 <= k < |es| :: es[k] in {SenderOffers, SenderGetsKey, RenewShared}
  }

  ghost predicate AllIn(es: seq<AudioEvent>) { forall k | 0 <= k < |es| :: es[k] == ReceiverGetsKey }

  /** Outgoing events do not touch the receiving half, nor incoming ones the sending half. */
  lemma {:induction false} HalvesApart(l: Link, p: Path, es: seq<AudioEvent>)
    requires AllOut(es) || AllIn(es)
    ensures var p' := AdvanceAll(l, p, es);
            && p'.air == p.air && p'.played == p.played && p'.positions == p.positions && p'.playout == p.playout
            && (AllOut(es) ==> p'.receiver == p.receiver) && (AllIn(es) ==> p'.sender == p.sender)
    decreases |es|
  {
    if es != [] {
      assert forall k | 0 <= k < |es[1..]| :: es[1..][k] == es[k + 1];
      HalvesApart(l, Advance(l, p, es[0]), es[1..]);
      assert es[0] in {SenderOffers, SenderGetsKey, RenewShared} || es[0] == ReceiverGetsKey;
      hide SendAudio, ReceiveAudio, Lands;
    }
  }

  /** The sending half of an entry follows the table. */
  lemma OutSync(c: Config, s: Step, a: SocketAddr, t: Table, t': Table, id: u8, l: Link, p: Path)
    requires Actor(s) == a && a in c.secrets && StepDoes(c, s, a, t, t') && SenderSync(t, id, p.sender)
    ensures SenderSync(t', id, AdvanceAll(l, p, OutEvents(c, s, t, id)).sender) && AllOut(OutEvents(c, s, t, id))
  {
    AdvanceOne(l, p, SenderOffers);
    AdvanceOne(l, p, RenewShared);
    AdvanceJoined(l, p, [SenderGetsKey], [SenderOffers]);
    AdvanceOne(l, p, SenderGetsKey);
    AdvanceOne(l, Advance(l, p, SenderGetsKey), SenderOffers);
    assert [SenderGetsKey] + [SenderOffers] == [SenderGetsKey, SenderOffers];
    hide AdvanceAll, SendAudio, ReceiveAudio, Lands, KeyTaken, ListRead, PairContext;
  }

  /** And so does the receiving half. */
  lemma InEventsSync(c: Config, s: Step, a: SocketAddr, t: Table, t': Table, id: u8, l: Link, p: Path)
    requires Actor(s) == a && a in c.secrets && StepDoes(c, s, a, t, t') && ReceiverSync(t, id, p.receiver)
    ensures ReceiverSync(t', id, AdvanceAll(l, p, InEvents(c, s, t, id)).receiver) && AllIn(InEvents(c, s, t, id))
  {
    AdvanceOne(l, p, ReceiverGetsKey);
    hide AdvanceAll, SendAudio, ReceiveAudio, Lands, KeyTaken, ListRead, PairContext;
  }

  lemma NoEvents(p: Path)
    ensures AdvanceAll(NO_LINK, p, []) == p && AllOut([]) && AllIn([])
  {
  }

  lemma ControlOuts(c: Config, w: World, s: Step, n: Lane, p: Path)
    requires Inv(c, w) && w.tables.Keys == c.secrets.Keys && Enabled(c, w, s)
    requires Within(c, n) && SenderSync(w.tables[n.src], n.to, p.sender)
    ensures var (outs, t') := (OutsOf(c, w, s, n), Next(c, w, s).tables[n.src]);
            AllOut(outs) && SenderSync(t', n.to, AdvanceAll(NO_LINK, p, outs).sender)
  {
    ActorAnswers(c, w, s);
    StepDoesIt(c, w, s);
    hide Inv, Enabled, Next, Answer, StepDoes, SenderSync, OutEvents, AdvanceAll, AllOut;
    NoEvents(p);
    if n.src == Actor(s) {
      OutSync(c, s, n.src, w.tables[n.src], Next(c, w, s).tables[n.src], n.to, NO_LINK, p);
    }
  }

  lemma ControlIns(c: Config, w: World, s: Step, n: Lane, p: Path)
    requires Inv(c, w) && w.tables.Keys == c.secrets.Keys && Enabled(c, w, s)
    requires Within(c, n) && ReceiverSync(w.tables[n.dst], n.from, p.receiver)
    ensures var (ins, t') := (InsOf(c, w, s, n), Next(c, w, s).tables[n.dst]);
            AllIn(ins) && ReceiverSync(t', n.from, AdvanceAll(NO_LINK, p, ins).receiver)
  {
    ActorAnswers(c, w, s);
    StepDoesIt(c, w, s);
    hide Inv, Enabled, Next, Answer, StepDoes, ReceiverSync, InEvents, AdvanceAll, AllIn;
    NoEvents(p);
    if n.dst == Actor(s) {
      InEventsSync(c, s, n.dst, w.tables[n.dst], Next(c, w, s).tables[n.dst], n.from, NO_LINK, p);
    }
  }

  lemma OutInSilent(outs: seq<AudioEvent>, ins: seq<AudioEvent>)
    requires AllOut(outs) && AllIn(ins)
    ensures AllSilent(outs + ins)
  {
  }

  lemma ControlSync(c: Config, w: World, s: Step, n: Lane, p: Path)
    requires Inv(c, w) && w.tables.Keys == c.secrets.Keys && Enabled(c, w, s)
    requires Within(c, n) && InSync(w, n, p)
    ensures var es := OutsOf(c, w, s, n) + InsOf(c, w, s, n);
            var p' := AdvanceAll(NO_LINK, p, es);
            InSync(Next(c, w, s), n, p') && p'.air == p.air && AllSilent(es)
  {
    var outs, ins := OutsOf(c, w, s, n), InsOf(c, w, s, n);
    hide Inv, Enabled, Next, SenderSync, ReceiverSync, OutsOf, InsOf, AdvanceAll, AllOut, AllIn, AllSilent;
    var q := AdvanceAll(NO_LINK, p, outs);
    ControlOuts(c, w, s, n, p);
    HalvesApart(NO_LINK, p, outs);
    ControlIns(c, w, s, n, q);
    HalvesApart(NO_LINK, q, ins);
    AdvanceJoined(NO_LINK, p, outs, ins);
    OutInSilent(outs, ins);
  }

  lemma AirGrows(roll: Roll, roll': Roll, src: SocketAddr, air: set<Flight>)
    requires AirOk(roll, src, air) && Extends(roll, roll')
    ensures AirOk(roll', src, air)
  {
  }

  lemma ControlLane(c: Config, w: World, s: Step, n: Lane, es: seq<AudioEvent>, p: Path)
    requires Inv(c, w) && w.tables.Keys == c.secrets.Keys && Can(c, w, Control(s)) && c.host in c.secrets
    requires Within(c, n) && LaneOk(c, w, n, es, p)
    ensures LaneOk(c, Next(c, w, s), n, es + ActEvents(c, w, Control(s), n), OnLane(c, w, Control(s), n, p))
  {
    var w', more := Next(c, w, s), OutsOf(c, w, s, n) + InsOf(c, w, s, n);
    NextKeepsInv(c, w, s);
    ControlSync(c, w, s, n, p);
    assert ActEvents(c, w, Control(s), n) == more && ActLink(c, w, Control(s)) == NO_LINK;
    hide Inv, Next, RollOf, Extends, InSync, AdvanceAll, ActEvents, ActLink, OutsOf, InsOf, AllSilent, AirOk, RunsTo, Fits,
      LinkOf, Can, Enabled;
    AirGrows(TheRoll(c, w), TheRoll(c, w'), n.src, p.air);
    if Matched(TheRoll(c, w'), n) {
      FitsBefore(TheRoll(c, w), TheRoll(c, w'), n.src, n.from);
      FitsBefore(TheRoll(c, w), TheRoll(c, w'), n.dst, n.to);
      SilentRunsOn(LinkOf(c, n), NO_LINK, es, p, more);
    }
  }

  // ---------------------------------------------------------------------
  // Audio acts.
  // ---------------------------------------------------------------------

  /** Audio events leave the flags alone. */
  lemma SameFlags(l: Link, p: Path, e: AudioEvent)
    requires e.Speak? || e.UseSharedCounter? || e.Hear? || e.PlayFrame? || e.Adjust?
    ensures var p' := Advance(l, p, e);
            && p'.sender.kxSent == p.sender.kxSent && p'.sender.kxReceived == p.sender.kxReceived
            && p'.sender.pairCounter.Some? == p.sender.pairCounter.Some?
            && p'.receiver.upgraded == p.receiver.upgraded
            && (!e.Speak? ==> p'.air == p.air)
  {
    hide OpenAudio, Jitter.Push, Jitter.Pop, Playout.Play, Playout.Arrive, MakeAudio;
  }

  lemma AudioSync(w: World, n: Lane, l: Link, p: Path, e: AudioEvent)
    requires n.src in w.tables && n.dst in w.tables && InSync(w, n, p)
    requires e.Speak? || e.UseSharedCounter? || e.Hear? || e.PlayFrame? || e.Adjust?
    ensures InSync(w, n, Advance(l, p, e)) && (!e.Speak? ==> Advance(l, p, e).air == p.air)
  {
    SameFlags(l, p, e);
    hide Advance;
  }

  lemma SpeakAir(l: Link, p: Path, opus: Opus, roll: Roll, src: SocketAddr)
    requires AirOk(roll, src, p.air) && l.sender in roll && roll[l.sender] == src
    ensures AirOk(roll, src, Advance(l, p, Speak(opus)).air)
  {
  }

  /** An act that touches no packet of the lane. */
  lemma SilentLane(c: Config, w: World, l: Link, n: Lane, es: seq<AudioEvent>, p: Path, e: AudioEvent)
    requires w.tables.Keys == c.secrets.Keys && c.host in c.secrets && Within(c, n) && LaneOk(c, w, n, es, p)
    requires e.UseSharedCounter? || e.PlayFrame? || e.Adjust?
    ensures LaneOk(c, w, n, es + [e], Advance(l, p, e))
  {
    hide InSync, AirOk, RunsTo, Matched, LinkOf, Advance, RollOf;
    AudioSync(w, n, l, p, e);
    if Matched(TheRoll(c, w), n) { SilentGoesOn(LinkOf(c, n), l, es, p, e); }
  }

  lemma TalkLane(c: Config, w: World, n: Lane, es: seq<AudioEvent>, p: Path, opus: Opus)
    requires KeyInv(c, w) && w.tables.Keys == c.secrets.Keys && c.host in c.secrets && Within(c, n)
    requires LaneOk(c, w, n, es, p) && n.to in w.tables[n.src].peers
    ensures LaneOk(c, w, n, es + [Speak(opus)], Advance(SideLink(c, w.tables[n.src], n.to), p, Speak(opus)))
  {
    var roll, side, l := TheRoll(c, w), SideLink(c, w.tables[n.src], n.to), LinkOf(c, n);
    EntryFacts(c, w, n.src, n.to);
    assert side.sender == w.tables[n.src].localId;
    assert p.sender.pairCounter.Some? == w.tables[n.src].peers[n.to].context.Some?;
    hide KeyInv, InSync, AirOk, RunsTo, Matched, LinkOf, SideLink, Advance, RollOf;
    AudioSync(w, n, side, p, Speak(opus));
    SpeakAir(side, p, opus, roll, n.src);
    if Matched(roll, n) {
      SenderSide(c, w, n);
      SpeakAlike(l, side, p, opus);
      RunGoesOn(l, es, p, Speak(opus));
    }
  }

  lemma HearLane(c: Config, w: World, act: Act, n: Lane, es: seq<AudioEvent>, p: Path, sent: Path)
    requires KeyInv(c, w) && w.tables.Keys == c.secrets.Keys && c.host in c.secrets && Within(c, n)
    requires Can(c, w, act) && act.Listen? && LaneOk(c, w, n, es, p) && n.dst == act.dst
    requires n.from == act.flight.packet.header.peerId && n.from in w.tables[n.dst].peers
    requires AirOk(TheRoll(c, w), act.src, sent.air) && Arrives(c, w, act, sent) && (Route(act) == n ==> p == sent)
    ensures LaneOk(c, w, n, es + [Hear(act.flight, act.decodes)],
                   Advance(SideLink(c, w.tables[n.dst], n.from), p, Hear(act.flight, act.decodes)))
  {
    var roll, side, l := TheRoll(c, w), SideLink(c, w.tables[n.dst], n.from), LinkOf(c, n);
    var e := Hear(act.flight, act.decodes);
    assert Inv(c, w);
    assert p.receiver.upgraded ==> w.tables[n.dst].peers[n.from].context.Some?;
    hide KeyInv, Inv, InSync, AirOk, RunsTo, Matched, LinkOf, SideLink, Advance, RollOf, Timely, Can;
    AudioSync(w, n, side, p, e);
    if Matched(roll, n) {
      HeaderSelectsSender(c, w, act, n, sent.air);
      ReceiverSide(c, w, n);
      HearAlike(l, side, p, act.flight, act.decodes);
      RunGoesOn(l, es, p, e);
    }
  }

  /** An act with no event on the lane. */
  lemma NoEventLane(c: Config, w: World, act: Act, n: Lane, es: seq<AudioEvent>, p: Path)
    requires w.tables.Keys == c.secrets.Keys && c.host in c.secrets && Within(c, n) && LaneOk(c, w, n, es, p)
    requires Can(c, w, act) && ActEvents(c, w, act, n) == []
    ensures LaneOk(c, w, n, es + ActEvents(c, w, act, n), OnLane(c, w, act, n, p))
  {
    hide LaneOk, ActEvents, ActLink, Can;
    AdvanceOne(ActLink(c, w, act), p, PlayFrame);
    assert es + [] == es;
  }

  /** An act with one event on the lane. */
  lemma OneEventLane(c: Config, w: World, act: Act, n: Lane, es: seq<AudioEvent>, p: Path, e: AudioEvent)
    requires w.tables.Keys == c.secrets.Keys && c.host in c.secrets && Within(c, n)
    requires Can(c, w, act) && ActEvents(c, w, act, n) == [e]
    requires LaneOk(c, w, n, es + [e], Advance(ActLink(c, w, act), p, e))
    ensures LaneOk(c, w, n, es + ActEvents(c, w, act, n), OnLane(c, w, act, n, p))
  {
    hide LaneOk, ActEvents, ActLink, Can;
    AdvanceOne(ActLink(c, w, act), p, e);
  }

  lemma TalkAct(c: Config, w: World, act: Act, n: Lane, es: seq<AudioEvent>, p: Path)
    requires KeyInv(c, w) && w.tables.Keys == c.secrets.Keys && c.host in c.secrets && Within(c, n)
    requires Can(c, w, act) && act.Talk? && LaneOk(c, w, n, es, p)
    ensures LaneOk(c, w, n, es + ActEvents(c, w, act, n), OnLane(c, w, act, n, p))
  {
    hide KeyInv, LaneOk, OnLane, Advance, Upgraded;
    if n.src == act.who && n.to == act.id {
      TalkLane(c, w, n, es, p, act.opus);
      OneEventLane(c, w, act, n, es, p, Speak(act.opus));
    } else if n.src == act.who && !Upgraded(w.tables[act.who].peers[act.id]) {
      SilentLane(c, w, ActLink(c, w, act), n, es, p, UseSharedCounter);
      OneEventLane(c, w, act, n, es, p, UseSharedCounter);
    } else {
      NoEventLane(c, w, act, n, es, p);
    }
  }

  lemma ListenAct(c: Config, w: World, act: Act, n: Lane, es: seq<AudioEvent>, p: Path, sent: Path)
    requires KeyInv(c, w) && w.tables.Keys == c.secrets.Keys && c.host in c.secrets && Within(c, n)
    requires Can(c, w, act) && act.Listen? && LaneOk(c, w, n, es, p)
    requires AirOk(TheRoll(c, w), act.src, sent.air) && Arrives(c, w, act, sent) && (Route(act) == n ==> p == sent)
    ensures LaneOk(c, w, n, es + ActEvents(c, w, act, n), OnLane(c, w, act, n, p))
  {
    hide KeyInv, LaneOk, OnLane, Advance, AirOk, Arrives, RollOf;
    if n.dst == act.dst && n.from == act.flight.packet.header.peerId && n.from in w.tables[act.dst].peers {
      HearLane(c, w, act, n, es, p, sent);
      OneEventLane(c, w, act, n, es, p, Hear(act.flight, act.decodes));
    } else {
      NoEventLane(c, w, act, n, es, p);
    }
  }

  lemma QuietAct(c: Config, w: World, act: Act, n: Lane, es: seq<AudioEvent>, p: Path)
    requires w.tables.Keys == c.secrets.Keys && c.host in c.secrets && Within(c, n)
    requires Can(c, w, act) && (act.Beat? || act.PlayOut? || act.Tune?) && LaneOk(c, w, n, es, p)
    ensures LaneOk(c, w, n, es + ActEvents(c, w, act, n), OnLane(c, w, act, n, p))
  {
    hide LaneOk, OnLane, Advance;
    var e := match act case Beat(_) => UseSharedCounter case PlayOut(_, _) => PlayFrame case Tune(_, _, dt) => Adjust(dt);
    SilentLane(c, w, NO_LINK, n, es, p, e);
    if ActEvents(c, w, act, n) == [] { NoEventLane(c, w, act, n, es, p); } else { OneEventLane(c, w, act, n, es, p, e); }
  }

  /** Every act but a control step leaves the tables as they are. */
  lemma AudioLane(c: Config, w: World, act: Act, n: Lane, es: seq<AudioEvent>, p: Path, sent: Path)
    requires KeyInv(c, w) && w.tables.Keys == c.secrets.Keys && c.host in c.secrets && Within(c, n)
    requires Can(c, w, act) && !act.Control? && LaneOk(c, w, n, es, p)
    requires act.Listen? ==>
               AirOk(TheRoll(c, w), act.src, sent.air) && Arrives(c, w, act, sent) && (Route(act) == n ==> p == sent)
    ensures LaneOk(c, w, n, es + ActEvents(c, w, act, n), OnLane(c, w, act, n, p))
  {
    hide *;
    match act
    case Talk(_, _, _) => TalkAct(c, w, act, n, es, p);
    case Listen(_, _, _, _, _) => ListenAct(c, w, act, n, es, p, sent);
    case _ => QuietAct(c, w, act, n, es, p);
  }

  // ---------------------------------------------------------------------
  // Every lane, every run.
  // ---------------------------------------------------------------------

  ghost predicate CallInv(c: Config, acts: seq<Act>)
    requires ValidConfig(c) && CallRun(c, acts)
  {
    && KeyInv(c, WorldAfter(c, acts))
    && (forall n | Within(c, n) :: LaneOk(c, WorldAfter(c, acts), n, LaneEvents(c, acts, n), LaneAfter(c, acts, n)))
  }

  lemma StartLanes(c: Config, n: Lane)
    requires ValidConfig(c) && Within(c, n)
    ensures KeyInv(c, Start(c)) && LaneOk(c, Start(c), n, [], Begin())
  {
    StartInv(c);
    assert KeyInv(c, Start(c));
    assert InSync(Start(c), n, Begin()) && AirOk(TheRoll(c, Start(c)), n.src, Begin().air);
    hide KeyInv, Start, LinkOf, RollOf, Matched, InSync, AirOk, Inv;
  }

  lemma Unfolds(c: Config, acts: seq<Act>, n: Lane)
    requires ValidConfig(c) && acts != [] && CallRun(c, acts)
    ensures var init, last := acts[..|acts| - 1], acts[|acts| - 1];
            && CallRun(c, init) && Can(c, WorldAfter(c, init), last)
            && WorldAfter(c, acts) == After(c, WorldAfter(c, init), last)
            && LaneAfter(c, acts, n) == OnLane(c, WorldAfter(c, init), last, n, LaneAfter(c, init, n))
            && LaneEvents(c, acts, n) == LaneEvents(c, init, n) + ActEvents(c, WorldAfter(c, init), last, n)
            && (last.Listen? ==> Arrives(c, WorldAfter(c, init), last, LaneAfter(c, init, Route(last))))
  {
    hide Can, After, OnLane, ActEvents, Arrives, Route;
  }

  lemma WorldStep(c: Config, w: World, act: Act)
    requires KeyInv(c, w) && w.tables.Keys == c.secrets.Keys && Can(c, w, act)
    ensures KeyInv(c, After(c, w, act))
  {
    hide KeyInv, Next, Enabled;
    if act.Control? { NextKeepsKeyInv(c, w, act.step); }
  }

  lemma LaneStep(c: Config, acts: seq<Act>, n: Lane)
    requires ValidConfig(c) && acts != [] && CallRun(c, acts) && CallRun(c, acts[..|acts| - 1])
    requires CallInv(c, acts[..|acts| - 1]) && Within(c, n)
    ensures LaneOk(c, WorldAfter(c, acts), n, LaneEvents(c, acts, n), LaneAfter(c, acts, n))
  {
    var init, act := acts[..|acts| - 1], acts[|acts| - 1];
    var w, es, p := WorldAfter(c, init), LaneEvents(c, init, n), LaneAfter(c, init, n);
    Unfolds(c, acts, n);
    assert LaneOk(c, w, n, es, p) && KeyInv(c, w) && Inv(c, w);
    if act.Control? {
      hide *;
      AfterControl(c, w, act.step);
      ControlLane(c, w, act.step, n, es, p);
    } else {
      AfterAudio(c, w, act);
      var sent := if act.Listen? then LaneAfter(c, init, Route(act)) else p;
      if act.Listen? { assert LaneOk(c, w, Route(act), LaneEvents(c, init, Route(act)), sent); }
      hide CallInv, CallRun, WorldAfter, LaneAfter, LaneEvents, KeyInv, Inv, Arrives, OnLane, ActEvents, InSync, AirOk, RunsTo,
        Matched, After;
      AudioLane(c, w, act, n, es, p, sent);
    }
  }

  lemma AfterControl(c: Config, w: World, s: Step)
    requires w.tables.Keys == c.secrets.Keys && Can(c, w, Control(s))
    ensures After(c, w, Control(s)) == Next(c, w, s)
  {
    hide Next;
  }

  lemma AfterAudio(c: Config, w: World, act: Act)
    requires w.tables.Keys == c.secrets.Keys && Can(c, w, act) && !act.Control?
    ensures After(c, w, act) == w
    ensures act.Listen? ==> act.src in c.secrets && act.dst in c.secrets
  {
  }

  lemma {:induction false} CallKeepsInv(c: Config, acts: seq<Act>)
    requires ValidConfig(c) && CallRun(c, acts)
    ensures CallInv(c, acts)
    decreases |acts|
  {
    if acts == [] {
      forall n | Within(c, n) ensures LaneOk(c, Start(c), n, [], Begin()) { StartLanes(c, n); }
      StartLanes(c, Lane(c.host, 0, c.host, 0));
      hide KeyInv, LaneOk;
    } else {
      var init := acts[..|acts| - 1];
      Unfolds(c, acts, Lane(c.host, 0, c.host, 0));
      CallKeepsInv(c, init);
      WorldStep(c, WorldAfter(c, init), acts[|acts| - 1]);
      forall n | Within(c, n)
        ensures LaneOk(c, WorldAfter(c, acts), n, LaneEvents(c, acts, n), LaneAfter(c, acts, n))
      {
        LaneStep(c, acts, n);
      }
      hide KeyInv, LaneOk, CallRun, WorldAfter, LaneAfter, LaneEvents;
    }
  }
}
