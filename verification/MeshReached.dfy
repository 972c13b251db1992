/**
 * What "connected" means to the other side, over every run of the mesh, JOINs repeated or
 * not: a node that a joiner has Connected has an entry for the joiner's address.
 */
module MeshReached {
  import opened Words
  import opened Wire
  import opened Crypto
  import opened PeerListCodec
  import opened PeerTable
  import opened Handshake
  import opened Mesh
  import opened MeshAgreement

  // ---------------------------------------------------------------------
  // The invariant.
  // ---------------------------------------------------------------------

  /** Node b has a table entry for the node at a. */
  ghost predicate Knows(w: World, b: SocketAddr, a: SocketAddr) {
    b in w.tables && exists id :: id in w.tables[b].peers && w.tables[b].peers[id].addr == a
  }

  predicate Reached(p: Peer) { p.state == Connected || p.state == Disconnected }

  /** Every peer that a joiner has reached knows it. */
  ghost predicate ReachOk(c: Config, w: World, a: SocketAddr, t: Table) {
    a != c.host ==> forall id | id in t.peers && Reached(t.peers[id]) :: Knows(w, t.peers[id].addr, a)
  }

  /** A HELLO or HELLO_ACK comes from a node that knows its addressee. */
  ghost predicate Backed(w: World, m: Msg) {
    m.packet.header.pktType in {PKT_HELLO, PKT_HELLO_ACK} ==> Knows(w, m.src, m.dst)
  }

  ghost predicate ReachInv(c: Config, w: World) {
    && Inv(c, w)
    && (forall a | a in w.tables :: ReachOk(c, w, a, w.tables[a]))
    && (forall m | m in w.net :: Backed(w, m))
  }

  // ---------------------------------------------------------------------
  // Framing.
  // ---------------------------------------------------------------------

  ghost predicate KnowsMore(w: World, w': World) {
    forall x, y | Knows(w, x, y) :: Knows(w', x, y)
  }

  lemma KnowsGrows(w: World, a: SocketAddr, r: Reply, x: SocketAddr, y: SocketAddr)
    requires a in w.tables && Keeps(w.tables[a], r.table) && Knows(w, x, y)
    ensures Knows(Post(w, a, r), x, y)
  {
    var id :| id in w.tables[x].peers && w.tables[x].peers[id].addr == y;
    assert id in Post(w, a, r).tables[x].peers && Post(w, a, r).tables[x].peers[id].addr == y;
  }

  lemma KeepsKnowsMore(w: World, a: SocketAddr, r: Reply)
    requires a in w.tables && Keeps(w.tables[a], r.table)
    ensures KnowsMore(w, Post(w, a, r))
  {
    forall x, y | Knows(w, x, y) ensures Knows(Post(w, a, r), x, y) { KnowsGrows(w, a, r, x, y); }
  }

  /** What a step must show about the node it changes. */
  ghost predicate ReachReply(c: Config, w': World, a: SocketAddr, r: Reply) {
    && ReachOk(c, w', a, r.table)
    && (forall k | 0 <= k < |r.sent| :: Backed(w', Msg(a, r.sent[k].to, r.sent[k].packet)))
  }

  lemma PostKeepsReach(c: Config, w: World, a: SocketAddr, r: Reply)
    requires ReachInv(c, w) && a in w.tables && Keeps(w.tables[a], r.table)
    requires Inv(c, Post(w, a, r)) && ReachReply(c, Post(w, a, r), a, r)
    ensures ReachInv(c, Post(w, a, r))
  {
    var w' := Post(w, a, r);
    KeepsKnowsMore(w, a, r);
    hide Inv, Knows, Keeps;
    forall b | b in w'.tables ensures ReachOk(c, w', b, w'.tables[b]) {
      if b != a { assert ReachOk(c, w, b, w.tables[b]); }
    }
    forall m | m in w'.net ensures Backed(w', m) {
      if m in w.net { assert Backed(w, m); }
    }
  }

  /** Reached peers were reached before, at the same address, except perhaps the peer id. */
  ghost predicate ReachesLike(t: Table, t': Table, except: Option<u8>) {
    forall id | id in t'.peers && Reached(t'.peers[id]) && Some(id) != except ::
      id in t.peers && Reached(t.peers[id]) && t.peers[id].addr == t'.peers[id].addr
  }

  lemma ReachFollows(c: Config, w: World, w': World, a: SocketAddr, t: Table, t': Table, except: Option<u8>)
    requires ReachOk(c, w, a, t) && KnowsMore(w, w') && ReachesLike(t, t', except)
    requires except.Some? && except.value in t'.peers ==> Knows(w', t'.peers[except.value].addr, a)
    ensures ReachOk(c, w', a, t')
  {
    hide Knows;
  }

  /** A step after which at most the peer it names, which knows us, is newly reached. */
  lemma StepReaches(c: Config, w: World, a: SocketAddr, r: Reply, except: Option<u8>)
    requires ReachInv(c, w) && a in w.tables && Keeps(w.tables[a], r.table)
    requires ReachesLike(w.tables[a], r.table, except)
    requires except.Some? && except.value in r.table.peers ==> Knows(w, r.table.peers[except.value].addr, a)
    requires forall k | 0 <= k < |r.sent| :: Backed(Post(w, a, r), Msg(a, r.sent[k].to, r.sent[k].packet))
    ensures ReachReply(c, Post(w, a, r), a, r)
  {
    assert ReachOk(c, w, a, w.tables[a]);
    hide *;
    KeepsKnowsMore(w, a, r);
    var w' := Post(w, a, r);
    assert except.Some? && except.value in r.table.peers ==> Knows(w', r.table.peers[except.value].addr, a) by {
      MoreKnown(w, w');
    }
    ReachFollows(c, w, w', a, w.tables[a], r.table, except);
    ReachReplyIs(c, w', a, r);
  }

  lemma MoreKnown(w: World, w': World)
    requires KnowsMore(w, w')
    ensures forall x, y | Knows(w, x, y) :: Knows(w', x, y)
  {
    hide Knows;
  }

  lemma ReachReplyIs(c: Config, w': World, a: SocketAddr, r: Reply)
    requires ReachOk(c, w', a, r.table)
    requires forall k | 0 <= k < |r.sent| :: Backed(w', Msg(a, r.sent[k].to, r.sent[k].packet))
    ensures ReachReply(c, w', a, r)
  {
    hide ReachOk, Backed;
  }

  // ---------------------------------------------------------------------
  // The steps.
  // ---------------------------------------------------------------------

  lemma NodeFacts(c: Config, w: World, a: SocketAddr)
    requires Inv(c, w) && a in w.tables
    ensures a in c.secrets && ValidConfig(c) && RollOk(c, TheRoll(c, w))
    ensures NodeOk(c, TheRoll(c, w), a, w.tables[a])
    ensures RollIsHosts(c, TheRoll(c, w), a, w.tables[a])
  {
  }

  lemma MsgFacts(c: Config, w: World, m: Msg)
    requires Inv(c, w) && m in w.net
    ensures MsgOk(c, TheRoll(c, w), m)
  {
  }

  lemma ListsAreBacked(w: World, a: SocketAddr, r: Reply)
    requires forall k | 0 <= k < |r.sent| :: r.sent[k].packet.header.pktType == PKT_PEER_LIST
    ensures forall k | 0 <= k < |r.sent| :: Backed(w, Msg(a, r.sent[k].to, r.sent[k].packet))
  {
  }

  /** At the host a JOIN adds one peer at most, and is answered by lists alone. */
  lemma JoinAddsOne(c: Config, t: Table, src: SocketAddr, p: Packet, es: seq<Entry>)
    requires ValidConfig(c) && NodeOk(c, RollOf(c, t), c.host, t)
    ensures var r := HandleJoin(Me(c, c.host), t, src, p, es);
            && (r.table == t || (t.nextPeerId < 5 && r.table == Admit(t, src).0
                && r.table.peers == t.peers[t.nextPeerId := NewPeer(t.nextPeerId, src).(state := Connected)]
                && t.nextPeerId !in t.peers))
            && r.table.localId == t.localId && r.table.session == t.session
            && Keeps(t, r.table)
            && (forall k | 0 <= k < |r.sent| :: r.sent[k].packet.header.pktType == PKT_PEER_LIST)
  {
    AdmitExactly(c, RollOf(c, t), t, src);
    JoinCases(c, t, src, p, es);
    hide HandleJoin, Admit, RollOf, Agrees;
  }

  lemma JoinKeepsReach(c: Config, w: World, s: Step)
    requires ReachInv(c, w) && Enabled(c, w, s) && IsJoin(s)
    ensures ReachInv(c, Next(c, w, s))
  {
    var m := s.msg;
    JoinKeepsInv(c, w, m, s.listed, s.es);
    var t := w.tables[m.dst];
    var r := HandleJoin(Me(c, m.dst), t, m.src, m.packet, s.es);
    assert Next(c, w, s) == Post(w, m.dst, r);
    NodeFacts(c, w, m.dst);
    assert ReachOk(c, w, m.dst, t);
    if m.dst != c.host {
      assert r == Reply(t, []);
    } else {
      JoinAddsOne(c, t, m.src, m.packet, s.es);
      ListsAreBacked(Post(w, m.dst, r), m.dst, r);
    }
    hide ReachInv, Inv, HandleJoin, NodeOk, Enabled, Next, Post, RollOf, RollOk;
    KeepsKnowsMore(w, m.dst, r);
    if m.dst != c.host { ReachFollows(c, w, Post(w, m.dst, r), m.dst, t, t, None); }
    PostKeepsReach(c, w, m.dst, r);
  }

  lemma HellosAreBacked(c: Config, w: World, a: SocketAddr, r: Reply)
    requires a in w.tables && w.tables[a] == r.table
    requires forall k | 0 <= k < |r.sent| :: HelloFrom(c.psk, r.table, r.sent[k])
    ensures forall k | 0 <= k < |r.sent| :: Backed(w, Msg(a, r.sent[k].to, r.sent[k].packet))
  {
    forall k | 0 <= k < |r.sent| ensures Backed(w, Msg(a, r.sent[k].to, r.sent[k].packet)) {
      assert HelloFrom(c.psk, r.table, r.sent[k]);
    }
  }

  /** Reading a list: a new identity, then nothing but greetings. */
  lemma ListGreets(c: Config, roll: Roll, a: SocketAddr, t: Table, m: Msg)
    requires ValidConfig(c) && RollOk(c, roll) && a in c.secrets && NodeOk(c, roll, a, t)
    requires MsgOk(c, roll, m) && m.dst == a && m.packet.header.pktType == PKT_PEER_LIST
    ensures var es, r := m.packet.body.plain.list.peers, HandlePeerList(Me(c, a), t, m.src, m.packet);
            && m.packet.body.plain.Members? && es != [] && MaxId(es) in roll && roll[MaxId(es)] == a && a != c.host
            && Greeted(SetIdentity(t, MaxId(es), c.session), r.table) && Keeps(t, r.table)
            && (forall k | 0 <= k < |r.sent| :: HelloFrom(c.psk, r.table, r.sent[k]))
  {
    PeerListQuiet(c, roll, a, t, m);
    var es := m.packet.body.plain.list.peers;
    GreetAgrees(Me(c, a), roll, SetIdentity(t, MaxId(es), c.session), es, 0, m.src);
    hide HandlePeerList, Greet, Agrees, MaxId, SealedBy, RollOk, JoinerShape, HostShape, HelloFrom;
  }

  lemma PeerListReach(c: Config, w: World, m: Msg)
    requires ReachInv(c, w) && m in w.net && m.dst in w.tables
    requires m.packet.header.pktType == PKT_PEER_LIST
    ensures var r := HandlePeerList(Me(c, m.dst), w.tables[m.dst], m.src, m.packet);
            ReachReply(c, Post(w, m.dst, r), m.dst, r)
  {
    var (a, t) := (m.dst, w.tables[m.dst]);
    NodeFacts(c, w, a);
    MsgFacts(c, w, m);
    var r := HandlePeerList(Me(c, a), t, m.src, m.packet);
    hide *;
    ListGreets(c, TheRoll(c, w), a, t, m);
    GreetedReaches(SetIdentity(t, MaxId(m.packet.body.plain.list.peers), c.session), r.table);
    SameReach(t, SetIdentity(t, MaxId(m.packet.body.plain.list.peers), c.session), r.table);
    PostTable(w, a, r);
    HellosAreBacked(c, Post(w, a, r), a, r);
    StepReaches(c, w, a, r, None);
  }

  lemma PostTable(w: World, a: SocketAddr, r: Reply)
    ensures a in Post(w, a, r).tables && Post(w, a, r).tables[a] == r.table
  {
  }

  lemma GreetedReaches(t: Table, t': Table)
    requires Greeted(t, t')
    ensures ReachesLike(t, t', None)
  {
  }

  lemma SameReach(t: Table, t1: Table, t': Table)
    requires t1.peers == t.peers && ReachesLike(t1, t', None)
    ensures ReachesLike(t, t', None)
  {
  }

  /** Peer id, at the given address, is Connected, and nothing else has changed. */
  ghost predicate Meets(t: Table, t': Table, id: u8, src: SocketAddr) {
    && t'.localId == t.localId && t'.session == t.session
    && id in t'.peers && t'.peers[id].addr == src && t'.peers == t.peers[id := t'.peers[id]]
    && (if id in t.peers then t'.peers[id] == t.peers[id].(state := Connected)
        else id != t.localId && t'.peers[id] == NewPeer(id, src).(state := Connected))
  }

  lemma MetIsMeeting(t: Table, t1: Table, id: u8, src: SocketAddr)
    requires t1 == t.(peers := t1.peers, addrToId := t1.addrToId) && id in t1.peers
    requires if id in t.peers then t1.peers == t.peers && t.peers[id].addr == src
             else id != t.localId && t1.peers == t.peers[id := NewPeer(id, src)]
    ensures Meets(t, WithState(t1, id, Connected), id, src)
  {
  }

  /** What a HELLO does: nothing, or its sender is Connected and acknowledged, or it was our own. */
  lemma HelloCases(c: Config, roll: Roll, a: SocketAddr, t: Table, m: Msg)
    requires ValidConfig(c) && RollOk(c, roll) && a in c.secrets && NodeOk(c, roll, a, t)
    requires MsgOk(c, roll, m) && m.packet.header.pktType == PKT_HELLO
    ensures var r, id := HandleHello(Me(c, a), t, m.src, m.packet), m.packet.header.peerId;
            || r == Reply(t, [])
            || (&& |r.sent| == 1 && r.sent[0].to == m.src
                && ((r.table == t && m.src == a) || Meets(t, r.table, id, m.src)))
  {
    SessionPacketOpens(c, roll, t, m);
    var id := m.packet.header.peerId;
    assert id in t.peers ==> t.peers[id].addr == m.src;
    assert t.session == c.session && id == t.localId ==> m.src == a;
    AddAgreed(roll, t, id);
    hide Opened, Make, MsgOk, NodeOk, AddPeer, Agrees, RollOk, Keeps, Meets;
    var (t1, ok) := if id in t.peers then (t, true) else AddPeer(t, id, m.src);
    if id in t1.peers { MetIsMeeting(t, t1, id, m.src); }
  }

  lemma HelloReach(c: Config, w: World, m: Msg)
    requires ReachInv(c, w) && m in w.net && m.dst in w.tables
    requires m.packet.header.pktType == PKT_HELLO
    ensures var r := HandleHello(Me(c, m.dst), w.tables[m.dst], m.src, m.packet);
            ReachReply(c, Post(w, m.dst, r), m.dst, r)
  {
    var (a, roll) := (m.dst, TheRoll(c, w));
    var t, id := w.tables[a], m.packet.header.peerId;
    NodeFacts(c, w, a);
    MsgFacts(c, w, m);
    assert Knows(w, m.src, a) by { assert Backed(w, m); }
    var r := HandleHello(Me(c, a), t, m.src, m.packet);
    hide *;
    HelloCases(c, roll, a, t, m);
    HelloQuiet(c, roll, a, t, m);
    QuietKeeps(c, roll, a, t, r);
    MeetsReaches(t, r.table, id, m.src);
    AckIsBacked(w, m, r);
    StepReaches(c, w, a, r, Some(id));
  }

  lemma QuietKeeps(c: Config, roll: Roll, a: SocketAddr, t: Table, r: Reply)
    requires QuietReply(c, roll, a, t, r)
    ensures Keeps(t, r.table)
  {
  }

  lemma MeetsReaches(t: Table, t': Table, id: u8, src: SocketAddr)
    requires t' == t || Meets(t, t', id, src)
    ensures ReachesLike(t, t', Some(id))
    ensures Meets(t, t', id, src) ==> id in t'.peers && t'.peers[id].addr == src
  {
  }

  lemma HelloReaches(t: Table, t': Table, id: u8)
    requires t'.peers == t.peers || (id in t'.peers && t'.peers == t.peers[id := t'.peers[id]])
    ensures ReachesLike(t, t', Some(id))
  {
  }

  /** The acknowledgement goes to the sender, which is now known, or is ourselves. */
  lemma AckIsBacked(w: World, m: Msg, r: Reply)
    requires m.dst in w.tables && Keeps(w.tables[m.dst], r.table) && Knows(w, m.src, m.dst)
    requires var id := m.packet.header.peerId;
             r.sent == [] || (|r.sent| == 1 && r.sent[0].to == m.src
               && (m.src == m.dst || (id in r.table.peers && r.table.peers[id].addr == m.src)))
    ensures var w' := Post(w, m.dst, r);
            forall k | 0 <= k < |r.sent| :: Backed(w', Msg(m.dst, r.sent[k].to, r.sent[k].packet))
  {
    var a, w' := m.dst, Post(w, m.dst, r);
    if r.sent != [] {
      if m.src == a { KnowsGrows(w, a, r, a, a); } else { assert w'.tables[a] == r.table; }
      assert Knows(w', a, m.src);
    }
    hide Knows;
  }

  lemma HelloAckReach(c: Config, w: World, m: Msg)
    requires ReachInv(c, w) && m in w.net && m.dst in w.tables
    requires m.packet.header.pktType == PKT_HELLO_ACK
    ensures var r := HandleHelloAck(Me(c, m.dst), w.tables[m.dst], m.packet);
            ReachReply(c, Post(w, m.dst, r), m.dst, r)
  {
    var (a, roll) := (m.dst, TheRoll(c, w));
    var t, id := w.tables[a], m.packet.header.peerId;
    NodeFacts(c, w, a);
    MsgFacts(c, w, m);
    assert Knows(w, m.src, a) by { assert Backed(w, m); }
    var r := HandleHelloAck(Me(c, a), t, m.packet);
    hide *;
    AckCases(c, roll, a, t, m);
    HelloAckQuiet(c, roll, a, t, m);
    QuietKeeps(c, roll, a, t, r);
    HelloReaches(t, r.table, id);
    StepReaches(c, w, a, r, Some(id));
  }

  lemma AckCases(c: Config, roll: Roll, a: SocketAddr, t: Table, m: Msg)
    requires a in c.secrets && NodeOk(c, roll, a, t)
    requires MsgOk(c, roll, m) && m.packet.header.pktType == PKT_HELLO_ACK
    ensures var r, id := HandleHelloAck(Me(c, a), t, m.packet), m.packet.header.peerId;
            && r.sent == []
            && r.table == t.(peers := r.table.peers)
            && (r.table.peers == t.peers
                || (id in t.peers && r.table.peers == t.peers[id := t.peers[id].(state := Connected)]))
            && (id in r.table.peers ==> r.table.peers[id].addr == m.src)
  {
    hide Opened, SealedBy, HostShape, JoinerShape;
  }

  /** Nothing but flags, or Connected turned Disconnected. */
  ghost predicate ReachesNoMore(t: Table, t': Table) {
    && t'.peers.Keys == t.peers.Keys
    && (forall id | id in t.peers ::
          && t'.peers[id].addr == t.peers[id].addr
          && (Reached(t'.peers[id]) ==> Reached(t.peers[id])))
  }

  lemma NoMoreReached(t: Table, t': Table)
    requires ReachesNoMore(t, t')
    ensures Keeps(t, t') && ReachesLike(t, t', None)
  {
  }

  lemma NeedNoBacking(w: World, a: SocketAddr, sent: seq<Send>)
    requires forall k | 0 <= k < |sent| :: sent[k].packet.header.pktType in {PKT_JOIN, PKT_KEY_EXCHANGE}
    ensures forall k | 0 <= k < |sent| :: Backed(w, Msg(a, sent[k].to, sent[k].packet))
  {
  }

  lemma QuietReach(c: Config, w: World, a: SocketAddr, r: Reply)
    requires ReachInv(c, w) && a in w.tables && ReachesNoMore(w.tables[a], r.table)
    requires forall k | 0 <= k < |r.sent| :: r.sent[k].packet.header.pktType in {PKT_JOIN, PKT_KEY_EXCHANGE}
    ensures ReachReply(c, Post(w, a, r), a, r)
  {
    hide *;
    NoMoreReached(w.tables[a], r.table);
    NeedNoBacking(Post(w, a, r), a, r.sent);
    StepReaches(c, w, a, r, None);
  }

  lemma KeyExchangeCases(me: Local, t: Table, src: SocketAddr, p: Packet)
    ensures var r, id := HandleKeyExchange(me, t, src, p), p.header.peerId;
            if KeyTaken(me, t, p).None? then r == Reply(t, [])
            else
              && id in t.peers && r.table == t.(peers := r.table.peers)
              && r.table.peers == t.peers[id := t.peers[id].(kxSent := true, kxReceived := true,
                                                             context := Some(Context(KeyTaken(me, t, p).value, t.session)))]
              && (forall k | 0 <= k < |r.sent| :: r.sent[k].packet.header.pktType == PKT_KEY_EXCHANGE)
  {
    hide DerivePeerKey, Opened;
  }

  lemma KeyExchangeReach(c: Config, w: World, m: Msg)
    requires ReachInv(c, w) && m.dst in w.tables && m.dst in c.secrets
    ensures var r := HandleKeyExchange(Me(c, m.dst), w.tables[m.dst], m.src, m.packet);
            ReachReply(c, Post(w, m.dst, r), m.dst, r)
  {
    var t, r := w.tables[m.dst], HandleKeyExchange(Me(c, m.dst), w.tables[m.dst], m.src, m.packet);
    hide *;
    KeyExchangeCases(Me(c, m.dst), t, m.src, m.packet);
    assert ReachesNoMore(t, r.table) by { KeysReachNoMore(Me(c, m.dst), t, m.src, m.packet); }
    QuietReach(c, w, m.dst, r);
  }

  lemma KeysReachNoMore(me: Local, t: Table, src: SocketAddr, p: Packet)
    ensures ReachesNoMore(t, HandleKeyExchange(me, t, src, p).table)
  {
    KeyExchangeCases(me, t, src, p);
    hide HandleKeyExchange, KeyTaken;
  }

  // ---------------------------------------------------------------------
  // Every step, every run.
  // ---------------------------------------------------------------------

  lemma StepReach(c: Config, w: World, s: Step)
    requires ReachInv(c, w) && Enabled(c, w, s) && !IsJoin(s)
    ensures var (a, r) := Answer(c, w, s);
            a in w.tables && ReachReply(c, Post(w, a, r), a, r)
  {
    InvOf(c, w);
    if s.Deliver? {
      MsgFacts(c, w, s.msg);
      hide ReachInv, ReachReply, Post, Inv, MsgOk, Handle;
      DeliverReach(c, w, s.msg, s.es);
    } else {
      OwnStepReachesNoMore(c, w, s);
      var (a, r) := Answer(c, w, s);
      hide *;
      QuietReach(c, w, a, r);
    }
  }

  lemma OwnStepReachesNoMore(c: Config, w: World, s: Step)
    requires w.tables.Keys == c.secrets.Keys && Enabled(c, w, s) && !s.Deliver?
    ensures var (a, r) := Answer(c, w, s);
            && a in w.tables && ReachesNoMore(w.tables[a], r.table)
            && (forall k | 0 <= k < |r.sent| :: r.sent[k].packet.header.pktType in {PKT_JOIN, PKT_KEY_EXCHANGE})
  {
    match s
    case SendJoin(a, _) =>
    case Silence(a, ids) => assert CheckTimeouts(w.tables[a], ids).peers.Keys == w.tables[a].peers.Keys;
    case OfferKey(a, id) => assert MarkSent(w.tables[a], id).peers.Keys == w.tables[a].peers.Keys;
  }

  lemma DeliverReach(c: Config, w: World, m: Msg, es: seq<Entry>)
    requires ReachInv(c, w) && m in w.net && m.dst in w.tables && m.dst in c.secrets
    requires m.packet.header.pktType != PKT_JOIN && c.host in w.tables && MsgOk(c, TheRoll(c, w), m)
    ensures var r := Handle(Me(c, m.dst), w.tables[m.dst], m.src, m.packet, es);
            ReachReply(c, Post(w, m.dst, r), m.dst, r)
  {
    KindOf(c, TheRoll(c, w), m);
    hide ReachInv, ReachReply, Post, MsgOk, HandlePeerList, HandleHello, HandleHelloAck, HandleKeyExchange;
    var kind := m.packet.header.pktType;
    if kind == PKT_PEER_LIST { PeerListReach(c, w, m); }
    else if kind == PKT_HELLO { HelloReach(c, w, m); }
    else if kind == PKT_HELLO_ACK { HelloAckReach(c, w, m); }
    else { KeyExchangeReach(c, w, m); }
  }

  lemma InvOf(c: Config, w: World)
    requires ReachInv(c, w)
    ensures Inv(c, w) && ValidConfig(c) && w.tables.Keys == c.secrets.Keys
  {
  }

  lemma KindOf(c: Config, roll: Roll, m: Msg)
    requires MsgOk(c, roll, m)
    ensures m.packet.header.pktType
            in {PKT_JOIN, PKT_PEER_LIST, PKT_HELLO, PKT_HELLO_ACK, PKT_KEY_EXCHANGE}
  {
  }

  lemma NextKeepsReach(c: Config, w: World, s: Step)
    requires ReachInv(c, w) && Enabled(c, w, s)
    ensures ReachInv(c, Next(c, w, s))
  {
    if IsJoin(s) {
      JoinKeepsReach(c, w, s);
    } else {
      assert Inv(c, w);
      StepReach(c, w, s);
      StepQuiet(c, w, s);
      var (a, r) := Answer(c, w, s);
      hide ReachInv, Inv, Answer, ReachReply;
      QuietKeepsInv(c, w, a, r);
      PostKeepsReach(c, w, a, r);
    }
  }

  lemma {:induction false} RunKeepsReach(c: Config, steps: seq<Step>)
    requires ValidConfig(c) && Legal(c, steps)
    ensures ReachInv(c, Run(c, steps))
    decreases |steps|
  {
    if steps == [] {
      StartInv(c);
    } else {
      var init := steps[..|steps| - 1];
      RunKeepsReach(c, init);
      NextKeepsReach(c, Run(c, init), steps[|steps| - 1]);
      hide ReachInv, Enabled, Next;
    }
  }

  // ---------------------------------------------------------------------
  // Tables only grow.
  // ---------------------------------------------------------------------

  lemma NextKeepsTables(c: Config, w: World, s: Step, b: SocketAddr)
    requires Inv(c, w) && Enabled(c, w, s) && b in w.tables
    ensures Keeps(w.tables[b], Next(c, w, s).tables[b])
  {
    var (a, r) := Answer(c, w, s);
    if a == b {
      if IsJoin(s) {
        NodeFacts(c, w, a);
        if a == c.host { JoinAddsOne(c, w.tables[a], s.msg.src, s.msg.packet, s.es); }
        hide Inv, HandleJoin, RollOf, RollOk, RollIsHosts, Agrees;
      } else {
        StepQuiet(c, w, s);
        hide Inv, Answer;
      }
    } else {
      hide Inv, Answer;
    }
  }

  lemma {:induction false} LegalPrefix(c: Config, steps: seq<Step>, n: nat)
    requires Legal(c, steps) && n <= |steps|
    ensures Legal(c, steps[..n])
    decreases |steps|
  {
    if n == |steps| {
      assert steps[..n] == steps;
    } else {
      LegalPrefix(c, steps[..|steps| - 1], n);
      assert steps[..|steps| - 1][..n] == steps[..n];
    }
  }

  /** What a node knows it knows forever. */
  lemma {:induction false} TablesGrow(c: Config, steps: seq<Step>, n: nat, b: SocketAddr)
    requires ValidConfig(c) && Legal(c, steps) && n <= |steps| && b in c.secrets
    ensures Legal(c, steps[..n])
    ensures Keeps(Run(c, steps[..n]).tables[b], Run(c, steps).tables[b])
    decreases |steps|
  {
    LegalPrefix(c, steps, n);
    if n == |steps| {
      assert steps[..n] == steps;
    } else {
      var init := steps[..|steps| - 1];
      assert init[..n] == steps[..n];
      TablesGrow(c, init, n, b);
      RunKeepsInv(c, init);
      NextKeepsTables(c, Run(c, init), steps[|steps| - 1], b);
      hide Inv, Enabled, Next;
    }
  }

  /** Node a is a joiner that has its peer id Connected. */
  ghost predicate HasConnected(c: Config, w: World, a: SocketAddr, id: u8) {
    a in w.tables && a != c.host && id in w.tables[a].peers && w.tables[a].peers[id].state == Connected
  }

  /**
   * Connected is backed: in every run, when a joiner has a peer Connected, that node already
   * has an entry at the joiner's address, and keeps it in every longer run.
   */
  lemma ConnectedIsBacked(c: Config, steps: seq<Step>, n: nat, a: SocketAddr, id: u8)
    requires ValidConfig(c) && Legal(c, steps) && n <= |steps| && Legal(c, steps[..n])
    ensures var (w, later) := (Run(c, steps[..n]), Run(c, steps));
            HasConnected(c, w, a, id) ==>
              var b := w.tables[a].peers[id].addr;
              Knows(w, b, a) && Knows(later, b, a)
  {
    var w := Run(c, steps[..n]);
    RunKeepsReach(c, steps[..n]);
    if HasConnected(c, w, a, id) {
      assert ReachOk(c, w, a, w.tables[a]);
      var b := w.tables[a].peers[id].addr;
      hide Run, Legal, ReachInv, ReachOk;
      var k :| k in w.tables[b].peers && w.tables[b].peers[k].addr == a;
      TablesGrow(c, steps, n, b);
      assert k in Run(c, steps).tables[b].peers;
    }
  }
}
