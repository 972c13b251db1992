/**
 * Runs of the mesh, built packet by packet for every configuration and joiner. With nothing
 * lost the handshake completes: both ends are connected, upgraded and hold the same context.
 * With one offer lost, one end is upgraded and the other never is.
 */
module HandshakeRuns {
  import opened Words
  import opened Wire
  import opened Crypto
  import opened PeerListCodec
  import opened PeerTable
  import opened Handshake
  import opened Mesh
  import opened MeshAgreement
  import opened MeshReached
  import opened MeshConnected

  // ---------------------------------------------------------------------
  // Steps.
  // ---------------------------------------------------------------------

  lemma RunSnoc(c: Config, steps: seq<Step>, s: Step)
    requires Legal(c, steps) && Enabled(c, Run(c, steps), s)
    ensures Legal(c, steps + [s]) && Run(c, steps + [s]) == Next(c, Run(c, steps), s)
  {
    assert (steps + [s])[..|steps|] == steps;
    hide Enabled, Next, Legal, Run;
  }

  /** Deliver a packet that is not a JOIN. */
  lemma Hand(c: Config, steps: seq<Step>, m: Msg) returns (steps': seq<Step>)
    requires ValidConfig(c) && Legal(c, steps) && m in Run(c, steps).net && m.dst in c.secrets
    requires m.packet.header.pktType != PKT_JOIN
    ensures Legal(c, steps')
    ensures Run(c, steps') == Post(Run(c, steps), m.dst,
                                   Handle(Me(c, m.dst), Run(c, steps).tables[m.dst], m.src, m.packet, []))
  {
    var s := Deliver(m, c.host, []);
    RunSnoc(c, steps, s);
    steps' := steps + [s];
    hide Handle, Run, Legal;
  }

  lemma Posted(w: World, a: SocketAddr, t: Table, to: SocketAddr, p: Packet)
    ensures Msg(a, to, p) in Post(w, a, Reply(t, [Send(to, p)])).net
  {
    var sent := [Send(to, p)];
    assert Msg(a, sent[0].to, sent[0].packet) in Out(a, sent);
  }

  // ---------------------------------------------------------------------
  // JOIN and PEER_LIST.
  // ---------------------------------------------------------------------

  function JoinOf(c: Config, a: SocketAddr): Msg {
    Msg(a, c.host, Make(Context(c.psk, NO_SESSION), PKT_JOIN, 0, JoinRequest(0)))
  }

  /** The host's peer list after admitting the given addresses in turn. */
  function ListOf(c: Config, addrs: seq<SocketAddr>): seq<Entry>
    requires |addrs| < 5
  {
    seq(|addrs| + 1, k requires 0 <= k <= |addrs| => Entry(k, if k == 0 then c.host else addrs[k - 1]))
  }

  /** The answer to the last of them. */
  function AnswerOf(c: Config, addrs: seq<SocketAddr>): Msg
    requires 0 < |addrs| < 5
  {
    Msg(c.host, addrs[|addrs| - 1],
        Make(Context(c.psk, NO_SESSION), PKT_PEER_LIST, 0, Members(PeerList(c.session, ListOf(c, addrs)))))
  }

  lemma AnswerShape(c: Config, addrs: seq<SocketAddr>)
    requires 0 < |addrs| < 5
    ensures var m := AnswerOf(c, addrs);
            && m.src == c.host && m.dst == addrs[|addrs| - 1] && m.packet.header == Header(PKT_PEER_LIST, 0, 0, 0)
            && m.packet.body.plain == Members(PeerList(c.session, ListOf(c, addrs)))
            && MaxId(ListOf(c, addrs)) == |addrs|
  {
    var es, n := ListOf(c, addrs), |addrs|;
    assert es[n].id == n && forall k | 0 <= k < |es| :: es[k].id == k;
    ListMax(es, n);
    hide MaxId, ListOf;
  }

  /** The host has admitted these addresses in turn. */
  ghost predicate Admitted(c: Config, t: Table, addrs: seq<SocketAddr>) {
    && HostShape(c, t) && t.nextPeerId == |addrs| + 1
    && (forall id | id in t.peers :: t.peers[id].addr == addrs[id - 1])
  }

  lemma ListEnumerates(c: Config, t: Table, addrs: seq<SocketAddr>)
    requires |addrs| < 5 && Admitted(c, t, addrs)
    ensures Enumerates(t, c.host, ListOf(c, addrs))
  {
    var es := ListOf(c, addrs);
    assert es[0] == Entry(0, c.host);
    assert forall k | 1 <= k < |es| :: es[k].id == k;
    forall id | id in t.peers ensures exists k :: 1 <= k < |es| && es[k].id == id { assert es[id].id == id; }
  }

  lemma AdmittedGrows(c: Config, t: Table, t': Table, addrs: seq<SocketAddr>)
    requires 0 < |addrs| < 5 && Admitted(c, t, addrs[..|addrs| - 1])
    requires HostShape(c, t') && t'.nextPeerId == |addrs| + 1
    requires t'.peers == t.peers[|addrs| := NewPeer(|addrs|, addrs[|addrs| - 1]).(state := Connected)]
    ensures Admitted(c, t', addrs)
  {
    var n := |addrs|;
    forall id | id in t'.peers ensures 1 <= id <= n && t'.peers[id].addr == addrs[id - 1] {
      if id != n { assert id in t.peers; }
    }
    hide HostShape;
  }

  lemma AdmitOne(c: Config, t: Table, addrs: seq<SocketAddr>)
    requires 0 < |addrs| < 5 && Admitted(c, t, addrs[..|addrs| - 1]) && Agrees(RollOf(c, t), t)
    ensures var (n, a) := (|addrs|, addrs[|addrs| - 1]);
            && t.isHost && Admit(t, a).1.Some? && Admitted(c, Admit(t, a).0, addrs)
            && Admit(t, a).0.peers == t.peers[n := NewPeer(n, a).(state := Connected)]
  {
    AdmitExactly(c, RollOf(c, t), t, addrs[|addrs| - 1]);
    assert t.nextPeerId == |addrs| && t.isHost;
    hide Admit, HostShape, RollOf, Agrees, Admitted;
    AdmittedGrows(c, t, Admit(t, addrs[|addrs| - 1]).0, addrs);
  }

  /** The host's answer to a JOIN. */
  lemma JoinAnswered(c: Config, t: Table, addrs: seq<SocketAddr>)
    requires ValidConfig(c) && 0 < |addrs| < 5 && Agrees(RollOf(c, t), t)
    requires Admitted(c, t, addrs[..|addrs| - 1])
    ensures var (a, es) := (addrs[|addrs| - 1], ListOf(c, addrs));
            && Enumerates(Admit(t, a).0, c.host, es)
            && HandleJoin(Me(c, c.host), t, a, JoinOf(c, a).packet, es)
               == Reply(Admit(t, a).0, [Send(a, AnswerOf(c, addrs).packet)])
  {
    var zero, a, es := Context(c.psk, NO_SESSION), addrs[|addrs| - 1], ListOf(c, addrs);
    var p, t' := JoinOf(c, a).packet, Admit(t, a).0;
    AdmitOne(c, t, addrs);
    ListEnumerates(c, t', addrs);
    MakeSeals(zero, PKT_JOIN, 0, JoinRequest(0));
    OpenedExactly(zero, zero, p);
    assert t'.localId == 0 && t'.session == c.session;
    hide Opened, SealedBy, Admit, Enumerates, ListOf, RollOf, Agrees, Admitted;
  }

  lemma JoinPosts(c: Config, w: World, addrs: seq<SocketAddr>)
    requires Inv(c, w) && 0 < |addrs| < 5 && JoinOf(c, addrs[|addrs| - 1]) in w.net
    requires Admitted(c, w.tables[c.host], addrs[..|addrs| - 1])
    ensures var a, t := addrs[|addrs| - 1], w.tables[c.host];
            var s := Deliver(JoinOf(c, a), c.host, ListOf(c, addrs));
            && w.tables.Keys == c.secrets.Keys && Enabled(c, w, s)
            && Next(c, w, s) == Post(w, c.host, Reply(Admit(t, a).0, [Send(a, AnswerOf(c, addrs).packet)]))
  {
    var a, t := addrs[|addrs| - 1], w.tables[c.host];
    assert Agrees(RollOf(c, t), t) by { NodeFacts(c, w, c.host); }
    InvCovers(c, w);
    JoinShape(c, a);
    JoinAnswered(c, t, addrs);
    hide Inv, NodeOk, RollOf, Agrees, RollOk, RollIsHosts, ListOf, Admitted, HandleJoin, Admit, Enumerates, AnswerOf, JoinOf,
      Post, ValidConfig;
    JoinNext(c, w, JoinOf(c, a), ListOf(c, addrs));
  }

  /** What delivering a JOIN comes to. */
  lemma JoinNext(c: Config, w: World, m: Msg, es: seq<Entry>)
    requires w.tables.Keys == c.secrets.Keys && m in w.net && m.dst in w.tables
    requires m.packet.header.pktType == PKT_JOIN && Enumerates(Admit(w.tables[m.dst], m.src).0, c.host, es)
    ensures var s := Deliver(m, c.host, es);
            && Enabled(c, w, s)
            && Next(c, w, s) == Post(w, m.dst, HandleJoin(Me(c, m.dst), w.tables[m.dst], m.src, m.packet, es))
  {
    hide HandleJoin, Admit, Enumerates, Post;
  }

  lemma JoinShape(c: Config, a: SocketAddr)
    ensures JoinOf(c, a).src == a && JoinOf(c, a).dst == c.host && JoinOf(c, a).packet.header.pktType == PKT_JOIN
  {
  }

  /** Delivering a JOIN admits its sender once more and answers with a longer list. */
  lemma Join(c: Config, steps: seq<Step>, addrs: seq<SocketAddr>) returns (steps': seq<Step>)
    requires ValidConfig(c) && Legal(c, steps) && 0 < |addrs| < 5
    requires var a, w := addrs[|addrs| - 1], Run(c, steps);
             JoinOf(c, a) in w.net && Admitted(c, w.tables[c.host], addrs[..|addrs| - 1])
    ensures Legal(c, steps')
    ensures var (a, n, w, w') := (addrs[|addrs| - 1], |addrs|, Run(c, steps), Run(c, steps'));
            && w'.net >= w.net && AnswerOf(c, addrs) in w'.net
            && w'.tables == w.tables[c.host := w'.tables[c.host]]
            && Admitted(c, w'.tables[c.host], addrs)
            && w'.tables[c.host].peers == w.tables[c.host].peers[n := NewPeer(n, a).(state := Connected)]
  {
    var w, a := Run(c, steps), addrs[|addrs| - 1];
    var t, s := w.tables[c.host], Deliver(JoinOf(c, a), c.host, ListOf(c, addrs));
    RunKeepsInv(c, steps);
    assert Agrees(RollOf(c, t), t) by { NodeFacts(c, w, c.host); }
    hide *;
    JoinPosts(c, w, addrs);
    AdmitOne(c, t, addrs);
    RunSnoc(c, steps, s);
    steps' := steps + [s];
    AnswerShape(c, addrs);
    PostIs(w, c.host, Reply(Admit(t, a).0, [Send(a, AnswerOf(c, addrs).packet)]));
    Posted(w, c.host, Admit(t, a).0, a, AnswerOf(c, addrs).packet);
  }

  lemma PostIs(w: World, a: SocketAddr, r: Reply)
    ensures Post(w, a, r).tables == w.tables[a := r.table] && Post(w, a, r).net >= w.net
  {
  }

  /** A joiner sends its JOIN. */
  lemma Ask(c: Config, steps: seq<Step>, a: SocketAddr) returns (steps': seq<Step>)
    requires ValidConfig(c) && a in c.secrets && a != c.host && Legal(c, steps)
    ensures Legal(c, steps')
    ensures Run(c, steps').net >= Run(c, steps).net + {JoinOf(c, a)}
    ensures Run(c, steps').tables == Run(c, steps).tables
  {
    var w, s := Run(c, steps), SendJoin(a, 0);
    RunSnoc(c, steps, s);
    steps' := steps + [s];
    hide Run, Legal, Make;
    Posted(w, a, w.tables[a], c.host, JoinOf(c, a).packet);
    assert w.tables[a := w.tables[a]] == w.tables;
  }

  lemma StartAdmits(c: Config)
    requires ValidConfig(c)
    ensures Legal(c, []) && Run(c, []) == Start(c) && Admitted(c, Start(c).tables[c.host], [])
  {
  }

  /** A node reads the list that answers its JOIN: it takes its id and greets. */
  lemma Read(c: Config, steps: seq<Step>, addrs: seq<SocketAddr>) returns (steps': seq<Step>)
    requires ValidConfig(c) && Legal(c, steps) && 0 < |addrs| < 5
    requires AnswerOf(c, addrs) in Run(c, steps).net && addrs[|addrs| - 1] in c.secrets
    ensures Legal(c, steps')
    ensures var (a, n, w, w') := (addrs[|addrs| - 1], |addrs|, Run(c, steps), Run(c, steps'));
            && w' == Post(w, a, HandlePeerList(Me(c, a), w.tables[a], c.host, AnswerOf(c, addrs).packet))
            && Greeted(SetIdentity(w.tables[a], n, c.session), w'.tables[a]) && a != c.host
  {
    var w, m := Run(c, steps), AnswerOf(c, addrs);
    RunKeepsInv(c, steps);
    AnswerShape(c, addrs);
    NodeFacts(c, w, m.dst);
    MsgFacts(c, w, m);
    hide Inv, Run, Legal, ListOf, MaxId, HandlePeerList, NodeOk, MsgOk, RollOk, RollIsHosts, RollOf, Greeted,
      AnswerOf;
    ListGreets(c, TheRoll(c, w), m.dst, w.tables[m.dst], m);
    steps' := Hand(c, steps, m);
  }

  // ---------------------------------------------------------------------
  // Nothing lost, nothing repeated.
  // ---------------------------------------------------------------------

  /** A control packet of the running session. */
  function InSession(c: Config, src: SocketAddr, dst: SocketAddr, kind: u8, id: u8, plain: Plain): Msg {
    Msg(src, dst, Make(Context(c.psk, c.session), kind, id, plain))
  }

  lemma InSessionOpens(c: Config, t: Table, src: SocketAddr, dst: SocketAddr, kind: u8, id: u8, plain: Plain)
    requires t.session == c.session
    ensures Opened(Context(c.psk, t.session), InSession(c, src, dst, kind, id, plain).packet) == Some(plain)
  {
    var p := InSession(c, src, dst, kind, id, plain).packet;
    MakeSeals(Context(c.psk, c.session), kind, id, plain);
    OpenedExactly(Context(c.psk, c.session), Context(c.psk, c.session), p);
    hide Opened, SealedBy;
  }

  /** A table with one peer. */
  ghost predicate Solo(t: Table, localId: u8, session: SessionId, p: Peer) {
    t.localId == localId && t.session == session && t.peers == map[p.id := p]
  }

  function PeerAt(id: u8, addr: SocketAddr, state: PeerState, sent: bool, ctx: Option<Context>): Peer {
    Peer(id, addr, state, sent, ctx.Some?, ctx)
  }

  lemma FirstList(c: Config, a: SocketAddr, t: Table)
    requires a in c.secrets && a != c.host && t.peers == map[]
    ensures var r := HandlePeerList(Me(c, a), t, c.host, AnswerOf(c, [a]).packet);
            && Solo(r.table, 1, c.session, PeerAt(0, c.host, HelloSent, false, None))
            && r.sent == [Send(c.host, InSession(c, a, c.host, PKT_HELLO, 1, Nothing).packet)]
  {
    var zero, es := Context(c.psk, NO_SESSION), ListOf(c, [a]);
    var p := AnswerOf(c, [a]).packet;
    MakeSeals(zero, PKT_PEER_LIST, 0, Members(PeerList(c.session, es)));
    OpenedExactly(zero, zero, p);
    AnswerShape(c, [a]);
    var t1 := SetIdentity(t, 1, c.session);
    assert HandlePeerList(Me(c, a), t, c.host, p) == Greet(Me(c, a), t1, es, 0, c.host);
    hide Opened, Make, HandlePeerList, MaxId, SealedBy, ListRead;
    var t2 := WithState(AddPeer(t1, 0, c.host).0, 0, HelloSent);
    assert es[1..][0].id == t2.localId && es[1..][1..] == [];
    assert Greet(Me(c, a), t2, es[1..], 0, c.host) == Reply(t2, []);
  }

  lemma HelloAnswered(c: Config, t: Table, a: SocketAddr)
    requires c.host in c.secrets && Solo(t, 0, c.session, PeerAt(1, a, Connected, false, None))
    ensures HandleHello(Me(c, c.host), t, a, InSession(c, a, c.host, PKT_HELLO, 1, Nothing).packet)
            == Reply(t, [Send(a, InSession(c, c.host, a, PKT_HELLO_ACK, 0, Nothing).packet)])
  {
    InSessionOpens(c, t, a, c.host, PKT_HELLO, 1, Nothing);
    assert WithState(t, 1, Connected).peers == t.peers;
    hide Opened;
  }

  lemma AckTaken(c: Config, t: Table, a: SocketAddr)
    requires a in c.secrets && Solo(t, 1, c.session, PeerAt(0, c.host, HelloSent, false, None))
    ensures var r := HandleHelloAck(Me(c, a), t, InSession(c, c.host, a, PKT_HELLO_ACK, 0, Nothing).packet);
            Solo(r.table, 1, c.session, PeerAt(0, c.host, Connected, false, None))
  {
    InSessionOpens(c, t, c.host, a, PKT_HELLO_ACK, 0, Nothing);
    hide Opened;
  }

  function OfferFrom(c: Config, src: SocketAddr, dst: SocketAddr, id: u8): Msg
    requires src in c.secrets
  {
    InSession(c, src, dst, PKT_KEY_EXCHANGE, id, KeyOffer(Public(c.secrets[src])))
  }

  lemma OfferShape(c: Config, src: SocketAddr, dst: SocketAddr, id: u8)
    requires src in c.secrets
    ensures var m := OfferFrom(c, src, dst, id);
            m.src == src && m.dst == dst && m.packet.header == Header(PKT_KEY_EXCHANGE, id, 0, 0)
  {
  }

  /** An offer is taken by the end that is node me; the first time it is also answered. */
  lemma OfferTaken(c: Config, t: Table, me: SocketAddr, other: SocketAddr, myId: u8, id: u8, sent: bool)
    requires me in c.secrets && other in c.secrets
    requires Solo(t, myId, c.session, PeerAt(id, other, Connected, sent, None))
    ensures var (r, ctx) := (HandleKeyExchange(Me(c, me), t, other, OfferFrom(c, other, me, id).packet),
                             PairContext(c, me, other, myId, id));
            && Solo(r.table, myId, c.session, PeerAt(id, other, Connected, true, Some(ctx)))
            && (!sent ==> r.sent == [Send(other, OfferFrom(c, me, other, myId).packet)])
  {
    InSessionOpens(c, t, other, me, PKT_KEY_EXCHANGE, id, KeyOffer(Public(c.secrets[other])));
    OfferShape(c, other, me, id);
    DeriveAgrees(c.secrets[me], c.secrets[other], c.session, myId, id);
    hide Opened, DerivePeerKey, Make;
  }

  /** After JOIN and PEER_LIST: the joiner's HELLO is on its way. */
  lemma Introduce(c: Config, a: SocketAddr) returns (steps: seq<Step>)
    requires ValidConfig(c) && a in c.secrets && a != c.host
    ensures Legal(c, steps)
    ensures var w := Run(c, steps);
            && JoinOf(c, a) in w.net && InSession(c, a, c.host, PKT_HELLO, 1, Nothing) in w.net
            && Solo(w.tables[a], 1, c.session, PeerAt(0, c.host, HelloSent, false, None))
            && Solo(w.tables[c.host], 0, c.session, PeerAt(1, a, Connected, false, None))
            && Admitted(c, w.tables[c.host], [a])
  {
    StartAdmits(c);
    assert [a][..0] == [];
    hide Run, Legal, Make, ListOf, HandlePeerList, Solo, PeerAt, Admitted, AnswerOf;
    steps := Ask(c, [], a);
    steps := Join(c, steps, [a]);
    var w := Run(c, steps);
    var t := w.tables[a];
    AdmittedOnce(c, w.tables[c.host], a);
    steps := Read(c, steps, [a]);
    FirstList(c, a, t);
    var r := HandlePeerList(Me(c, a), t, c.host, AnswerOf(c, [a]).packet);
    Posted(w, a, r.table, c.host, InSession(c, a, c.host, PKT_HELLO, 1, Nothing).packet);
  }

  lemma AdmittedOnce(c: Config, t: Table, a: SocketAddr)
    requires Admitted(c, t, [a]) && t.peers == map[1 := NewPeer(1, a).(state := Connected)]
    ensures Solo(t, 0, c.session, PeerAt(1, a, Connected, false, None))
  {
  }

  /** After HELLO and HELLO_ACK: both ends are connected. */
  lemma Connect(c: Config, steps: seq<Step>, a: SocketAddr) returns (steps': seq<Step>)
    requires ValidConfig(c) && a in c.secrets && a != c.host && Legal(c, steps)
    requires var w := Run(c, steps);
             && InSession(c, a, c.host, PKT_HELLO, 1, Nothing) in w.net
             && Solo(w.tables[a], 1, c.session, PeerAt(0, c.host, HelloSent, false, None))
             && Solo(w.tables[c.host], 0, c.session, PeerAt(1, a, Connected, false, None))
    ensures Legal(c, steps')
    ensures var w := Run(c, steps');
            && w.net >= Run(c, steps).net && w.tables[c.host] == Run(c, steps).tables[c.host]
            && Solo(w.tables[a], 1, c.session, PeerAt(0, c.host, Connected, false, None))
  {
    hide Run, Legal, InSession, HandleHello, HandleHelloAck, Solo, PeerAt;
    var w, hello := Run(c, steps), InSession(c, a, c.host, PKT_HELLO, 1, Nothing);
    var ack := InSession(c, c.host, a, PKT_HELLO_ACK, 0, Nothing);
    Addressed(c, a, c.host, PKT_HELLO, 1, Nothing);
    Addressed(c, c.host, a, PKT_HELLO_ACK, 0, Nothing);
    steps' := Hand(c, steps, hello);
    HelloAnswered(c, w.tables[c.host], a);
    Posted(w, c.host, w.tables[c.host], a, ack.packet);
    steps' := Hand(c, steps', ack);
    AckTaken(c, w.tables[a], a);
  }

  lemma Addressed(c: Config, src: SocketAddr, dst: SocketAddr, kind: u8, id: u8, plain: Plain)
    ensures var m := InSession(c, src, dst, kind, id, plain);
            m.src == src && m.dst == dst && m.packet.header.pktType == kind
  {
  }

  /** A node that is connected to one peer makes its periodic offer. */
  lemma SendOffer(c: Config, steps: seq<Step>, me: SocketAddr, other: SocketAddr, myId: u8, id: u8)
    returns (steps': seq<Step>)
    requires ValidConfig(c) && me in c.secrets && Legal(c, steps)
    requires Solo(Run(c, steps).tables[me], myId, c.session, PeerAt(id, other, Connected, false, None))
    ensures Legal(c, steps')
    ensures var (w, w') := (Run(c, steps), Run(c, steps'));
            && w'.net >= w.net && OfferFrom(c, me, other, myId) in w'.net
            && id in w.tables[me].peers && w'.tables == w.tables[me := MarkSent(w.tables[me], id)]
            && Solo(w'.tables[me], myId, c.session, PeerAt(id, other, Connected, true, None))
  {
    hide Run, Legal, InSession, PeerAt, Solo, OfferTo;
    var w, s := Run(c, steps), OfferKey(me, id);
    OfferMade(c, w.tables[me], me, other, myId, id);
    RunSnoc(c, steps, s);
    steps' := steps + [s];
    OfferShape(c, me, other, myId);
    Posted(w, me, MarkSent(w.tables[me], id), other, OfferFrom(c, me, other, myId).packet);
  }

  lemma OfferMade(c: Config, t: Table, me: SocketAddr, other: SocketAddr, myId: u8, id: u8)
    requires me in c.secrets && Solo(t, myId, c.session, PeerAt(id, other, Connected, false, None))
    ensures OwesOffer(t, id)
    ensures OfferTo(Me(c, me), t, id) == Reply(MarkSent(t, id), [Send(other, OfferFrom(c, me, other, myId).packet)])
    ensures Solo(MarkSent(t, id), myId, c.session, PeerAt(id, other, Connected, true, None))
  {
    hide Make;
  }

  /**
   * The handshake completes: every joiner has a run, in which it is admitted once, after
   * which it is node 1, both ends are connected, have exchanged keys and hold the same
   * per-peer context. So what MeshConnected says of such nodes is never empty.
   */
  lemma HandshakeCompletes(c: Config, a: SocketAddr) returns (steps: seq<Step>)
    requires ValidConfig(c) && a in c.secrets && a != c.host
    ensures Legal(c, steps) && Run(c, steps).net >= {JoinOf(c, a), OfferFrom(c, c.host, a, 0)}
    ensures var (w, ctx) := (Run(c, steps), Some(PairContext(c, a, c.host, 1, 0)));
            && Solo(w.tables[a], 1, c.session, PeerAt(0, c.host, Connected, true, ctx))
            && Solo(w.tables[c.host], 0, c.session, PeerAt(1, a, Connected, true, ctx))
            && Admitted(c, w.tables[c.host], [a])
  {
    hide Run, Legal, InSession, HandleKeyExchange, PairContext, PeerAt, Solo, Admitted, Make;
    steps := Introduce(c, a);
    steps := Connect(c, steps, a);
    steps := SendOffer(c, steps, a, c.host, 1, 0);
    var w, offer, back := Run(c, steps), OfferFrom(c, a, c.host, 1), OfferFrom(c, c.host, a, 0);
    OfferShape(c, a, c.host, 1);
    OfferShape(c, c.host, a, 0);
    steps := Hand(c, steps, offer);
    OfferTaken(c, w.tables[c.host], c.host, a, 0, 1, false);
    var r := HandleKeyExchange(Me(c, c.host), w.tables[c.host], a, offer.packet);
    Posted(w, c.host, r.table, a, back.packet);
    StillAdmitted(c, w.tables[c.host], a, offer.packet);
    steps := Hand(c, steps, back);
    OfferTaken(c, w.tables[a], a, c.host, 1, 0, true);
    PairContextAgrees(c, a, c.host, 1, 0);
  }

  lemma StillAdmitted(c: Config, t: Table, a: SocketAddr, p: Packet)
    requires c.host in c.secrets && Admitted(c, t, [a])
    ensures Admitted(c, HandleKeyExchange(Me(c, c.host), t, a, p).table, [a])
  {
    KeyExchangeCases(Me(c, c.host), t, a, p);
    hide HandleKeyExchange, KeyTaken;
  }

  /**
   * With its own offer lost and the host's delivered, a joiner seals under the per-peer key
   * while the host does not hold it, and neither end will offer again.
   */
  lemma OneSidedUpgrade(c: Config, a: SocketAddr) returns (steps: seq<Step>)
    requires ValidConfig(c) && a in c.secrets && a != c.host
    ensures Legal(c, steps)
    ensures var (w, ctx) := (Run(c, steps), Some(PairContext(c, a, c.host, 1, 0)));
            && Solo(w.tables[a], 1, c.session, PeerAt(0, c.host, Connected, true, ctx))
            && Solo(w.tables[c.host], 0, c.session, PeerAt(1, a, Connected, true, None))
            && Admitted(c, w.tables[c.host], [a])
            && !OwesOffer(w.tables[a], 0) && !OwesOffer(w.tables[c.host], 1)
  {
    hide Run, Legal, InSession, HandleKeyExchange, PairContext, PeerAt, Solo, Admitted, Make, OwesOffer;
    steps := Introduce(c, a);
    steps := Connect(c, steps, a);
    steps := SendOffer(c, steps, a, c.host, 1, 0);
    MarkedAdmitted(c, Run(c, steps).tables[c.host], 1, [a]);
    steps := SendOffer(c, steps, c.host, a, 0, 1);
    var w, offer := Run(c, steps), OfferFrom(c, c.host, a, 0);
    OfferShape(c, c.host, a, 0);
    steps := Hand(c, steps, offer);
    OfferTaken(c, w.tables[a], a, c.host, 1, 0, true);
    NoOfferOwed(Run(c, steps).tables[a], 1, c.session, 0, c.host, Some(PairContext(c, a, c.host, 1, 0)));
    NoOfferOwed(w.tables[c.host], 0, c.session, 1, a, None);
  }

  lemma MarkedAdmitted(c: Config, t: Table, id: u8, addrs: seq<SocketAddr>)
    requires Admitted(c, t, addrs)
    ensures id in t.peers ==> Admitted(c, MarkSent(t, id), addrs)
  {
    if id in t.peers { assert MarkSent(t, id).peers.Keys == t.peers.Keys && |MarkSent(t, id).peers| == |t.peers|; }
  }

  lemma NoOfferOwed(t: Table, myId: u8, session: SessionId, id: u8, other: SocketAddr, ctx: Option<Context>)
    requires Solo(t, myId, session, PeerAt(id, other, Connected, true, ctx))
    ensures !OwesOffer(t, id)
  {
  }
}
