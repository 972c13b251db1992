/**
 * What a repeated JOIN can break, and exactly when. The host answers every JOIN with a fresh
 * id, so a node whose JOIN arrives twice changes its id under way. Each theorem of
 * MeshConnected then has a run that violates it, for every configuration and joiner.
 */
module RepeatedJoins {
  import opened Words
  import opened Wire
  import opened Crypto
  import opened PeerListCodec
  import opened PeerTable
  import opened Handshake
  import opened Mesh
  import opened MeshAgreement
  import opened MeshReached
  import opened MeshConnected
  import opened HandshakeRuns

  // ---------------------------------------------------------------------
  // Reading lists.
  // ---------------------------------------------------------------------

  lemma {:induction false} GreetKeepsIds(me: Local, t: Table, es: seq<Entry>, sender: u8, src: SocketAddr)
    ensures var t' := Greet(me, t, es, sender, src).table;
            && t'.localId == t.localId && (forall id | id in t.peers :: id in t'.peers)
            && (t.localId in t'.peers ==> t.localId in t.peers)
    decreases |es|
  {
    if es != [] {
      if es[0].id == t.localId {
        GreetKeepsIds(me, t, es[1..], sender, src);
      } else {
        var (t1, ok) := AddPeer(t, es[0].id, Resolve(es[0], sender, src));
        if ok { GreetKeepsIds(me, WithState(t1, es[0].id, HelloSent), es[1..], sender, src); }
      }
    }
  }

  /** Reading a list makes a node its own peer exactly if it already files the id it takes. */
  lemma OwnPeerExactly(me: Local, t: Table, src: SocketAddr, p: Packet, list: PeerList)
    requires ListRead(me, p) == Some(list) && list.peers != []
    ensures var t' := HandlePeerList(me, t, src, p).table;
            t'.localId in t'.peers <==> MaxId(list.peers) in t.peers
  {
    GreetKeepsIds(me, SetIdentity(t, MaxId(list.peers), list.session), list.peers, p.header.peerId, src);
    hide ListRead, Greet, MaxId;
  }

  function HelloOf(me: Local, t: Table, to: SocketAddr): Send {
    Send(to, Make(Context(me.psk, t.session), PKT_HELLO, t.localId, Nothing))
  }

  /** The third of three listed nodes, knowing nobody, greets the other two. */
  lemma GreetTwo(me: Local, t: Table, x: Entry, y: Entry, z: Entry, src: SocketAddr)
    requires t.peers == map[] && z.id == t.localId && x.id != z.id && y.id != z.id && x.id != y.id
    ensures var r := Greet(me, t, [x, y, z], x.id, src);
            y.id in r.table.peers && r.sent == [HelloOf(me, t, src), HelloOf(me, t, y.addr)]
  {
    hide Make;
    var t2 := WithState(AddPeer(t, x.id, src).0, x.id, HelloSent);
    var t4 := WithState(AddPeer(t2, y.id, y.addr).0, y.id, HelloSent);
    assert [x, y, z][1..] == [y, z] && [y, z][1..] == [z] && [z][1..] == [];
    assert t4.peers.Keys == {x.id, y.id};
    assert Greet(me, t4, [z], x.id, src) == Reply(t4, []);
    assert Greet(me, t2, [y, z], x.id, src) == Reply(t4, [HelloOf(me, t, y.addr)] + []);
  }

  /** The second node to be admitted reads its first list. */
  lemma ReadTwo(c: Config, t: Table, a: SocketAddr, b: SocketAddr)
    requires b in c.secrets && t.peers == map[]
    ensures var r := HandlePeerList(Me(c, b), t, c.host, AnswerOf(c, [a, b]).packet);
            && 1 in r.table.peers && |r.sent| == 2
            && r.sent[1] == Send(a, InSession(c, b, a, PKT_HELLO, 2, Nothing).packet)
  {
    var zero, es := Context(c.psk, NO_SESSION), ListOf(c, [a, b]);
    var p, t1 := AnswerOf(c, [a, b]).packet, SetIdentity(t, 2, c.session);
    MakeSeals(zero, PKT_PEER_LIST, 0, Members(PeerList(c.session, es)));
    OpenedExactly(zero, zero, p);
    AnswerShape(c, [a, b]);
    assert HandlePeerList(Me(c, b), t, c.host, p) == Greet(Me(c, b), t1, es, 0, c.host);
    assert es == [Entry(0, c.host), Entry(1, a), Entry(2, b)];
    hide Opened, HandlePeerList, MaxId, SealedBy, ListRead, ListOf, Greet;
    GreetTwo(Me(c, b), t1, Entry(0, c.host), Entry(1, a), Entry(2, b), c.host);
  }

  // ---------------------------------------------------------------------
  // A node as its own peer.
  // ---------------------------------------------------------------------

  /**
   * For every configuration and every joiner there is a run, with its one JOIN delivered
   * twice and the two answers read in the wrong order, after which it is its own peer.
   */
  lemma RepeatedJoinMakesOwnPeer(c: Config, a: SocketAddr) returns (steps: seq<Step>)
    requires ValidConfig(c) && a in c.secrets && a != c.host
    ensures Legal(c, steps)
    ensures Run(c, steps).tables[a].localId in Run(c, steps).tables[a].peers
  {
    var one, both := [a], [a, a];
    hide Run, Legal, Admitted, AnswerOf, HandlePeerList, Greeted;
    steps := BothAdmitted(c, a, a, both);
    ReadTwo(c, NewJoiner(), a, a);
    steps := Read(c, steps, both);
    var t := Run(c, steps).tables[a];
    steps := Read(c, steps, one);
    GreetedKeepsIds(SetIdentity(t, 1, c.session), Run(c, steps).tables[a]);
  }

  lemma GreetedKeepsIds(t: Table, t': Table)
    requires Greeted(t, t')
    ensures t'.localId == t.localId && t'.session == t.session && forall id | id in t.peers :: id in t'.peers
  {
  }

  // ---------------------------------------------------------------------
  // Keys that disagree.
  // ---------------------------------------------------------------------

  lemma DifferentIdsDifferentKeys(c: Config, a: SocketAddr)
    requires a in c.secrets && c.host in c.secrets
    ensures PairContext(c, a, c.host, 2, 0) != PairContext(c, a, c.host, 1, 0)
  {
    PairContextAgrees(c, a, c.host, 1, 0);
    DeriveAgreesExactly(c.secrets[a], c.secrets[c.host], c.session, 2, 0, 1);
    DeriveAgrees(c.secrets[a], c.secrets[c.host], c.session, 2, 0);
    DeriveAgrees(c.secrets[c.host], c.secrets[a], c.session, 0, 1);
    hide DerivePeerKey;
  }

  /** The host offers to a peer it has just admitted. */
  lemma HostOffers(c: Config, steps: seq<Step>, a: SocketAddr, id: u8) returns (steps': seq<Step>)
    requires ValidConfig(c) && Legal(c, steps) && a in c.secrets
    requires var t := Run(c, steps).tables[c.host];
             t.localId == 0 && t.session == c.session && OwesOffer(t, id) && t.peers[id].addr == a
    ensures Legal(c, steps')
    ensures var (w, w') := (Run(c, steps), Run(c, steps'));
            && w'.tables == w.tables[c.host := MarkSent(w.tables[c.host], id)]
            && OfferFrom(c, c.host, a, 0) in w'.net
  {
    var w, s := Run(c, steps), OfferKey(c.host, id);
    RunSnoc(c, steps, s);
    steps' := steps + [s];
    hide Run, Legal, Make;
    Posted(w, c.host, MarkSent(w.tables[c.host], id), a, OfferFrom(c, c.host, a, 0).packet);
  }

  /** A node with an identity takes the host's offer. */
  lemma TakeOffer(c: Config, steps: seq<Step>, a: SocketAddr) returns (steps': seq<Step>)
    requires ValidConfig(c) && Legal(c, steps) && a in c.secrets && a != c.host
    requires OfferFrom(c, c.host, a, 0) in Run(c, steps).net
    requires var t := Run(c, steps).tables[a]; t.session == c.session && 0 in t.peers && t.peers[0].addr == c.host
    ensures Legal(c, steps')
    ensures var (w, w') := (Run(c, steps), Run(c, steps'));
            && w'.tables == w.tables[a := w'.tables[a]]
            && TookKey(c, a, w.tables[a], w'.tables[a], 0)
  {
    var w, m := Run(c, steps), OfferFrom(c, c.host, a, 0);
    RunKeepsInv(c, steps);
    NodeFacts(c, w, a);
    MsgFacts(c, w, m);
    OfferShape(c, c.host, a, 0);
    hide Inv, Run, Legal, HandleKeyExchange, KeyTaken, NodeOk, MsgOk, RollOk, RollIsHosts, RollOf, TookKey, OfferFrom;
    KeyTakenIs(c, TheRoll(c, w), a, w.tables[a], m);
    KeyExchangeDoes(c, TheRoll(c, w), a, w.tables[a], m);
    steps' := Hand(c, steps, m);
  }

  /** The joiner has become node 2 and still holds the context it had as node 1, as the host does. */
  ghost predicate Renamed(c: Config, a: SocketAddr, w: World)
    requires a in c.secrets && c.host in c.secrets
  {
    && a in w.tables && c.host in w.tables
    && var (t, host) := (w.tables[a], w.tables[c.host]);
       && t.localId == 2 && t.session == c.session
       && 0 in t.peers && t.peers[0].addr == c.host && t.peers[0].kxSent
       && host.localId == 0 && host.session == c.session && 1 in host.peers && 2 in host.peers
       && host.peers[1] == PeerAt(1, a, Connected, true, Some(PairContext(c, a, c.host, 1, 0)))
       && host.peers[2] == NewPeer(2, a).(state := Connected)
  }

  lemma JoinAgain(c: Config, a: SocketAddr) returns (steps: seq<Step>)
    requires ValidConfig(c) && a in c.secrets && a != c.host
    ensures Legal(c, steps) && Renamed(c, a, Run(c, steps))
  {
    var two := [a, a];
    assert two[..1] == [a];
    hide Run, Legal, Make, Admitted, AnswerOf, HandlePeerList, Greeted, PairContext, JoinOf, PeerAt, Renamed;
    steps := HandshakeCompletes(c, a);
    var w0 := Run(c, steps);
    steps := Join(c, steps, two);
    var w1 := Run(c, steps);
    HostIs(c, w1.tables[c.host], two);
    steps := Read(c, steps, two);
    RenamedIs(c, a, w0, w1, Run(c, steps));
  }

  lemma RenamedIs(c: Config, a: SocketAddr, w0: World, w1: World, w: World)
    requires a in c.secrets && c.host in c.secrets && a != c.host && a in w0.tables && c.host in w0.tables
    requires Solo(w0.tables[a], 1, c.session, PeerAt(0, c.host, Connected, true, Some(PairContext(c, a, c.host, 1, 0))))
    requires Solo(w0.tables[c.host], 0, c.session, PeerAt(1, a, Connected, true, Some(PairContext(c, a, c.host, 1, 0))))
    requires c.host in w1.tables && w1.tables == w0.tables[c.host := w1.tables[c.host]]
    requires w1.tables[c.host].localId == 0 && w1.tables[c.host].session == c.session
    requires w1.tables[c.host].peers == w0.tables[c.host].peers[2 := NewPeer(2, a).(state := Connected)]
    requires a in w.tables && w.tables == w1.tables[a := w.tables[a]]
    requires Greeted(SetIdentity(w1.tables[a], 2, c.session), w.tables[a])
    ensures Renamed(c, a, w)
  {
    hide PairContext, Greeted;
    GreetedKeepsPeer(SetIdentity(w1.tables[a], 2, c.session), w.tables[a], 0);
  }

  /**
   * For every configuration and joiner there is a run after which the joiner and the host
   * hold different contexts for each other, and neither owes the other an offer: they have
   * exchanged keys, the JOIN arrives once more, and the host offers to the new id.
   */
  lemma RepeatedJoinSplitsKeys(c: Config, a: SocketAddr) returns (steps: seq<Step>)
    requires ValidConfig(c) && a in c.secrets && a != c.host
    ensures Legal(c, steps)
    ensures var w := Run(c, steps);
            && Paired(w, a, 0, c.host, 1)
            && w.tables[a].peers[0].context != w.tables[c.host].peers[1].context
            && !OwesOffer(w.tables[a], 0) && !OwesOffer(w.tables[c.host], 1) && !OwesOffer(w.tables[c.host], 2)
  {
    hide Run, Legal, PairContext, OfferFrom, TookKey;
    steps := JoinAgain(c, a);
    var t, host := Run(c, steps).tables[a], Run(c, steps).tables[c.host];
    steps := HostOffers(c, steps, a, 2);
    steps := TakeOffer(c, steps, a);
    SplitIs(c, a, t, host, Run(c, steps));
  }

  lemma SplitIs(c: Config, a: SocketAddr, t: Table, host: Table, w: World)
    requires a in c.secrets && c.host in c.secrets && a != c.host && a in w.tables && c.host in w.tables
    requires TookKey(c, a, t, w.tables[a], 0) && t.localId == 2 && t.peers[0].kxSent && t.peers[0].addr == c.host
    requires 1 in host.peers && 2 in host.peers && w.tables[c.host] == MarkSent(host, 2)
    requires host.peers[1] == PeerAt(1, a, Connected, true, Some(PairContext(c, a, c.host, 1, 0)))
    ensures Paired(w, a, 0, c.host, 1) && w.tables[a].peers[0].context != w.tables[c.host].peers[1].context
    ensures !OwesOffer(w.tables[a], 0) && !OwesOffer(w.tables[c.host], 1) && !OwesOffer(w.tables[c.host], 2)
  {
    DifferentIdsDifferentKeys(c, a);
    hide PairContext;
  }

  lemma GreetedKeepsPeer(t: Table, t': Table, id: u8)
    requires Greeted(t, t') && id in t.peers
    ensures t'.localId == t.localId && t'.session == t.session && id in t'.peers
    ensures t'.peers[id] == t.peers[id].(state := t'.peers[id].state)
  {
  }

  lemma HostIs(c: Config, t: Table, addrs: seq<SocketAddr>)
    requires Admitted(c, t, addrs)
    ensures t.localId == 0 && t.session == c.session
    ensures forall id | id in t.peers :: 1 <= id <= |addrs|
  {
  }

  // ---------------------------------------------------------------------
  // Filed under an id that is no longer one's own.
  // ---------------------------------------------------------------------

  lemma RoomForOne(t: Table)
    requires 2 !in t.peers && forall k | k in t.peers :: k in {0, 1, 2, 3}
    ensures |t.peers| < 4
  {
    var rest: set<u8>, known := {0, 1, 3}, t.peers.Keys;
    assert |rest| == 3 && known <= rest;
    hide *;
    assert rest == known + (rest - known);
  }

  /** The HELLO of node 2, read by a node with a larger id, connects it. */
  lemma HelloConnects(c: Config, roll: Roll, a: SocketAddr, b: SocketAddr, t: Table)
    requires ValidConfig(c) && RollOk(c, roll) && NodeOk(c, roll, a, t) && a in c.secrets && a != b
    requires MsgOk(c, roll, InSession(c, b, a, PKT_HELLO, 2, Nothing))
    requires t.session == c.session && t.localId == 3 && forall k | k in roll :: k in {0, 1, 2, 3}
    ensures var t' := HandleHello(Me(c, a), t, b, InSession(c, b, a, PKT_HELLO, 2, Nothing).packet).table;
            t'.localId == 3 && 2 in t'.peers && t'.peers[2].addr == b && t'.peers[2].state == Connected
  {
    var m := InSession(c, b, a, PKT_HELLO, 2, Nothing);
    InSessionOpens(c, t, b, a, PKT_HELLO, 2, Nothing);
    assert m.src == b && m.packet.header == Header(PKT_HELLO, 2, 0, 0);
    assert forall k | k in t.peers :: k in {0, 1, 2, 3};
    if 2 !in t.peers { RoomForOne(t); }
    hide NodeOk, MsgOk, RollOk, Opened, Make, InSession;
    assert HandleHello(Me(c, a), t, b, m.packet).sent != [];
    HelloCases(c, roll, a, t, m);
    hide HandleHello;
  }

  /** Nodes a and b have been admitted, and b, having read its list, files nobody under 3. */
  ghost predicate BothIn(c: Config, a: SocketAddr, b: SocketAddr, w: World) {
    && a in w.tables && b in w.tables && c.host in w.tables
    && JoinOf(c, a) in w.net && InSession(c, b, a, PKT_HELLO, 2, Nothing) in w.net
    && Admitted(c, w.tables[c.host], [a, b]) && 3 !in w.tables[b].peers
  }

  /** Both JOINs reach the host. */
  lemma BothAdmitted(c: Config, a: SocketAddr, b: SocketAddr, both: seq<SocketAddr>) returns (steps: seq<Step>)
    requires ValidConfig(c) && a in c.secrets && b in c.secrets && a != c.host && b != c.host && both == [a, b]
    ensures Legal(c, steps)
    ensures var w := Run(c, steps);
            && JoinOf(c, a) in w.net && AnswerOf(c, [a]) in w.net && AnswerOf(c, both) in w.net
            && Admitted(c, w.tables[c.host], both)
            && w.tables[a] == NewJoiner() && w.tables[b] == NewJoiner()
  {
    hide Run, Legal, Make, Admitted, AnswerOf, JoinOf, NewJoiner;
    var one := [a];
    assert one[..0] == [] && both[..1] == one;
    steps := BothAsk(c, a, b);
    steps := Join(c, steps, one);
    steps := Join(c, steps, both);
  }

  lemma BothAsk(c: Config, a: SocketAddr, b: SocketAddr) returns (steps: seq<Step>)
    requires ValidConfig(c) && a in c.secrets && b in c.secrets && a != c.host && b != c.host
    ensures Legal(c, steps) && Run(c, steps).net >= {JoinOf(c, a), JoinOf(c, b)}
    ensures var w := Run(c, steps);
            Admitted(c, w.tables[c.host], []) && w.tables[a] == NewJoiner() && w.tables[b] == NewJoiner()
  {
    StartAdmits(c);
    assert Start(c).tables[b] == Start(c).tables[a] == NewJoiner();
    hide *;
    steps := Ask(c, [], a);
    steps := Ask(c, steps, b);
  }

  lemma BothJoin(c: Config, a: SocketAddr, b: SocketAddr) returns (steps: seq<Step>)
    requires ValidConfig(c) && a in c.secrets && b in c.secrets && a != c.host && b != c.host && a != b
    ensures Legal(c, steps) && BothIn(c, a, b, Run(c, steps))
  {
    var both := [a, b];
    hide Run, Legal, Make, Admitted, AnswerOf, HandlePeerList, Greeted, JoinOf, InSession, Inv;
    steps := BothAdmitted(c, a, b, both);
    var w := Run(c, steps);
    ReadTwo(c, NewJoiner(), a, b);
    steps := Read(c, steps, both);
    var r := HandlePeerList(Me(c, b), w.tables[b], c.host, AnswerOf(c, both).packet);
    assert Msg(b, r.sent[1].to, r.sent[1].packet) in Out(b, r.sent);
    Addressed(c, b, a, PKT_HELLO, 2, Nothing);
    RunKeepsInv(c, steps);
    OnlyFirstTwo(c, Run(c, steps), a, b);
  }

  lemma OnlyFirstTwo(c: Config, w: World, a: SocketAddr, b: SocketAddr)
    requires Inv(c, w) && b in w.tables && Admitted(c, w.tables[c.host], [a, b])
    ensures 3 !in w.tables[b].peers
  {
    NodeFacts(c, w, b);
    HostIs(c, w.tables[c.host], [a, b]);
  }

  /** The first JOIN arrives again, and its sender becomes node 3. */
  lemma FirstAgain(c: Config, a: SocketAddr, b: SocketAddr, all: seq<SocketAddr>) returns (steps: seq<Step>)
    requires ValidConfig(c) && a in c.secrets && b in c.secrets && a != c.host && b != c.host && a != b
    requires all == [a, b, a]
    ensures Legal(c, steps)
    ensures var w := Run(c, steps);
            && InSession(c, b, a, PKT_HELLO, 2, Nothing) in w.net && 3 !in w.tables[b].peers
            && Admitted(c, w.tables[c.host], all) && w.tables[a].localId == 3 && w.tables[a].session == c.session
  {
    var both := [a, b];
    assert all[..2] == both;
    hide Run, Legal, Make, Admitted, AnswerOf, HandlePeerList, Greeted, JoinOf, InSession;
    steps := BothJoin(c, a, b);
    steps := Join(c, steps, all);
    var t := Run(c, steps).tables[a];
    steps := Read(c, steps, all);
    GreetedKeepsIds(SetIdentity(t, 3, c.session), Run(c, steps).tables[a]);
  }

  /**
   * For every configuration and two joiners there is a run after which the first has the
   * second Connected while the second does not file it under the id it goes by.
   */
  lemma RepeatedJoinMovesId(c: Config, a: SocketAddr, b: SocketAddr) returns (steps: seq<Step>)
    requires ValidConfig(c) && a in c.secrets && b in c.secrets && a != c.host && b != c.host && a != b
    ensures Legal(c, steps)
    ensures var w := Run(c, steps);
            HasConnected(c, w, a, 2) && w.tables[a].peers[2].addr == b && !Files(w, b, w.tables[a].localId, a)
  {
    var all := [a, b, a];
    hide Run, Legal, Admitted, InSession, Inv, HandleHello, NodeOk, MsgOk, RollOk, RollIsHosts;
    steps := FirstAgain(c, a, b, all);
    var w, m := Run(c, steps), InSession(c, b, a, PKT_HELLO, 2, Nothing);
    RunKeepsInv(c, steps);
    NodeFacts(c, w, a);
    MsgFacts(c, w, m);
    HostIs(c, w.tables[c.host], all);
    HelloConnects(c, TheRoll(c, w), a, b, w.tables[a]);
    Addressed(c, b, a, PKT_HELLO, 2, Nothing);
    steps := Hand(c, steps, m);
  }
}
