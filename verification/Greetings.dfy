/**
 * Joiners find each other: over every run the first list a node reads makes it greet everyone
 * on it, and a HELLO connects its sender; and a run in which two joiners connect.
 */
module Greetings {
  import opened Words
  import opened Wire
  import opened Crypto
  import opened PeerListCodec
  import opened PeerTable
  import opened Handshake
  import opened Branches
  import opened Mesh
  import opened MeshAgreement
  import opened MeshReached
  import opened MeshConnected
  import opened HandshakeRuns
  import RepeatedJoins

  // ---------------------------------------------------------------------
  // HELLO, over every run.
  // ---------------------------------------------------------------------

  /** The host gives out ids below five. */
  lemma RollIds(c: Config, w: World)
    requires Inv(c, w)
    ensures c.host in w.tables && forall id | id in TheRoll(c, w) :: id < 5
  {
    NodeFacts(c, w, c.host);
    hide Agrees, RollOk, RollIsHosts, Inv;
  }

  /** A table that knows neither its node nor one other of the five has room. */
  lemma RoomForOther(peers: set<u8>, own: u8, id: u8)
    requires (forall k | k in peers :: k < 5) && own !in peers && id !in peers && own != id && own < 5 && id < 5
    ensures |peers| < 4
  {
    var ids, rest: set<u8> := {0, 1, 2, 3, 4}, {0, 1, 2, 3, 4} - {own, id};
    assert |ids| == 5 && ids == rest + {own, id} && |{own, id}| == 2;
    assert |rest| == 3 && peers <= rest;
    assert rest == peers + (rest - peers);
  }

  /** Node a has its identity and the packet its sender's, and they are not the same. */
  lemma HelloIsOthers(c: Config, w: World, m: Msg)
    requires KeyInv(c, w) && ReachInv(c, w) && m in w.net && m.dst in w.tables && m.packet.header.pktType == 0x03
    requires c.host in w.tables && OneId(TheRoll(c, w), m.dst) && w.tables[m.dst].session == c.session
    ensures var (t, id, roll) := (w.tables[m.dst], m.packet.header.peerId, TheRoll(c, w));
            && m.src != m.dst && id in roll && roll[id] == m.src && t.localId in roll && roll[t.localId] == m.dst
            && t.localId !in t.peers && Opened(Context(c.psk, t.session), m.packet).Some?
            && (forall k | k in t.peers :: k in roll && t.peers[k].addr == roll[k])
  {
    var a, t, roll := m.dst, w.tables[m.dst], TheRoll(c, w);
    NodeFacts(c, w, a);
    MsgFacts(c, w, m);
    SessionPacketOpens(c, roll, t, m);
    assert Knows(w, m.src, a) by { assert Backed(w, m); }
    if m.src == a { NotOneself(c, w, a); }
    assert KeysOk(c, a, t);
    hide KeyInv, ReachInv, Opened, RollOf, RollOk, RollIsHosts, OneId, Knows, SealedBy;
  }

  /** A HELLO of a reachable state, at a node admitted once: its sender is known, or there is room. */
  lemma HelloHasRoom(c: Config, w: World, m: Msg)
    requires KeyInv(c, w) && ReachInv(c, w) && m in w.net && m.dst in w.tables && m.packet.header.pktType == 0x03
    requires c.host in w.tables && OneId(TheRoll(c, w), m.dst) && w.tables[m.dst].session == c.session
    ensures var (t, id) := (w.tables[m.dst], m.packet.header.peerId);
            && m.src != m.dst && Opened(Context(c.psk, t.session), m.packet).Some?
            && (if id in t.peers then t.peers[id].addr == m.src else id != t.localId && |t.peers| < 4)
  {
    var t, id := w.tables[m.dst], m.packet.header.peerId;
    assert Inv(c, w);
    hide *;
    HelloIsOthers(c, w, m);
    RollIds(c, w);
    if id !in t.peers {
      assert id < 5 && t.localId < 5 && id != t.localId;
      RoomForOther(t.peers.Keys, t.localId, id);
      assert |t.peers| == |t.peers.Keys|;
    }
  }

  /**
   * Over every run: a HELLO that reaches a node admitted at most once, after that node has its
   * identity, always leaves its sender Connected at its own address, known before or not, changes
   * no other peer, and is acknowledged to the sender alone.
   */
  lemma HelloConnectsSender(c: Config, steps: seq<Step>, m: Msg)
    requires ValidConfig(c) && Legal(c, steps) && m in Run(c, steps).net && m.dst in c.secrets
    requires m.packet.header.pktType == 0x03
    requires var w := Run(c, steps); OneId(TheRoll(c, w), m.dst) && w.tables[m.dst].session == c.session
    ensures var (t, id) := (Run(c, steps).tables[m.dst], m.packet.header.peerId);
            var (r, p) := (HandleHello(Me(c, m.dst), t, m.src, m.packet), EntryFor(t, id, m.src));
            && m.src != m.dst && p.addr == m.src && OnlyEntry(t, r.table, id, p.(state := Connected))
            && SendsOne(r.sent, m.src, Context(c.psk, c.session), 0x06, t.localId, Nothing)
  {
    var t := Run(c, steps).tables[m.dst];
    RunKeepsKeyInv(c, steps);
    RunKeepsReach(c, steps);
    hide Run, Legal, KeyInv, ReachInv, RollOf, OneId, HandleHello, Opened, OnlyEntry, SendsOne;
    HelloHasRoom(c, Run(c, steps), m);
    HelloExactly(Me(c, m.dst), t, m.src, m.packet);
  }

  // ---------------------------------------------------------------------
  // The first list, over every run.
  // ---------------------------------------------------------------------

  function IdsIn(es: seq<Entry>): set<u8> { set k | 0 <= k < |es| :: es[k].id }

  lemma {:induction false} IdsInAtMost(es: seq<Entry>)
    ensures |IdsIn(es)| <= |es|
  {
    if es == [] {
      assert IdsIn(es) == {};
    } else {
      var rest := es[1..];
      IdsInAtMost(rest);
      assert forall k | 0 < k < |es| :: es[k] == rest[k - 1];
      assert IdsIn(es) <= IdsIn(rest) + {es[0].id};
      SubsetSize(IdsIn(es), IdsIn(rest) + {es[0].id});
    }
  }

  lemma SubsetSize(x: set<u8>, y: set<u8>)
    requires x <= y
    ensures |x| <= |y|
  {
    assert y == x + (y - x);
  }

  function Below(n: nat): (s: set<u8>)
    requires n <= 0x100
    ensures |s| == n && forall i: u8 :: i in s <==> i < n
  {
    if n == 0 then {} else Below(n - 1) + {n - 1}
  }

  /** A list of k + 1 entries that names all of 0..k names each once. */
  lemma ListIsDistinct(es: seq<Entry>, k: u8, i: nat, j: nat)
    requires |es| == k + 1 && (forall id: u8 :: id <= k ==> Lists(es, id)) && i < j < |es|
    ensures es[i].id != es[j].id
  {
    if es[i].id == es[j].id {
      var rest := es[..j] + es[j + 1..];
      forall id | id in Below(k + 1) ensures id in IdsIn(rest) {
        assert Lists(es, id);
        var m :| 0 <= m < |es| && es[m].id == id;
        assert rest[if m < j then m else if m == j then i else m - 1].id == id;
      }
      SubsetSize(Below(k + 1), IdsIn(rest));
      IdsInAtMost(rest);
    }
  }

  /** The entries of others are all but our own. */
  lemma {:induction false} OthersAreTheRest(es: seq<Entry>, own: u8, j: nat)
    requires j < |es| && forall k | 0 <= k < |es| :: es[k].id == own <==> k == j
    ensures OtherEntries(es, own) == es[..j] + es[j + 1..]
    decreases |es|
  {
    var rest := es[1..];
    if j == 0 {
      NoneOfOurs(rest, own);
    } else {
      assert forall k | 0 <= k < |rest| :: rest[k] == es[k + 1];
      OthersAreTheRest(rest, own, j - 1);
      assert [es[0]] + (rest[..j - 1] + rest[j..]) == es[..j] + es[j + 1..];
    }
  }

  lemma {:induction false} NoneOfOurs(es: seq<Entry>, own: u8)
    requires forall k | 0 <= k < |es| :: es[k].id != own
    ensures OtherEntries(es, own) == es
  {
    if es != [] {
      NoneOfOurs(es[1..], own);
      assert [es[0]] + es[1..] == es;
    }
  }

  /** The list names each of 0..k once and nothing else. */
  ghost predicate Roster(es: seq<Entry>, k: u8) {
    && |es| == k + 1 && (forall j | 0 <= j < |es| :: es[j].id <= k)
    && (forall id: u8 :: id <= k ==> Lists(es, id))
    && (forall i, j | 0 <= i < j < |es| :: es[i].id != es[j].id)
  }

  /** A node that knows nobody has room for everyone on a list of at most five. */
  lemma RosterHasRoom(t: Table, es: seq<Entry>)
    requires t.peers == map[] && t.localId < 5 && Roster(es, t.localId)
    ensures RoomUpTo(t, es, |es|)
  {
    var k := t.localId;
    forall j: nat | j < |es| ensures RoomAt(t, es, j) {
      if es[j].id != k {
        var before := Others(es[..j], k);
        assert es[j].id !in before && before <= Below(k) - {es[j].id};
        SubsetSize(before, Below(k) - {es[j].id});
        assert t.peers.Keys + before == before;
      }
    }
    hide RoomAt;
  }

  /** Everyone but ourselves is in the table, HelloSent, at the listed address. */
  lemma RosterGreeted(t: Table, t': Table, es: seq<Entry>, sender: u8, src: SocketAddr, j: nat)
    requires t.peers == map[] && Roster(es, t.localId) && GreetedAll(t, t', es, sender, src)
    requires j < |es| && es[j].id != t.localId
    ensures var (id, addr) := (es[j].id, Resolve(es[j], sender, src));
            id in t'.peers && t'.peers[id] == Peer(id, addr, HelloSent, false, false, None)
  {
    assert LastFor(es, j);
    hide Resolve;
  }

  lemma RosterKeys(t: Table, t': Table, es: seq<Entry>, sender: u8, src: SocketAddr)
    requires t.peers == map[] && Roster(es, t.localId) && GreetedAll(t, t', es, sender, src)
    ensures t'.peers.Keys == Below(t.localId)
  {
    forall id | id in Below(t.localId) ensures id in Others(es, t.localId) {
      assert Lists(es, id);
    }
    assert t'.peers.Keys == Others(es, t.localId);
  }

  /** Everyone but ourselves was sent a HELLO. */
  lemma RosterHello(me: Local, t: Table, sent: seq<Send>, es: seq<Entry>, sender: u8, src: SocketAddr, j: nat) returns (n: nat)
    requires Roster(es, t.localId) && HelloToAll(me, t, sent, es, sender, src) && j < |es| && es[j].id != t.localId
    ensures |sent| == t.localId && n < |sent| && sent[n].to == Resolve(es[j], sender, src)
    ensures IsControl(sent[n].packet, Context(me.psk, t.session), 0x03, t.localId, Nothing)
  {
    assert Lists(es, t.localId);
    var own :| 0 <= own < |es| && es[own].id == t.localId;
    OthersAreTheRest(es, t.localId, own);
    n := if j < own then j else j - 1;
    hide Resolve, IsControl;
    assert (es[..own] + es[own + 1..])[n] == es[j];
  }

  lemma ListedAre(c: Config, roll: Roll, es: seq<Entry>, reader: SocketAddr)
    requires ListOk(roll, es, reader) && 0 in roll && roll[0] == c.host && forall id | id in roll :: id < 5
    ensures var k := MaxId(es);
            && 0 < k < 5 && Roster(es, k) && k in roll && roll[k] == reader
            && (forall j | 0 <= j < |es| :: es[j].id in roll && Resolve(es[j], 0, c.host) == roll[es[j].id])
  {
    var k := MaxId(es);
    forall i, j | 0 <= i < j < |es| ensures es[i].id != es[j].id { ListIsDistinct(es, k, i, j); }
    hide Lists;
  }

  /** What every list in the network says: a roster of the host's admissions, up to its reader. */
  lemma ListIsRoster(c: Config, w: World, m: Msg)
    requires Inv(c, w) && m in w.net && m.dst in w.tables && m.packet.header.pktType == 0x04
    ensures var p := m.packet;
            && Opened(Context(c.psk, [0, 0, 0, 0, 0, 0, 0, 0]), p) == Some(p.body.plain)
            && m.src == c.host && p.header.peerId == 0 && p.body.plain.Members? && p.body.plain.list.session == c.session
            && var (es, roll) := (p.body.plain.list.peers, TheRoll(c, w));
               && es != []
               && var k := MaxId(es);
                  && 0 < k < 5 && Roster(es, k) && k in roll && roll[k] == m.dst
                  && (forall j | 0 <= j < |es| :: es[j].id in roll && Resolve(es[j], 0, c.host) == roll[es[j].id])
  {
    var p, roll := m.packet, TheRoll(c, w);
    NodeFacts(c, w, c.host);
    MsgFacts(c, w, m);
    RollIds(c, w);
    assert NO_SESSION == [0, 0, 0, 0, 0, 0, 0, 0];
    hide Inv, Opened, SealedBy, Lists, RollOf, RollIsHosts, NodeOk, ListOk, Roster, Resolve, MaxId;
    OpenedExactly(Context(c.psk, NO_SESSION), Context(c.psk, NO_SESSION), p);
    assert ListOk(roll, p.body.plain.list.peers, m.dst);
    ListedAre(c, roll, p.body.plain.list.peers, m.dst);
  }

  lemma UpToIsAll(t: Table, es: seq<Entry>, n: nat)
    requires RoomUpTo(t, es, n) && RoomUpTo(t, es, |es|)
    ensures n == |es| && es[..n] == es
  {
    hide RoomAt;
  }

  /** A node that knows nobody reads a roster that makes it node k. */
  lemma RosterRead(me: Local, t: Table, src: SocketAddr, p: Packet, k: u8)
    requires t.peers == map[] && Opened(Context(me.psk, [0, 0, 0, 0, 0, 0, 0, 0]), p) == Some(p.body.plain)
    requires p.body.plain.Members? && p.body.plain.list.peers != []
    requires k == MaxId(p.body.plain.list.peers) && k < 5 && Roster(p.body.plain.list.peers, k)
    ensures var (r, list) := (HandlePeerList(me, t, src, p), p.body.plain.list);
            var t1 := t.(localId := k, session := list.session);
            && t1.peers == map[] && r.table.localId == k && r.table.session == list.session
            && GreetedAll(t1, r.table, list.peers, p.header.peerId, src)
            && HelloToAll(me, t1, r.sent, list.peers, p.header.peerId, src)
  {
    var es := p.body.plain.list.peers;
    hide HandlePeerList, Opened, Roster, RoomUpTo, GreetedAll, HelloToAll;
    var own, n := PeerListExactly(me, t, src, p);
    assert own == k;
    hide MaxId;
    var t1 := t.(localId := own, session := p.body.plain.list.session);
    RosterHasRoom(t1, es);
    UpToIsAll(t1, es, n);
  }

  /**
   * Over every run: a node that knows nobody and reads a list takes the largest id on it, k, and
   * then knows exactly the nodes 0..k-1, each HelloSent at the address the host admitted it at
   * (the host at its own), and has sent exactly k packets, a HELLO in its name to each of them.
   */
  lemma FirstListGreetsAll(c: Config, steps: seq<Step>, m: Msg, id: u8) returns (n: nat)
    requires ValidConfig(c) && Legal(c, steps) && m in Run(c, steps).net && m.dst in c.secrets
    requires m.packet.header.pktType == 0x04 && Run(c, steps).tables[m.dst].peers == map[]
    ensures var (w, host) := (Run(c, steps), Run(c, steps).tables[c.host]);
            var r := HandlePeerList(Me(c, m.dst), w.tables[m.dst], m.src, m.packet);
            var k := r.table.localId;
            && 0 < k && k in host.peers && host.peers[k].addr == m.dst && r.table.session == c.session
            && (id in r.table.peers <==> id < k) && |r.sent| == k
            && (id < k ==>
                  && (id == 0 || id in host.peers)
                  && var addr := if id == 0 then c.host else host.peers[id].addr;
                     && r.table.peers[id] == Peer(id, addr, HelloSent, false, false, None)
                     && n < |r.sent| && r.sent[n].to == addr
                     && IsControl(r.sent[n].packet, Context(c.psk, c.session), 0x03, k, Nothing))
  {
    n := 0;
    var w, a, p := Run(c, steps), m.dst, m.packet;
    var me, t, host := Me(c, a), w.tables[a], w.tables[c.host];
    RunKeepsInv(c, steps);
    hide Run, Legal, Inv, HandlePeerList, Opened, Roster, GreetedAll, HelloToAll, Resolve, Lists, IsControl, MaxId;
    ListIsRoster(c, w, m);
    var es := p.body.plain.list.peers;
    var k := MaxId(es);
    RosterRead(me, t, c.host, p, k);
    var t1, r := t.(localId := k, session := c.session), HandlePeerList(me, t, c.host, p);
    RosterKeys(t1, r.table, es, 0, c.host);
    var first := RosterAt(es, k, 0);
    n := RosterHello(me, t1, r.sent, es, 0, c.host, first);
    if id < k {
      var j := RosterAt(es, k, id);
      RosterGreeted(t1, r.table, es, 0, c.host, j);
      n := RosterHello(me, t1, r.sent, es, 0, c.host, j);
    }
  }

  lemma RosterAt(es: seq<Entry>, k: u8, id: u8) returns (j: nat)
    requires Roster(es, k) && id <= k
    ensures j < |es| && es[j].id == id
  {
    assert Lists(es, id);
    j :| j < |es| && es[j].id == id;
  }

  // ---------------------------------------------------------------------
  // Two joiners.
  // ---------------------------------------------------------------------

  /** Both have their identities, and the second has greeted the first. */
  ghost predicate Introduced(c: Config, a: SocketAddr, b: SocketAddr, w: World) {
    && a in w.tables && b in w.tables && c.host in w.tables && a != b
    && InSession(c, b, a, 0x03, 2, Nothing) in w.net && Admitted(c, w.tables[c.host], [a, b])
    && Solo(w.tables[a], 1, c.session, PeerAt(0, c.host, HelloSent, false, None))
    && w.tables[b].localId == 2 && w.tables[b].session == c.session
    && 1 in w.tables[b].peers && w.tables[b].peers[1].addr == a
  }

  lemma ReadBoth(c: Config, a: SocketAddr, b: SocketAddr) returns (steps: seq<Step>)
    requires ValidConfig(c) && {a, b} <= c.secrets.Keys - {c.host} && a != b
    ensures Legal(c, steps) && Introduced(c, a, b, Run(c, steps))
  {
    var one, both := [a], [a, b];
    hide Run, Legal, Make, Admitted, AnswerOf, HandlePeerList, Greeted, InSession, Solo, Inv, PeerAt;
    steps := RepeatedJoins.BothAdmitted(c, a, b, both);
    FirstList(c, a, NewJoiner());
    RepeatedJoins.ReadTwo(c, NewJoiner(), a, b);
    steps := Read(c, steps, one);
    var w := Run(c, steps);
    steps := Read(c, steps, both);
    var r := HandlePeerList(Me(c, b), w.tables[b], c.host, AnswerOf(c, both).packet);
    assert Msg(b, r.sent[1].to, r.sent[1].packet) in Out(b, r.sent);
    Addressed(c, b, a, 0x03, 2, Nothing);
    RepeatedJoins.GreetedKeepsIds(SetIdentity(w.tables[b], 2, c.session), Run(c, steps).tables[b]);
    RunKeepsInv(c, steps);
    SecondKnowsFirst(c, Run(c, steps), a, b);
  }

  lemma SecondKnowsFirst(c: Config, w: World, a: SocketAddr, b: SocketAddr)
    requires Inv(c, w) && b in w.tables && Admitted(c, w.tables[c.host], [a, b]) && 1 in w.tables[b].peers
    ensures w.tables[b].peers[1].addr == a
  {
    NodeFacts(c, w, b);
    RepeatedJoins.HostIs(c, w.tables[c.host], [a, b]);
  }

  /** Each of the two files the other Connected, under its id and at its address. */
  ghost predicate Acquainted(w: World, a: SocketAddr, i: u8, b: SocketAddr, j: u8) {
    && a in w.tables && b in w.tables
    && var (t, t') := (w.tables[a], w.tables[b]);
       && t.localId == i && t'.localId == j && j in t.peers && i in t'.peers
       && t.peers[j].state == Connected && t.peers[j].addr == b
       && t'.peers[i].state == Connected && t'.peers[i].addr == a
  }

  /** The first of the two takes the second's HELLO. */
  lemma FirstMeetsSecond(c: Config, t: Table, a: SocketAddr, b: SocketAddr)
    requires a in c.secrets && Solo(t, 1, c.session, PeerAt(0, c.host, HelloSent, false, None))
    ensures var r := HandleHello(Me(c, a), t, b, InSession(c, b, a, 0x03, 2, Nothing).packet);
            && r.table.localId == 1 && 2 in r.table.peers
            && r.table.peers[2] == Peer(2, b, Connected, false, false, None)
            && r.sent == [Send(b, InSession(c, a, b, 0x06, 1, Nothing).packet)]
  {
    InSessionOpens(c, t, b, a, 0x03, 2, Nothing);
    HelloExactly(Me(c, a), t, b, InSession(c, b, a, 0x03, 2, Nothing).packet);
    assert |t.peers| == 1;
    hide Opened, HandleHello;
  }

  /** The second takes the acknowledgement. */
  lemma SecondMeetsFirst(c: Config, t: Table, a: SocketAddr, b: SocketAddr)
    requires b in c.secrets && t.session == c.session && 1 in t.peers
    ensures var r := HandleHelloAck(Me(c, b), t, InSession(c, a, b, 0x06, 1, Nothing).packet);
            && r.table.localId == t.localId && 1 in r.table.peers
            && r.table.peers[1] == t.peers[1].(state := Connected)
  {
    InSessionOpens(c, t, a, b, 0x06, 1, Nothing);
    HelloAckExactly(Me(c, b), t, InSession(c, a, b, 0x06, 1, Nothing).packet);
    hide Opened, HandleHelloAck;
  }

  /**
   * For every configuration and any two joiners there is a run, in which each is admitted once,
   * the first before the second, after which the two have each other Connected.
   */
  lemma JoinersConnect(c: Config, a: SocketAddr, b: SocketAddr) returns (steps: seq<Step>)
    requires ValidConfig(c) && {a, b} <= c.secrets.Keys - {c.host} && a != b
    ensures Legal(c, steps)
    ensures var w := Run(c, steps); Admitted(c, w.tables[c.host], [a, b]) && Acquainted(w, a, 1, b, 2)
  {
    hide Run, Legal, Make, Admitted, HandleHello, HandleHelloAck, InSession, Solo, PeerAt;
    steps := ReadBoth(c, a, b);
    var w0, hello, ack := Run(c, steps), InSession(c, b, a, 0x03, 2, Nothing), InSession(c, a, b, 0x06, 1, Nothing);
    Addressed(c, b, a, 0x03, 2, Nothing);
    Addressed(c, a, b, 0x06, 1, Nothing);
    steps := Hand(c, steps, hello);
    FirstMeetsSecond(c, w0.tables[a], a, b);
    var r := HandleHello(Me(c, a), w0.tables[a], b, hello.packet);
    Posted(w0, a, r.table, b, ack.packet);
    var w1 := Run(c, steps);
    SecondMeetsFirst(c, w1.tables[b], a, b);
    steps := Hand(c, steps, ack);
  }
}
