/**
 * Agreement over every run of the mesh: who holds which id, and where every table entry
 * leads, with packets repeated at will (JOINs included).
 */
module MeshAgreement {
  import opened Words
  import opened Wire
  import opened Crypto
  import opened PeerListCodec
  import opened PeerTable
  import opened Handshake
  import opened Mesh

  // ---------------------------------------------------------------------
  // The invariant.
  // ---------------------------------------------------------------------

  /** Ids the host has given out, with its own, and who they went to. */
  type Roll = map<u8, SocketAddr>

  function RollOf(c: Config, host: Table): Roll {
    (map id | id in host.peers :: host.peers[id].addr)[0 := c.host]
  }

  ghost predicate Extends(roll: Roll, roll': Roll) {
    forall id | id in roll :: id in roll' && roll'[id] == roll[id]
  }

  /** Every table entry names the node the host admitted under that id. */
  ghost predicate Agrees(roll: Roll, t: Table) {
    forall id | id in t.peers :: id in roll && t.peers[id].addr == roll[id] && t.peers[id].id == id
  }

  ghost predicate HostShape(c: Config, t: Table) {
    && t.isHost && t.localId == 0 && t.session == c.session
    && 1 <= t.nextPeerId <= 5
    && |t.peers| == t.nextPeerId - 1
    && (forall id :: id in t.peers <==> 1 <= id < t.nextPeerId)
  }

  /** A joiner knows nobody yet, or has an id that was given to it. */
  ghost predicate JoinerShape(c: Config, roll: Roll, a: SocketAddr, t: Table) {
    && !t.isHost
    && (if t.session == NO_SESSION then t.peers == map[]
        else t.session == c.session && t.localId in roll && t.localId != 0 && roll[t.localId] == a)
  }

  ghost predicate NodeOk(c: Config, roll: Roll, a: SocketAddr, t: Table) {
    Agrees(roll, t) && if a == c.host then HostShape(c, t) else JoinerShape(c, roll, a, t)
  }

  ghost predicate Lists(es: seq<Entry>, id: u8) {
    exists j :: 0 <= j < |es| && es[j].id == id
  }

  /** The list names exactly the ids 0..k, each with its node, where k is the reader's id. */
  ghost predicate ListOk(roll: Roll, es: seq<Entry>, reader: SocketAddr) {
    && es != []
    && var k := MaxId(es);
       && k != 0 && k in roll && roll[k] == reader
       && |es| == k + 1
       && (forall i: u8 :: i <= k ==> Lists(es, i))
       && (forall j | 0 <= j < |es| ::
             es[j].id in roll && (es[j].id != 0 ==> es[j].addr == roll[es[j].id]))
  }

  predicate SealedBy(ctx: Context, p: Packet) { p.body == Encrypt(ctx, p.header, p.body.plain) }

  ghost predicate MsgOk(c: Config, roll: Roll, m: Msg) {
    var p := m.packet;
    && m.src in c.secrets
    && if p.header.pktType == PKT_JOIN then
         SealedBy(Context(c.psk, NO_SESSION), p) && m.src != c.host
       else if p.header.pktType == PKT_PEER_LIST then
         && SealedBy(Context(c.psk, NO_SESSION), p)
         && m.src == c.host && p.header.peerId == 0
         && p.body.plain.Members? && p.body.plain.list.session == c.session
         && ListOk(roll, p.body.plain.list.peers, m.dst)
       else
         && p.header.pktType in {PKT_HELLO, PKT_HELLO_ACK, PKT_KEY_EXCHANGE}
         && SealedBy(Context(c.psk, c.session), p)
         && p.header.peerId in roll && roll[p.header.peerId] == m.src
         && (p.header.pktType == PKT_KEY_EXCHANGE ==>
               p.body.plain == KeyOffer(Public(c.secrets[m.src])))
  }

  ghost predicate RollOk(c: Config, roll: Roll) {
    0 in roll && roll[0] == c.host
    && forall id | id in roll && id != 0 :: roll[id] != c.host && roll[id] in c.secrets
  }

  ghost function TheRoll(c: Config, w: World): Roll
    requires c.host in w.tables
  {
    RollOf(c, w.tables[c.host])
  }

  ghost predicate Inv(c: Config, w: World) {
    && ValidConfig(c)
    && w.tables.Keys == c.secrets.Keys
    && RollOk(c, TheRoll(c, w))
    && (forall a | a in w.tables :: NodeOk(c, TheRoll(c, w), a, w.tables[a]))
    && (forall m | m in w.net :: MsgOk(c, TheRoll(c, w), m))
  }

  // ---------------------------------------------------------------------
  // Framing: one node changes, packets are added, the roll only grows.
  // ---------------------------------------------------------------------

  lemma RollGrowth(c: Config, roll: Roll, roll': Roll, a: SocketAddr, t: Table)
    requires Extends(roll, roll') && NodeOk(c, roll, a, t)
    ensures NodeOk(c, roll', a, t)
  {
  }

  lemma RollGrowthMsg(c: Config, roll: Roll, roll': Roll, m: Msg)
    requires Extends(roll, roll') && MsgOk(c, roll, m)
    ensures MsgOk(c, roll', m)
  {
  }

  /** What a step must show about the node it changes. */
  ghost predicate ReplyOk(c: Config, roll: Roll, a: SocketAddr, r: Reply) {
    && NodeOk(c, roll, a, r.table)
    && (forall k | 0 <= k < |r.sent| :: MsgOk(c, roll, Msg(a, r.sent[k].to, r.sent[k].packet)))
  }

  lemma PostKeepsInv(c: Config, w: World, a: SocketAddr, r: Reply)
    requires Inv(c, w) && a in w.tables
    requires var roll' := TheRoll(c, Post(w, a, r));
             Extends(TheRoll(c, w), roll') && RollOk(c, roll') && ReplyOk(c, roll', a, r)
    ensures Inv(c, Post(w, a, r))
  {
    var w', roll, roll' := Post(w, a, r), TheRoll(c, w), TheRoll(c, Post(w, a, r));
    forall b | b in w'.tables ensures NodeOk(c, roll', b, w'.tables[b]) {
      if b != a { RollGrowth(c, roll, roll', b, w.tables[b]); }
    }
    forall m | m in w'.net ensures MsgOk(c, roll', m) {
      if m in w.net { RollGrowthMsg(c, roll, roll', m); }
    }
  }

  /** Known peers stay known, at the same address. */
  ghost predicate Keeps(t: Table, t': Table) {
    forall id | id in t.peers :: id in t'.peers && t'.peers[id].addr == t.peers[id].addr
  }

  lemma SameRoll(c: Config, t: Table, t': Table)
    requires Keeps(t, t') && t'.peers.Keys == t.peers.Keys
    ensures RollOf(c, t') == RollOf(c, t)
  {
  }

  /** A reply that admits nobody. */
  ghost predicate QuietReply(c: Config, roll: Roll, a: SocketAddr, t: Table, r: Reply) {
    ReplyOk(c, roll, a, r) && Keeps(t, r.table) && r.table.nextPeerId == t.nextPeerId
  }

  lemma QuietKeepsInv(c: Config, w: World, a: SocketAddr, r: Reply)
    requires Inv(c, w) && a in w.tables
    requires QuietReply(c, TheRoll(c, w), a, w.tables[a], r)
    ensures TheRoll(c, Post(w, a, r)) == TheRoll(c, w)
    ensures Inv(c, Post(w, a, r))
  {
    var t := w.tables[a];
    if a == c.host {
      assert NodeOk(c, TheRoll(c, w), a, t);
      assert r.table.peers.Keys == t.peers.Keys;
      SameRoll(c, t, r.table);
    }
    hide NodeOk, MsgOk, RollOf;
    PostKeepsInv(c, w, a, r);
  }

  lemma OpenedExactly(ctx: Context, sealer: Context, p: Packet)
    requires SealedBy(sealer, p)
    ensures Opened(ctx, p) == if ctx == sealer then Some(p.body.plain) else None
  {
    DecryptExactly(sealer, p.header, p.body.plain, ctx, p.header);
  }

  lemma MakeSeals(ctx: Context, pktType: u8, peerId: u8, plain: Plain)
    ensures var p := Make(ctx, pktType, peerId, plain);
            SealedBy(ctx, p) && p.header == Header(pktType, peerId, 0, 0) && p.body.plain == plain
  {
  }

  // ---------------------------------------------------------------------
  // JOIN.
  // ---------------------------------------------------------------------

  /** The host admits while ids last; the capacity check never refuses a fresh id. */
  lemma AdmitExactly(c: Config, roll: Roll, t: Table, src: SocketAddr)
    requires HostShape(c, t) && Agrees(roll, t)
    ensures var (t', id) := Admit(t, src);
            if t.nextPeerId < 5 then
              && id == Some(t.nextPeerId) && id.value !in t.peers
              && HostShape(c, t') && t'.nextPeerId == t.nextPeerId + 1
              && t'.peers == t.peers[id.value := NewPeer(id.value, src).(state := Connected)]
            else id.None? && t' == t
  {
  }

  /** What the host lists after admitting k is exactly 0..k. */
  lemma ListAfterAdmit(c: Config, t: Table, listed: SocketAddr, es: seq<Entry>, k: u8)
    requires HostShape(c, t) && Enumerates(t, listed, es)
    requires t.nextPeerId == k + 1 && k != 0
    ensures ListOk(RollOf(c, t), es, t.peers[k].addr) && MaxId(es) == k
  {
    ListCovers(t, listed, es, k);
    ListMax(es, k);
    assert k in t.peers;
    hide Enumerates, MaxId, Lists, HostShape;
    ListOnRoll(c, t, es, k);
    hide RollOf;
  }

  lemma ListOnRoll(c: Config, t: Table, es: seq<Entry>, k: u8)
    requires k in t.peers && k != 0
    requires forall j | 0 <= j < |es| ::
               es[j].id != 0 ==> es[j].id in t.peers && es[j].addr == t.peers[es[j].id].addr
    ensures var roll := RollOf(c, t);
            && k in roll && roll[k] == t.peers[k].addr
            && (forall j | 0 <= j < |es| :: es[j].id in roll && (es[j].id != 0 ==> es[j].addr == roll[es[j].id]))
  {
  }

  lemma ListMax(es: seq<Entry>, k: u8)
    requires Lists(es, k) && forall j | 0 <= j < |es| :: es[j].id <= k
    ensures es != [] && MaxId(es) == k
  {
  }

  lemma ListCovers(t: Table, listed: SocketAddr, es: seq<Entry>, k: u8)
    requires Enumerates(t, listed, es) && t.localId == 0 && |t.peers| == k && k != 0
    requires forall id :: id in t.peers <==> 1 <= id <= k
    ensures |es| == k + 1
    ensures forall i: u8 :: i <= k ==> Lists(es, i)
    ensures forall j | 0 <= j < |es| ::
              es[j].id <= k && (es[j].id != 0 ==> es[j].id in t.peers && es[j].addr == t.peers[es[j].id].addr)
  {
    assert es[0].id == 0;
    forall i: u8 | i <= k ensures Lists(es, i) {
      if i != 0 {
        assert i in t.peers;
        var j :| 1 <= j < |es| && es[j].id == i;
      }
    }
  }

  lemma RollInsert(c: Config, t: Table, t': Table, k: u8, p: Peer)
    requires k != 0 && k !in t.peers && t'.peers == t.peers[k := p]
    ensures k !in RollOf(c, t) && RollOf(c, t') == RollOf(c, t)[k := p.addr]
  {
  }

  lemma RollOkInsert(c: Config, roll: Roll, k: u8, src: SocketAddr)
    requires RollOk(c, roll) && k != 0 && src != c.host && src in c.secrets
    ensures RollOk(c, roll[k := src])
  {
  }

  lemma AgreesInsert(roll: Roll, t: Table, t': Table, k: u8, p: Peer)
    requires Agrees(roll, t) && k !in roll && p.id == k && t'.peers == t.peers[k := p]
    ensures Agrees(roll[k := p.addr], t')
  {
  }

  /** Admitting a node extends the roll by exactly that node under the next id. */
  lemma AdmitRoll(c: Config, t: Table, src: SocketAddr)
    requires NodeOk(c, RollOf(c, t), c.host, t) && RollOk(c, RollOf(c, t))
    requires src != c.host && src in c.secrets && t.nextPeerId < 5
    ensures var t', roll, k := Admit(t, src).0, RollOf(c, t), t.nextPeerId;
            var roll' := RollOf(c, t');
            && roll' == roll[k := src] && k !in roll
            && RollOk(c, roll') && NodeOk(c, roll', c.host, t')
  {
    AdmitExactly(c, RollOf(c, t), t, src);
    var t', k, p := Admit(t, src).0, t.nextPeerId, NewPeer(t.nextPeerId, src).(state := Connected);
    hide Admit, RollOf, RollOk, Agrees, HostShape;
    RollInsert(c, t, t', k, p);
    RollOkInsert(c, RollOf(c, t), k, src);
    AgreesInsert(RollOf(c, t), t, t', k, p);
  }

  lemma ReplyOkOne(c: Config, roll: Roll, a: SocketAddr, t: Table, s: Send)
    requires NodeOk(c, roll, a, t) && MsgOk(c, roll, Msg(a, s.to, s.packet))
    ensures ReplyOk(c, roll, a, Reply(t, [s]))
  {
    hide NodeOk, MsgOk;
  }

  lemma ExtendsInsert(roll: Roll, k: u8, src: SocketAddr)
    requires k !in roll
    ensures Extends(roll, roll[k := src])
  {
  }

  function ListAnswer(c: Config, t: Table, src: SocketAddr, es: seq<Entry>): Send {
    Send(src, Make(Context(c.psk, NO_SESSION), PKT_PEER_LIST, t.localId, Members(PeerList(t.session, es))))
  }

  lemma JoinCases(c: Config, t: Table, src: SocketAddr, p: Packet, es: seq<Entry>)
    requires c.host in c.secrets
    ensures var r, t' := HandleJoin(Me(c, c.host), t, src, p, es), Admit(t, src).0;
            r == Reply(t, []) || r == Reply(t', []) || r == Reply(t', [ListAnswer(c, t', src, es)])
    ensures var r := HandleJoin(Me(c, c.host), t, src, p, es);
            r == Reply(t, []) || (Admit(t, src).1.None? <==> r.sent == [])
  {
  }

  /** The host's answer to a JOIN: either nothing, or one more id and the list that names it. */
  lemma JoinReplyOk(c: Config, t: Table, src: SocketAddr, p: Packet, listed: SocketAddr, es: seq<Entry>)
    requires ValidConfig(c) && NodeOk(c, RollOf(c, t), c.host, t) && RollOk(c, RollOf(c, t))
    requires src != c.host && src in c.secrets
    requires Enumerates(Admit(t, src).0, listed, es)
    ensures var r := HandleJoin(Me(c, c.host), t, src, p, es);
            var roll, roll' := RollOf(c, t), RollOf(c, r.table);
            && Extends(roll, roll') && RollOk(c, roll') && ReplyOk(c, roll', c.host, r)
            && (roll' == roll || roll' == roll[t.nextPeerId := src])
  {
    JoinCases(c, t, src, p, es);
    var r, k, t' := HandleJoin(Me(c, c.host), t, src, p, es), t.nextPeerId, Admit(t, src).0;
    AdmitOnRoll(c, t, src);
    hide HandleJoin, Admit, RollOf, NodeOk, RollOk, Enumerates, Extends, MsgOk, ListAnswer, Agrees;
    if r.sent != [] {
      ListAnswerOk(c, t', src, listed, es, k);
      ReplyOkOne(c, RollOf(c, t'), c.host, t', ListAnswer(c, t', src, es));
    }
    hide HostShape;
  }

  lemma AdmitOnRoll(c: Config, t: Table, src: SocketAddr)
    requires ValidConfig(c) && NodeOk(c, RollOf(c, t), c.host, t) && RollOk(c, RollOf(c, t))
    requires src != c.host && src in c.secrets
    ensures Extends(RollOf(c, t), RollOf(c, t))
    ensures var ((t', id), roll, k) := (Admit(t, src), RollOf(c, t), t.nextPeerId);
            if id.None? then t' == t
            else
              && HostShape(c, t') && t'.nextPeerId == k + 1 && 0 < k <= 4 && k in t'.peers && t'.peers[k].addr == src
              && RollOf(c, t') == roll[k := src] && Extends(roll, RollOf(c, t'))
              && RollOk(c, RollOf(c, t')) && NodeOk(c, RollOf(c, t'), c.host, t')
  {
    AdmitExactly(c, RollOf(c, t), t, src);
    if Admit(t, src).1.Some? {
      AdmitRoll(c, t, src);
      ExtendsInsert(RollOf(c, t), t.nextPeerId, src);
    }
    hide Admit, RollOf, NodeOk, RollOk, Agrees;
  }

  lemma ListAnswerOk(c: Config, t: Table, src: SocketAddr, listed: SocketAddr, es: seq<Entry>, k: u8)
    requires c.host in c.secrets && HostShape(c, t) && Enumerates(t, listed, es)
    requires t.nextPeerId == k + 1 && k != 0 && t.peers[k].addr == src
    ensures MsgOk(c, RollOf(c, t), Msg(c.host, src, ListAnswer(c, t, src, es).packet))
  {
    ListAfterAdmit(c, t, listed, es, k);
    MakeSeals(Context(c.psk, NO_SESSION), PKT_PEER_LIST, 0, Members(PeerList(c.session, es)));
    hide ListOk, RollOf, Make, SealedBy, Enumerates;
  }

  lemma JoinKeepsInv(c: Config, w: World, m: Msg, listed: SocketAddr, es: seq<Entry>)
    requires Inv(c, w) && Enabled(c, w, Deliver(m, listed, es))
    requires m.packet.header.pktType == PKT_JOIN
    ensures Inv(c, Next(c, w, Deliver(m, listed, es)))
    ensures Extends(TheRoll(c, w), TheRoll(c, Next(c, w, Deliver(m, listed, es))))
  {
    var t, roll := w.tables[m.dst], TheRoll(c, w);
    assert NodeOk(c, roll, m.dst, t) && MsgOk(c, roll, m);
    var r := HandleJoin(Me(c, m.dst), t, m.src, m.packet, es);
    if m.dst != c.host {
      assert r == Reply(t, []);
      QuietKeepsInv(c, w, m.dst, r);
    } else {
      JoinReplyOk(c, t, m.src, m.packet, listed, es);
      hide HandleJoin, Inv, MsgOk, NodeOk, Extends, RollOk, RollOf;
      PostKeepsInv(c, w, m.dst, r);
    }
  }

  // ---------------------------------------------------------------------
  // PEER_LIST.
  // ---------------------------------------------------------------------

  /** Adding a peer at the address the roll has for it: nothing else changes. */
  lemma AddAgreed(roll: Roll, t: Table, id: u8)
    requires Agrees(roll, t) && id in roll
    ensures var (t', ok) := AddPeer(t, id, roll[id]);
            && t' == t.(peers := t'.peers, addrToId := t'.addrToId)
            && (t'.peers == t.peers || (id !in t.peers && id != t.localId
                                        && t'.peers == t.peers[id := NewPeer(id, roll[id])]))
            && (ok && id != t.localId ==> id in t'.peers) && (!ok ==> t' == t)
            && Agrees(roll, t') && Keeps(t, t')
  {
  }

  /** The entries of a list lead to the right nodes. */
  ghost predicate Leads(roll: Roll, es: seq<Entry>, sender: u8, src: SocketAddr) {
    forall j | 0 <= j < |es| :: es[j].id in roll && Resolve(es[j], sender, src) == roll[es[j].id]
  }

  /** A HELLO sent by a node that knows its addressee. */
  ghost predicate HelloFrom(psk: Key, t: Table, s: Send) {
    && s.packet == Make(Context(psk, t.session), PKT_HELLO, t.localId, Nothing)
    && exists id :: id in t.peers && t.peers[id].addr == s.to
  }

  /** Peers were added or marked HelloSent, and nothing else happened. */
  ghost predicate Greeted(t: Table, t': Table) {
    && t' == t.(peers := t'.peers, addrToId := t'.addrToId)
    && Keeps(t, t')
    && (forall id | id in t'.peers ::
          if id in t.peers
          then t'.peers[id] == t.peers[id] || t'.peers[id] == t.peers[id].(state := HelloSent)
          else id != t.localId && t'.peers[id] == NewPeer(id, t'.peers[id].addr).(state := HelloSent))
  }

  lemma GreetedTwice(t: Table, t1: Table, t2: Table)
    requires Greeted(t, t1) && Greeted(t1, t2)
    ensures Greeted(t, t2)
  {
  }

  lemma GreetOne(roll: Roll, t: Table, id: u8)
    requires Agrees(roll, t) && id in roll && id != t.localId
    ensures var (t1, ok) := AddPeer(t, id, roll[id]);
            if ok then
              var t2 := WithState(t1, id, HelloSent);
              Greeted(t, t2) && Agrees(roll, t2) && id in t2.peers
            else t1 == t
  {
    AddAgreed(roll, t, id);
    var (t1, ok) := AddPeer(t, id, roll[id]);
    hide *;
    if ok { MarkGreeted(roll, t, t1, id); }
  }

  lemma MarkGreeted(roll: Roll, t: Table, t1: Table, id: u8)
    requires Agrees(roll, t) && id in roll && id != t.localId && id in t1.peers
    requires t1 == t.(peers := t1.peers, addrToId := t1.addrToId)
    requires t1.peers == t.peers || (id !in t.peers && t1.peers == t.peers[id := NewPeer(id, roll[id])])
    ensures var t2 := WithState(t1, id, HelloSent);
            Greeted(t, t2) && Agrees(roll, t2) && id in t2.peers
  {
    var p := (if id in t.peers then t.peers[id] else NewPeer(id, roll[id])).(state := HelloSent);
    assert t1.peers[id := p] == t.peers[id := p];
    hide Agrees, Greeted;
    PutGreeted(roll, t, WithState(t1, id, HelloSent), id, p);
  }

  lemma PutGreeted(roll: Roll, t: Table, t': Table, id: u8, p: Peer)
    requires Agrees(roll, t) && id in roll && id != t.localId
    requires t' == t.(peers := t.peers[id := p], addrToId := t'.addrToId)
    requires p == (if id in t.peers then t.peers[id] else NewPeer(id, roll[id])).(state := HelloSent)
    ensures Greeted(t, t') && Agrees(roll, t')
  {
  }

  lemma HellosFollow(psk: Key, t: Table, hello: Send, rest: seq<Send>)
    requires HelloFrom(psk, t, hello) && forall k | 0 <= k < |rest| :: HelloFrom(psk, t, rest[k])
    ensures var sent := [hello] + rest;
            forall k | 0 <= k < |sent| :: HelloFrom(psk, t, sent[k])
  {
    hide HelloFrom;
  }

  /** Greeting only adds agreed peers, and says HELLO to peers it then knows. */
  lemma {:induction false} GreetAgrees(me: Local, roll: Roll, t: Table, es: seq<Entry>, sender: u8, src: SocketAddr)
    requires Agrees(roll, t) && Leads(roll, es, sender, src)
    ensures var r := Greet(me, t, es, sender, src);
            && Agrees(roll, r.table) && Greeted(t, r.table)
            && (forall k | 0 <= k < |r.sent| :: HelloFrom(me.psk, r.table, r.sent[k]))
    decreases |es|
  {
    if es != [] {
      var id := es[0].id;
      if id == t.localId {
        GreetAgrees(me, roll, t, es[1..], sender, src);
      } else {
        GreetOne(roll, t, id);
        var (t1, ok) := AddPeer(t, id, roll[id]);
        if ok {
          var t2 := WithState(t1, id, HelloSent);
          GreetAgrees(me, roll, t2, es[1..], sender, src);
          var rest := Greet(me, t2, es[1..], sender, src);
          GreetedTwice(t, t2, rest.table);
          assert rest.table.peers[id].addr == roll[id];
          hide Make, AddPeer, WithState;
          var hello := Send(roll[id], Make(Context(me.psk, t.session), PKT_HELLO, t.localId, Nothing));
          assert Greet(me, t, es, sender, src) == Reply(rest.table, [hello] + rest.sent);
          hide Greet, Agrees;
          HellosFollow(me.psk, rest.table, hello, rest.sent);
        }
      }
    }
  }

  lemma AnyQuiet(c: Config, roll: Roll, a: SocketAddr, t: Table)
    requires NodeOk(c, roll, a, t)
    ensures QuietReply(c, roll, a, t, Reply(t, []))
  {
    hide NodeOk;
  }

  /** A HELLO, HELLO_ACK or offer made by a node that holds an id of this session. */
  lemma OwnPacketOk(c: Config, roll: Roll, a: SocketAddr, t: Table, to: SocketAddr, pktType: u8, plain: Plain)
    requires a in c.secrets && NodeOk(c, roll, a, t) && RollOk(c, roll) && t.session == c.session
    requires c.session != NO_SESSION
    requires pktType in {PKT_HELLO, PKT_HELLO_ACK, PKT_KEY_EXCHANGE}
    requires pktType == PKT_KEY_EXCHANGE ==> plain == KeyOffer(Public(c.secrets[a]))
    ensures MsgOk(c, roll, Msg(a, to, Make(Context(c.psk, t.session), pktType, t.localId, plain)))
  {
    MakeSeals(Context(c.psk, t.session), pktType, t.localId, plain);
    assert t.localId in roll && roll[t.localId] == a;
    hide Make, SealedBy, Agrees, HostShape, NodeOk;
  }

  /** PEER_LIST: only the node it was made for can be its reader, and takes the id it was given. */
  lemma PeerListQuiet(c: Config, roll: Roll, a: SocketAddr, t: Table, m: Msg)
    requires ValidConfig(c) && RollOk(c, roll) && a in c.secrets && NodeOk(c, roll, a, t)
    requires MsgOk(c, roll, m) && m.dst == a && m.packet.header.pktType == PKT_PEER_LIST
    ensures var es, r := m.packet.body.plain.list.peers, HandlePeerList(Me(c, a), t, m.src, m.packet);
            var t1 := SetIdentity(t, MaxId(es), c.session);
            && a != c.host
            && NodeOk(c, roll, a, t1) && Leads(roll, es, 0, m.src)
            && r == Greet(Me(c, a), t1, es, 0, m.src)
            && QuietReply(c, roll, a, t, r)
  {
    var p := m.packet;
    var es := p.body.plain.list.peers;
    OpenedExactly(Context(c.psk, NO_SESSION), Context(c.psk, NO_SESSION), p);
    var t1 := SetIdentity(t, MaxId(es), c.session);
    assert Agrees(roll, t1);
    GreetAgrees(Me(c, a), roll, t1, es, 0, m.src);
    var r := Greet(Me(c, a), t1, es, 0, m.src);
    GreetedIsQuiet(c, roll, a, t1, r);
    assert Keeps(t, r.table);
    hide Opened, SealedBy, Greet, Greeted, Agrees, MaxId;
  }

  lemma GreetedIsQuiet(c: Config, roll: Roll, a: SocketAddr, t: Table, r: Reply)
    requires ValidConfig(c) && RollOk(c, roll) && a in c.secrets && a != c.host
    requires NodeOk(c, roll, a, t) && t.session == c.session
    requires Agrees(roll, r.table) && Greeted(t, r.table)
    requires forall k | 0 <= k < |r.sent| :: HelloFrom(c.psk, r.table, r.sent[k])
    ensures QuietReply(c, roll, a, t, r)
  {
    assert NodeOk(c, roll, a, r.table) by { hide Agrees; }
    forall k | 0 <= k < |r.sent|
      ensures MsgOk(c, roll, Msg(a, r.sent[k].to, r.sent[k].packet))
    {
      OwnPacketOk(c, roll, a, r.table, r.sent[k].to, PKT_HELLO, Nothing);
      assert HelloFrom(c.psk, r.table, r.sent[k]);
      hide MsgOk, Make, NodeOk, Agrees;
    }
    hide MsgOk, NodeOk, Agrees, HelloFrom;
  }

  /** Changing a known peer's state, flags or context is none of the roll's business. */
  lemma TouchKeeps(c: Config, roll: Roll, a: SocketAddr, t: Table, id: u8, p: Peer)
    requires NodeOk(c, roll, a, t) && id in t.peers
    requires p.id == t.peers[id].id && p.addr == t.peers[id].addr
    ensures var t' := t.(peers := t.peers[id := p]);
            NodeOk(c, roll, a, t') && Keeps(t, t') && t'.peers.Keys == t.peers.Keys
  {
    assert t.peers[id := p].Keys == t.peers.Keys;
    assert |t.peers[id := p]| == |t.peers|;
  }

  lemma WithStateKeeps(c: Config, roll: Roll, a: SocketAddr, t: Table, id: u8, state: PeerState)
    requires NodeOk(c, roll, a, t)
    ensures NodeOk(c, roll, a, WithState(t, id, state)) && Keeps(t, WithState(t, id, state))
  {
    if id in t.peers { TouchKeeps(c, roll, a, t, id, t.peers[id].(state := state)); }
    hide NodeOk;
  }

  /** A session packet opens exactly at nodes that have joined the session. */
  lemma SessionPacketOpens(c: Config, roll: Roll, t: Table, m: Msg)
    requires MsgOk(c, roll, m)
    requires m.packet.header.pktType in {PKT_HELLO, PKT_HELLO_ACK, PKT_KEY_EXCHANGE}
    ensures Opened(Context(c.psk, t.session), m.packet)
            == if t.session == c.session then Some(m.packet.body.plain) else None
  {
    OpenedExactly(Context(c.psk, t.session), Context(c.psk, c.session), m.packet);
    hide Opened, SealedBy;
  }

  /** The table after a HELLO's sender has been looked up or added. */
  function Met(t: Table, id: u8, src: SocketAddr): (Table, bool) {
    if id in t.peers then (t, true) else AddPeer(t, id, src)
  }

  lemma MetAgrees(c: Config, roll: Roll, a: SocketAddr, t: Table, id: u8)
    requires NodeOk(c, roll, a, t) && RollOk(c, roll) && id in roll && t.session == c.session
    requires c.session != NO_SESSION && RollIsHosts(c, roll, a, t)
    ensures var (t1, ok) := Met(t, id, roll[id]);
            && NodeOk(c, roll, a, t1) && Keeps(t, t1) && t1.nextPeerId == t.nextPeerId
            && t1 == t.(peers := t1.peers, addrToId := t1.addrToId)
            && (t1.peers == t.peers || (id !in t.peers && id != t.localId
                                        && t1.peers == t.peers[id := NewPeer(id, roll[id])]))
            && (ok && id != t.localId ==> id in t1.peers)
            && (!ok ==> t1 == t)
  {
    AddAgreed(roll, t, id);
  }

  /** At the host the roll holds nothing but its own table. */
  ghost predicate RollIsHosts(c: Config, roll: Roll, a: SocketAddr, t: Table) {
    a == c.host ==> forall id | id in roll :: id == 0 || id in t.peers
  }

  lemma HelloQuiet(c: Config, roll: Roll, a: SocketAddr, t: Table, m: Msg)
    requires ValidConfig(c) && RollOk(c, roll) && a in c.secrets && NodeOk(c, roll, a, t)
    requires RollIsHosts(c, roll, a, t)
    requires MsgOk(c, roll, m) && m.dst == a && m.packet.header.pktType == PKT_HELLO
    ensures QuietReply(c, roll, a, t, HandleHello(Me(c, a), t, m.src, m.packet))
  {
    var id := m.packet.header.peerId;
    SessionPacketOpens(c, roll, t, m);
    AnyQuiet(c, roll, a, t);
    if t.session == c.session {
      MetAgrees(c, roll, a, t, id);
      var (t1, ok) := Met(t, id, m.src);
      if ok {
        WithStateKeeps(c, roll, a, t1, id, Connected);
        OwnPacketOk(c, roll, a, t, m.src, PKT_HELLO_ACK, Nothing);
        var ack := Send(m.src, Make(Context(c.psk, t.session), PKT_HELLO_ACK, t.localId, Nothing));
        ReplyOkOne(c, roll, a, WithState(t1, id, Connected), ack);
      }
      hide NodeOk, MsgOk, Opened, Make, AddPeer;
    } else {
      hide NodeOk, MsgOk, Opened;
    }
  }

  lemma HelloAckQuiet(c: Config, roll: Roll, a: SocketAddr, t: Table, m: Msg)
    requires NodeOk(c, roll, a, t) && a in c.secrets
    ensures QuietReply(c, roll, a, t, HandleHelloAck(Me(c, a), t, m.packet))
  {
    AnyQuiet(c, roll, a, t);
    WithStateKeeps(c, roll, a, t, m.packet.header.peerId, Connected);
    hide NodeOk, Opened;
  }

  lemma KeyExchangeQuiet(c: Config, roll: Roll, a: SocketAddr, t: Table, m: Msg)
    requires ValidConfig(c) && RollOk(c, roll) && a in c.secrets && NodeOk(c, roll, a, t)
    requires MsgOk(c, roll, m) && m.packet.header.pktType == PKT_KEY_EXCHANGE
    ensures QuietReply(c, roll, a, t, HandleKeyExchange(Me(c, a), t, m.src, m.packet))
  {
    var id := m.packet.header.peerId;
    SessionPacketOpens(c, roll, t, m);
    AnyQuiet(c, roll, a, t);
    if t.session == c.session && id in t.peers {
      var key := DerivePeerKey(c.secrets[a], Public(c.secrets[m.src]), t.session, t.localId, id);
      if key.Some? {
        var t1 := Install(t, id, key.value);
        TouchKeeps(c, roll, a, t, id, t1.peers[id]);
        TouchKeeps(c, roll, a, t1, id, t1.peers[id].(kxSent := true));
        OwnPacketOk(c, roll, a, t, m.src, PKT_KEY_EXCHANGE, KeyOffer(Public(c.secrets[a])));
        ReplyOkOne(c, roll, a, MarkSent(t1, id), Send(m.src, Offer(Me(c, a), t)));
      }
    }
    hide NodeOk, MsgOk, Opened, Make, DerivePeerKey;
  }

  lemma OfferQuiet(c: Config, roll: Roll, a: SocketAddr, t: Table, id: u8)
    requires ValidConfig(c) && RollOk(c, roll) && a in c.secrets && NodeOk(c, roll, a, t)
    requires OwesOffer(t, id)
    ensures QuietReply(c, roll, a, t, OfferTo(Me(c, a), t, id))
  {
    TouchKeeps(c, roll, a, t, id, t.peers[id].(kxSent := true));
    assert t.session == c.session;
    OwnPacketOk(c, roll, a, t, t.peers[id].addr, PKT_KEY_EXCHANGE, KeyOffer(Public(c.secrets[a])));
    ReplyOkOne(c, roll, a, MarkSent(t, id), Send(t.peers[id].addr, Offer(Me(c, a), t)));
    hide NodeOk, MsgOk, Make;
  }

  lemma SilenceQuiet(c: Config, roll: Roll, a: SocketAddr, t: Table, ids: set<u8>)
    requires NodeOk(c, roll, a, t)
    ensures QuietReply(c, roll, a, t, Reply(CheckTimeouts(t, ids), []))
  {
    var t' := CheckTimeouts(t, ids);
    assert t'.peers.Keys == t.peers.Keys;
    assert |t'.peers| == |t.peers|;
  }

  lemma SendJoinQuiet(c: Config, roll: Roll, a: SocketAddr, t: Table, port: u16)
    requires NodeOk(c, roll, a, t) && a != c.host && a in c.secrets
    ensures var join := Make(Context(c.psk, NO_SESSION), PKT_JOIN, 0, JoinRequest(port));
            QuietReply(c, roll, a, t, Reply(t, [Send(c.host, join)]))
  {
    MakeSeals(Context(c.psk, NO_SESSION), PKT_JOIN, 0, JoinRequest(port));
    hide NodeOk, Make, SealedBy;
  }

  // ---------------------------------------------------------------------
  // Every step, every run.
  // ---------------------------------------------------------------------

  ghost predicate IsJoin(s: Step) { s.Deliver? && s.msg.packet.header.pktType == PKT_JOIN }

  /** Every step but the delivery of a JOIN leaves the roll as it is. */
  lemma StepQuiet(c: Config, w: World, s: Step)
    requires Inv(c, w) && Enabled(c, w, s) && !IsJoin(s)
    ensures var (a, r) := Answer(c, w, s);
            a in w.tables && QuietReply(c, TheRoll(c, w), a, w.tables[a], r)
  {
    var roll := TheRoll(c, w);
    var a := Answer(c, w, s).0;
    var t := w.tables[a];
    assert NodeOk(c, roll, a, t);
    assert RollIsHosts(c, roll, a, t);
    match s
    case SendJoin(_, port) => SendJoinQuiet(c, roll, a, t, port);
    case Silence(_, ids) => SilenceQuiet(c, roll, a, t, ids);
    case OfferKey(_, id) => OfferQuiet(c, roll, a, t, id);
    case Deliver(m, _, es) =>
      assert MsgOk(c, roll, m);
      DeliverQuiet(c, roll, a, t, m, es);
  }

  lemma DeliverQuiet(c: Config, roll: Roll, a: SocketAddr, t: Table, m: Msg, es: seq<Entry>)
    requires ValidConfig(c) && RollOk(c, roll) && a in c.secrets && NodeOk(c, roll, a, t)
    requires RollIsHosts(c, roll, a, t)
    requires MsgOk(c, roll, m) && m.dst == a && m.packet.header.pktType != PKT_JOIN
    ensures QuietReply(c, roll, a, t, Handle(Me(c, a), t, m.src, m.packet, es))
  {
    var kind := m.packet.header.pktType;
    if kind == PKT_PEER_LIST { PeerListQuiet(c, roll, a, t, m); }
    else if kind == PKT_HELLO { HelloQuiet(c, roll, a, t, m); }
    else if kind == PKT_HELLO_ACK { HelloAckQuiet(c, roll, a, t, m); }
    else if kind == PKT_KEY_EXCHANGE { KeyExchangeQuiet(c, roll, a, t, m); }
    else { AnyQuiet(c, roll, a, t); }
    hide NodeOk, MsgOk, HandlePeerList, HandleHello, HandleHelloAck, HandleKeyExchange, QuietReply;
  }

  lemma NextKeepsInv(c: Config, w: World, s: Step)
    requires Inv(c, w) && Enabled(c, w, s)
    ensures Inv(c, Next(c, w, s))
    ensures Extends(TheRoll(c, w), TheRoll(c, Next(c, w, s)))
  {
    if IsJoin(s) {
      JoinKeepsInv(c, w, s.msg, s.listed, s.es);
    } else {
      StepQuiet(c, w, s);
      var (a, r) := Answer(c, w, s);
      QuietKeepsInv(c, w, a, r);
    }
    hide Inv, Enabled, Answer, RollOf;
  }

  lemma StartInv(c: Config)
    requires ValidConfig(c)
    ensures Inv(c, Start(c)) && TheRoll(c, Start(c)) == map[0 := c.host]
  {
    assert TheRoll(c, Start(c)) == map[0 := c.host];
  }

  lemma {:induction false} RunKeepsInv(c: Config, steps: seq<Step>)
    requires ValidConfig(c) && Legal(c, steps)
    ensures Inv(c, Run(c, steps))
    decreases |steps|
  {
    if steps == [] {
      StartInv(c);
    } else {
      var init := steps[..|steps| - 1];
      RunKeepsInv(c, init);
      NextKeepsInv(c, Run(c, init), steps[|steps| - 1]);
      hide Inv, Enabled, Next;
    }
  }

  /** The node has been given an identity: it is the host or has read a peer list. */
  predicate Identified(c: Config, a: SocketAddr, t: Table) { a == c.host || t.session != NO_SESSION }

  /**
   * Mesh agreement: in every reachable state every table entry, however it was learned,
   * names the node the host admitted under that id, so any two tables agree.
   */
  lemma MeshAgrees(c: Config, steps: seq<Step>, a: SocketAddr, b: SocketAddr, id: u8)
    requires ValidConfig(c) && Legal(c, steps)
    requires var w := Run(c, steps);
             a in w.tables && b in w.tables && id in w.tables[a].peers
    ensures var w := Run(c, steps);
            var host, addr := w.tables[c.host], w.tables[a].peers[id].addr;
            && (if id == 0 then addr == c.host else id in host.peers && host.peers[id].addr == addr)
            && (id in w.tables[b].peers ==> w.tables[b].peers[id].addr == addr)
  {
    RunKeepsInv(c, steps);
    var w := Run(c, steps);
    assert NodeOk(c, TheRoll(c, w), a, w.tables[a]) && NodeOk(c, TheRoll(c, w), b, w.tables[b]);
    hide Run, Legal, HostShape, JoinerShape, MsgOk;
  }

  /** Identity agreement: different nodes never hold the same id, repeated JOINs or not. */
  lemma IdsAreUnique(c: Config, steps: seq<Step>, a: SocketAddr, b: SocketAddr)
    requires ValidConfig(c) && Legal(c, steps) && a in c.secrets && b in c.secrets
    ensures var w := Run(c, steps);
            Identified(c, a, w.tables[a]) && Identified(c, b, w.tables[b]) ==>
              (w.tables[a].localId == w.tables[b].localId <==> a == b)
  {
    RunKeepsInv(c, steps);
    var w := Run(c, steps);
    assert NodeOk(c, TheRoll(c, w), a, w.tables[a]) && NodeOk(c, TheRoll(c, w), b, w.tables[b]);
    hide Run, Legal, Agrees, MsgOk;
  }

  /**
   * The host's peers are exactly 1..next-1, and a JOIN is admitted exactly while ids last:
   * the capacity check never refuses an id that was allocated.
   */
  lemma HostHoldsExactly(c: Config, steps: seq<Step>, src: SocketAddr)
    requires ValidConfig(c) && Legal(c, steps)
    ensures var t := Run(c, steps).tables[c.host];
            && (forall id :: id in t.peers <==> 1 <= id < t.nextPeerId)
            && Admit(t, src).1 == (if t.nextPeerId < 5 then Some(t.nextPeerId) else None)
            && AllocateId(t).Some? == Admit(t, src).1.Some?
  {
    RunKeepsInv(c, steps);
    var w := Run(c, steps);
    assert NodeOk(c, TheRoll(c, w), c.host, w.tables[c.host]);
    AdmitExactly(c, TheRoll(c, w), w.tables[c.host], src);
    hide Run, Legal, Agrees, MsgOk;
  }

  /**
   * Every PEER_LIST lists exactly the ids 0..k, where k is an id the host gave to the
   * node it is addressed to, and reading it makes that node k in the host's session.
   */
  lemma PeerListsIdentify(c: Config, steps: seq<Step>, m: Msg)
    requires ValidConfig(c) && Legal(c, steps)
    requires m in Run(c, steps).net && m.dst in Run(c, steps).tables
    requires m.packet.header.pktType == PKT_PEER_LIST
    ensures var w := Run(c, steps);
            var host, plain := w.tables[c.host], m.packet.body.plain;
            && plain.Members? && plain.list.peers != []
            && var (es, k) := (plain.list.peers, MaxId(plain.list.peers));
               && k in host.peers && host.peers[k].addr == m.dst
               && |es| - 1 == k && (forall i: u8 :: i <= k <==> Lists(es, i))
               && var t' := HandlePeerList(Me(c, m.dst), w.tables[m.dst], m.src, m.packet).table;
                  t'.localId == k && t'.session == c.session
  {
    RunKeepsInv(c, steps);
    var w := Run(c, steps);
    var roll := TheRoll(c, w);
    assert MsgOk(c, roll, m) && NodeOk(c, roll, m.dst, w.tables[m.dst]);
    hide Run, Legal;
    PeerListQuiet(c, roll, m.dst, w.tables[m.dst], m);
    var es := m.packet.body.plain.list.peers;
    GreetAgrees(Me(c, m.dst), roll, SetIdentity(w.tables[m.dst], MaxId(es), c.session), es, 0, m.src);
    hide HandlePeerList, QuietReply, NodeOk, SealedBy, Agrees, Greet, Inv;
  }
}
