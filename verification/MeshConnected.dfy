/**
 * Nodes that the host has admitted at most once, in any run: their identity and per-peer keys
 * are settled for good, and two of them derive the same key for each other.
 */
module MeshConnected {
  import opened Words
  import opened Wire
  import opened Crypto
  import opened PeerListCodec
  import opened PeerTable
  import opened Handshake
  import opened Mesh
  import opened MeshAgreement
  import opened MeshReached

  // ---------------------------------------------------------------------
  // The invariant.
  // ---------------------------------------------------------------------

  /** The host has given the node at a no more than one id. */
  ghost predicate OneId(roll: Roll, a: SocketAddr) {
    forall i, j | i in roll && j in roll && roll[i] == a && roll[j] == a :: i == j
  }

  /** The context that the secrets and ids of two nodes determine, at the first of them. */
  function PairContext(c: Config, a: SocketAddr, b: SocketAddr, i: u8, j: u8): Context
    requires a in c.secrets && b in c.secrets
  {
    DeriveAgrees(c.secrets[a], c.secrets[b], c.session, i, j);
    Context(DerivePeerKey(c.secrets[a], Public(c.secrets[b]), c.session, i, j).value, c.session)
  }

  /** Both ends determine the same context. */
  lemma PairContextAgrees(c: Config, a: SocketAddr, b: SocketAddr, i: u8, j: u8)
    requires a in c.secrets && b in c.secrets
    ensures PairContext(c, a, b, i, j) == PairContext(c, b, a, j, i)
    ensures PairContext(c, a, b, i, j).key.Derived? && PairContext(c, a, b, i, j).session == c.session
  {
    DeriveAgrees(c.secrets[a], c.secrets[b], c.session, i, j);
    hide DerivePeerKey;
  }

  /** A context, if there is one, is the determined one, and came with the other's offer. */
  ghost predicate EntryOk(c: Config, a: SocketAddr, localId: u8, id: u8, p: Peer)
    requires a in c.secrets
  {
    && p.kxReceived == p.context.Some?
    && (p.context.Some? ==> p.addr in c.secrets && p.context == Some(PairContext(c, a, p.addr, localId, id)))
  }

  ghost predicate KeysOk(c: Config, a: SocketAddr, t: Table)
    requires a in c.secrets
  {
    t.localId !in t.peers && forall id | id in t.peers :: EntryOk(c, a, t.localId, id, t.peers[id])
  }

  ghost predicate KeyInv(c: Config, w: World) {
    && Inv(c, w)
    && (forall a | a in w.tables && OneId(TheRoll(c, w), a) :: KeysOk(c, a, w.tables[a]))
  }

  // ---------------------------------------------------------------------
  // What the steps do to a table.
  // ---------------------------------------------------------------------

  /** The identity stays, once there is one. */
  predicate KeepsIdentity(t: Table, t': Table) {
    (t'.localId == t.localId && t'.session == t.session) || (t.session == NO_SESSION && t.peers == map[])
  }

  /** Flags and contexts stay; states change and peers appear. */
  ghost predicate KeepsKeys(t: Table, t': Table) {
    && Keeps(t, t')
    && (forall id | id in t'.peers ::
          if id in t.peers then t'.peers[id] == t.peers[id].(state := t'.peers[id].state)
          else id != t'.localId && t'.peers[id] == NewPeer(id, t'.peers[id].addr).(state := t'.peers[id].state))
  }

  /** The offer of peer id has been taken. */
  ghost predicate TookKey(c: Config, a: SocketAddr, t: Table, t': Table, id: u8)
    requires a in c.secrets
  {
    && id in t.peers && t.peers[id].addr in c.secrets && t.session == c.session
    && t' == t.(peers := t.peers[id := t.peers[id].(kxSent := true, kxReceived := true,
                                 context := Some(PairContext(c, a, t.peers[id].addr, t.localId, id)))])
  }

  /** What a step does to the table of the node it happens at. */
  ghost predicate StepDoes(c: Config, s: Step, a: SocketAddr, t: Table, t': Table)
    requires a in c.secrets
  {
    match s
    case OfferKey(_, id) => id in t.peers && t' == MarkSent(t, id)
    case Deliver(m, _, _) =>
      if m.packet.header.pktType == PKT_KEY_EXCHANGE && KeyTaken(Me(c, a), t, m.packet).Some?
      then TookKey(c, a, t, t', m.packet.header.peerId)
      else KeepsKeys(t, t')
    case _ => KeepsKeys(t, t')
  }

  lemma SameKeepsKeys(t: Table)
    ensures KeepsKeys(t, t) && KeepsIdentity(t, t)
  {
  }

  lemma GreetedKeepsKeys(t: Table, k: u8, session: SessionId, t': Table)
    requires Greeted(SetIdentity(t, k, session), t')
    ensures KeepsKeys(t, t') && t'.localId == k && t'.session == session
  {
  }

  lemma MeetsKeepsKeys(t: Table, t': Table, id: u8, src: SocketAddr)
    requires t' == t || Meets(t, t', id, src)
    ensures KeepsKeys(t, t') && KeepsIdentity(t, t')
  {
  }

  lemma AdmitKeepsKeys(t: Table, t': Table, id: u8, src: SocketAddr)
    requires id !in t.peers && id != t.localId && t'.localId == t.localId && t'.session == t.session
    requires t'.peers == t.peers[id := NewPeer(id, src).(state := Connected)]
    ensures KeepsKeys(t, t')
  {
  }

  lemma SilenceKeepsKeys(t: Table, ids: set<u8>)
    ensures KeepsKeys(t, CheckTimeouts(t, ids)) && KeepsIdentity(t, CheckTimeouts(t, ids))
  {
  }

  /** An identified node finds its own id nowhere else on the roll. */
  lemma OwnId(c: Config, roll: Roll, a: SocketAddr, t: Table, id: u8)
    requires NodeOk(c, roll, a, t) && RollOk(c, roll) && OneId(roll, a) && t.session == c.session
    requires c.session != NO_SESSION && id in roll && roll[id] == a
    ensures t.localId == id
  {
  }

  /** The identity a list gives is the one the node has, if it has one. */
  lemma SameIdentity(c: Config, roll: Roll, a: SocketAddr, t: Table, k: u8)
    requires ValidConfig(c) && RollOk(c, roll) && NodeOk(c, roll, a, t) && OneId(roll, a)
    requires k in roll && roll[k] == a && a != c.host
    ensures (t.session == NO_SESSION && t.peers == map[]) || (t.session == c.session && t.localId == k)
  {
    if t.session != NO_SESSION { OwnId(c, roll, a, t, k); }
  }

  lemma ListKeepsKeys(c: Config, roll: Roll, a: SocketAddr, t: Table, m: Msg)
    requires ValidConfig(c) && RollOk(c, roll) && a in c.secrets && NodeOk(c, roll, a, t)
    requires MsgOk(c, roll, m) && m.dst == a && m.packet.header.pktType == PKT_PEER_LIST
    ensures var t' := HandlePeerList(Me(c, a), t, m.src, m.packet).table;
            KeepsKeys(t, t') && (OneId(roll, a) ==> KeepsIdentity(t, t'))
  {
    hide ValidConfig, RollOk, NodeOk, MsgOk, OneId, KeepsKeys, HandlePeerList, Greeted, MaxId;
    ListGreets(c, roll, a, t, m);
    var k := MaxId(m.packet.body.plain.list.peers);
    if OneId(roll, a) { SameIdentity(c, roll, a, t, k); }
    GreetedKeepsKeys(t, k, c.session, HandlePeerList(Me(c, a), t, m.src, m.packet).table);
  }

  lemma HelloKeepsKeys(c: Config, roll: Roll, a: SocketAddr, t: Table, m: Msg)
    requires ValidConfig(c) && RollOk(c, roll) && a in c.secrets && NodeOk(c, roll, a, t)
    requires MsgOk(c, roll, m) && m.packet.header.pktType == PKT_HELLO
    ensures var t' := HandleHello(Me(c, a), t, m.src, m.packet).table;
            KeepsKeys(t, t') && KeepsIdentity(t, t')
  {
    hide *;
    HelloCases(c, roll, a, t, m);
    MeetsKeepsKeys(t, HandleHello(Me(c, a), t, m.src, m.packet).table, m.packet.header.peerId, m.src);
  }

  lemma AckKeepsKeys(c: Config, roll: Roll, a: SocketAddr, t: Table, m: Msg)
    requires a in c.secrets && NodeOk(c, roll, a, t)
    requires MsgOk(c, roll, m) && m.packet.header.pktType == PKT_HELLO_ACK
    ensures var t' := HandleHelloAck(Me(c, a), t, m.packet).table;
            KeepsKeys(t, t') && KeepsIdentity(t, t')
  {
    AckCases(c, roll, a, t, m);
    hide HandleHelloAck, NodeOk, MsgOk;
  }

  lemma JoinKeepsKeys(c: Config, a: SocketAddr, t: Table, src: SocketAddr, p: Packet, es: seq<Entry>)
    requires ValidConfig(c) && a in c.secrets && if a == c.host then NodeOk(c, RollOf(c, t), c.host, t) else !t.isHost
    ensures var t' := HandleJoin(Me(c, a), t, src, p, es).table;
            KeepsKeys(t, t') && KeepsIdentity(t, t')
  {
    SameKeepsKeys(t);
    if a == c.host {
      assert t.nextPeerId != t.localId;
      JoinAddsOne(c, t, src, p, es);
      hide HandleJoin, NodeOk, Admit, RollOf, KeepsKeys;
      var t' := HandleJoin(Me(c, a), t, src, p, es).table;
      if t' != t { AdmitKeepsKeys(t, t', t.nextPeerId, src); }
    } else {
      hide KeepsKeys;
    }
  }

  /** An offer is from the node it names, and the key is the one the pair determines. */
  lemma KeyTakenIs(c: Config, roll: Roll, a: SocketAddr, t: Table, m: Msg)
    requires a in c.secrets && NodeOk(c, roll, a, t)
    requires MsgOk(c, roll, m) && m.packet.header.pktType == PKT_KEY_EXCHANGE
    ensures var id := m.packet.header.peerId;
            && (KeyTaken(Me(c, a), t, m.packet).Some? <==> t.session == c.session && id in t.peers)
            && (id in t.peers ==> t.peers[id].addr == m.src && m.src in c.secrets)
            && (KeyTaken(Me(c, a), t, m.packet).Some? ==>
                  Context(KeyTaken(Me(c, a), t, m.packet).value, c.session)
                  == PairContext(c, a, t.peers[id].addr, t.localId, id))
  {
    SessionPacketOpens(c, roll, t, m);
    DeriveAgrees(c.secrets[a], c.secrets[m.src], c.session, t.localId, m.packet.header.peerId);
    hide Opened, SealedBy, HostShape, JoinerShape, DerivePeerKey;
  }

  lemma KeyExchangeDoes(c: Config, roll: Roll, a: SocketAddr, t: Table, m: Msg)
    requires a in c.secrets && NodeOk(c, roll, a, t)
    requires MsgOk(c, roll, m) && m.packet.header.pktType == PKT_KEY_EXCHANGE
    ensures var t' := HandleKeyExchange(Me(c, a), t, m.src, m.packet).table;
            && KeepsIdentity(t, t')
            && if KeyTaken(Me(c, a), t, m.packet).Some? then TookKey(c, a, t, t', m.packet.header.peerId) else t' == t
  {
    KeyTakenIs(c, roll, a, t, m);
    KeyExchangeCases(Me(c, a), t, m.src, m.packet);
    hide HandleKeyExchange, KeyTaken, NodeOk, MsgOk, PairContext;
  }

  /**
   * Exactly when taking an offer makes a pair disagree: the sender, which goes by the id it
   * offers under, derived its context for the id k under which it files us, and we go by
   * another id.
   */
  lemma TakenKeyAgreesExactly(c: Config, roll: Roll, a: SocketAddr, t: Table, m: Msg, k: u8)
    requires a in c.secrets && NodeOk(c, roll, a, t)
    requires MsgOk(c, roll, m) && m.packet.header.pktType == PKT_KEY_EXCHANGE
    requires KeyTaken(Me(c, a), t, m.packet).Some?
    ensures var (t', j) := (HandleKeyExchange(Me(c, a), t, m.src, m.packet).table, m.packet.header.peerId);
            && j in t'.peers && m.src in c.secrets
            && (t'.peers[j].context == Some(PairContext(c, m.src, a, j, k)) <==> t.localId == k)
  {
    KeyTakenIs(c, roll, a, t, m);
    KeyExchangeDoes(c, roll, a, t, m);
    var j := m.packet.header.peerId;
    DeriveAgreesExactly(c.secrets[a], c.secrets[m.src], c.session, t.localId, j, k);
    DeriveAgrees(c.secrets[a], c.secrets[m.src], c.session, t.localId, j);
    DeriveAgrees(c.secrets[m.src], c.secrets[a], c.session, j, k);
    hide HandleKeyExchange, KeyTaken, NodeOk, MsgOk, DerivePeerKey;
  }

  lemma DeliverDoes(c: Config, roll: Roll, a: SocketAddr, t: Table, m: Msg, listed: SocketAddr, es: seq<Entry>)
    requires ValidConfig(c) && RollOk(c, roll) && a in c.secrets && NodeOk(c, roll, a, t)
    requires MsgOk(c, roll, m) && m.dst == a && (a == c.host ==> roll == RollOf(c, t))
    ensures var t' := Handle(Me(c, a), t, m.src, m.packet, es).table;
            StepDoes(c, Deliver(m, listed, es), a, t, t') && (OneId(roll, a) ==> KeepsIdentity(t, t'))
  {
    KindOf(c, roll, m);
    assert a != c.host ==> !t.isHost;
    SameKeepsKeys(t);
    hide NodeOk, MsgOk, RollOk, OneId, ValidConfig, KeepsKeys, HandleJoin, HandlePeerList, HandleHello,
      HandleHelloAck, HandleKeyExchange, KeyTaken;
    var kind := m.packet.header.pktType;
    if kind == PKT_JOIN { JoinKeepsKeys(c, a, t, m.src, m.packet, es); }
    else if kind == PKT_PEER_LIST { ListKeepsKeys(c, roll, a, t, m); }
    else if kind == PKT_HELLO { HelloKeepsKeys(c, roll, a, t, m); }
    else if kind == PKT_HELLO_ACK { AckKeepsKeys(c, roll, a, t, m); }
    else { KeyExchangeDoes(c, roll, a, t, m); }
    hide TookKey, KeepsIdentity;
  }

  lemma StepDoesIt(c: Config, w: World, s: Step)
    requires Inv(c, w) && Enabled(c, w, s)
    ensures var (a, r) := Answer(c, w, s);
            && a in w.tables && a in c.secrets && StepDoes(c, s, a, w.tables[a], r.table)
            && (OneId(TheRoll(c, w), a) ==> KeepsIdentity(w.tables[a], r.table))
  {
    var (a, r) := Answer(c, w, s);
    NodeFacts(c, w, a);
    match s
    case SendJoin(_, _) =>
      SameKeepsKeys(w.tables[a]);
      hide KeepsKeys, Inv, NodeOk, OneId;
    case Silence(_, ids) =>
      SilenceKeepsKeys(w.tables[a], ids);
      hide KeepsKeys, Inv, NodeOk, CheckTimeouts, OneId;
    case OfferKey(_, id) =>
      hide Inv, NodeOk, OneId;
    case Deliver(m, listed, es) =>
      MsgFacts(c, w, m);
      hide Inv, NodeOk, MsgOk, RollOk, RollOf, OneId, ValidConfig, StepDoes, Handle, KeepsIdentity;
      DeliverDoes(c, TheRoll(c, w), a, w.tables[a], m, listed, es);
  }

  // ---------------------------------------------------------------------
  // Every step, every run.
  // ---------------------------------------------------------------------

  lemma DoneKeysOk(c: Config, s: Step, a: SocketAddr, t: Table, t': Table)
    requires a in c.secrets && KeysOk(c, a, t) && StepDoes(c, s, a, t, t') && KeepsIdentity(t, t')
    ensures KeysOk(c, a, t')
  {
    hide PairContext, KeyTaken;
  }

  lemma OneIdBefore(roll: Roll, roll': Roll, a: SocketAddr)
    requires Extends(roll, roll') && OneId(roll', a)
    ensures OneId(roll, a)
  {
  }

  lemma RollGrows(c: Config, w: World, s: Step, b: SocketAddr)
    requires Inv(c, w) && Enabled(c, w, s) && OneId(TheRoll(c, Next(c, w, s)), b)
    ensures OneId(TheRoll(c, w), b)
  {
    NextKeepsInv(c, w, s);
    hide Inv, Enabled, Next, RollOf, OneId, Extends;
    OneIdBefore(TheRoll(c, w), TheRoll(c, Next(c, w, s)), b);
  }

  lemma NextKeysOk(c: Config, w: World, s: Step, b: SocketAddr)
    requires KeyInv(c, w) && Enabled(c, w, s) && b in w.tables && OneId(TheRoll(c, w), b)
    ensures b in c.secrets && KeysOk(c, b, Next(c, w, s).tables[b])
  {
    var (a, r) := Answer(c, w, s);
    StepDoesIt(c, w, s);
    assert KeysOk(c, b, w.tables[b]);
    assert Next(c, w, s).tables == w.tables[a := r.table];
    hide *;
    if a == b { DoneKeysOk(c, s, a, w.tables[a], r.table); }
  }

  lemma NextKeepsKeyInv(c: Config, w: World, s: Step)
    requires KeyInv(c, w) && Enabled(c, w, s)
    ensures KeyInv(c, Next(c, w, s))
  {
    var w' := Next(c, w, s);
    NextKeepsInv(c, w, s);
    assert Inv(c, w) && w'.tables.Keys == w.tables.Keys;
    hide Inv, Enabled, Next, RollOf, OneId, KeysOk;
    forall b | b in w'.tables && OneId(TheRoll(c, w'), b) ensures KeysOk(c, b, w'.tables[b]) {
      RollGrows(c, w, s, b);
      NextKeysOk(c, w, s, b);
    }
  }

  lemma {:induction false} RunKeepsKeyInv(c: Config, steps: seq<Step>)
    requires ValidConfig(c) && Legal(c, steps)
    ensures KeyInv(c, Run(c, steps))
    decreases |steps|
  {
    if steps == [] {
      StartInv(c);
    } else {
      var init := steps[..|steps| - 1];
      RunKeepsKeyInv(c, init);
      NextKeepsKeyInv(c, Run(c, init), steps[|steps| - 1]);
      hide KeyInv, Enabled, Next;
    }
  }

  // ---------------------------------------------------------------------
  // The theorems.
  // ---------------------------------------------------------------------

  /** Identity and contexts are kept once they are set, and so are offers. */
  ghost predicate Settles(t: Table, t': Table) {
    && (t.session != NO_SESSION ==> t'.session == t.session && t'.localId == t.localId)
    && (forall id | id in t.peers ::
          && id in t'.peers && t'.peers[id].addr == t.peers[id].addr
          && (t.peers[id].kxSent ==> t'.peers[id].kxSent)
          && (t.peers[id].context.Some? ==> t'.peers[id].context == t.peers[id].context))
  }

  lemma DoneSettles(c: Config, s: Step, a: SocketAddr, t: Table, t': Table)
    requires a in c.secrets && KeysOk(c, a, t) && StepDoes(c, s, a, t, t') && KeepsIdentity(t, t')
    ensures Settles(t, t')
  {
    hide PairContext, KeyTaken;
  }

  lemma NextSettles(c: Config, w: World, s: Step, b: SocketAddr)
    requires KeyInv(c, w) && Enabled(c, w, s) && b in w.tables && OneId(TheRoll(c, w), b)
    ensures Settles(w.tables[b], Next(c, w, s).tables[b])
  {
    var (a, r) := Answer(c, w, s);
    StepDoesIt(c, w, s);
    assert KeysOk(c, b, w.tables[b]);
    assert Next(c, w, s).tables == w.tables[a := r.table];
    hide *;
    if a == b { DoneSettles(c, s, a, w.tables[a], r.table); } else { SettlesSelf(w.tables[b]); }
  }

  lemma SettlesSelf(t: Table)
    ensures Settles(t, t)
  {
  }

  lemma SettlesOn(t: Table, t1: Table, t2: Table)
    requires Settles(t, t1) && Settles(t1, t2)
    ensures Settles(t, t2)
  {
  }

  /** The session, id and per-peer contexts of a node admitted at most once never change once set. */
  lemma {:induction false} SettledForGood(c: Config, steps: seq<Step>, n: nat, b: SocketAddr)
    requires ValidConfig(c) && Legal(c, steps) && n <= |steps| && b in c.secrets
    requires OneId(TheRoll(c, Run(c, steps)), b)
    ensures Legal(c, steps[..n])
    ensures Settles(Run(c, steps[..n]).tables[b], Run(c, steps).tables[b])
    decreases |steps|
  {
    LegalPrefix(c, steps, n);
    if n == |steps| {
      assert steps[..n] == steps;
      SettlesSelf(Run(c, steps).tables[b]);
      hide Settles, OneId;
    } else {
      var init := steps[..|steps| - 1];
      assert init[..n] == steps[..n];
      RunKeepsKeyInv(c, init);
      assert Inv(c, Run(c, init));
      hide KeyInv, Inv, Enabled, Next, Settles, OneId, RollOf;
      RollGrows(c, Run(c, init), steps[|steps| - 1], b);
      SettledForGood(c, init, n, b);
      NextSettles(c, Run(c, init), steps[|steps| - 1], b);
      SettlesOn(Run(c, steps[..n]).tables[b], Run(c, init).tables[b], Run(c, steps).tables[b]);
    }
  }

  /** No node has an entry for itself. */
  lemma NotOneself(c: Config, w: World, a: SocketAddr)
    requires KeyInv(c, w) && a in w.tables && OneId(TheRoll(c, w), a)
    ensures !Knows(w, a, a)
  {
    var t, roll := w.tables[a], TheRoll(c, w);
    NodeFacts(c, w, a);
    assert KeysOk(c, a, t);
    forall id | id in t.peers ensures t.peers[id].addr != a {
      if roll[id] == a { OwnId(c, roll, a, t, id); }
    }
  }

  /** No node admitted at most once ever holds its own id, or its own address, as a peer. */
  lemma NobodyKnowsOneself(c: Config, steps: seq<Step>, a: SocketAddr, id: u8)
    requires ValidConfig(c) && Legal(c, steps)
    ensures var w := Run(c, steps);
            OneId(TheRoll(c, w), a) && a in w.tables && id in w.tables[a].peers ==>
              id != w.tables[a].localId && w.tables[a].peers[id].addr != a
  {
    var w := Run(c, steps);
    RunKeepsKeyInv(c, steps);
    hide Run, Legal, OneId;
    if OneId(TheRoll(c, w), a) && a in w.tables && id in w.tables[a].peers {
      NotOneself(c, w, a);
      assert KeysOk(c, a, w.tables[a]);
      hide KeyInv;
    }
  }

  /** Node b files the node at a under the id k. */
  ghost predicate Files(w: World, b: SocketAddr, k: u8, a: SocketAddr) {
    b in w.tables && k in w.tables[b].peers && w.tables[b].peers[k].addr == a
  }

  /** Whoever files a node admitted at most once files it under that node's own id. */
  lemma FiledUnderOwnId(c: Config, w: World, b: SocketAddr, k: u8, a: SocketAddr)
    requires Inv(c, w) && OneId(TheRoll(c, w), a) && Files(w, b, k, a) && a in w.tables && w.tables[a].session == c.session
    ensures k == w.tables[a].localId
  {
    NodeFacts(c, w, a);
    NodeFacts(c, w, b);
    OwnId(c, TheRoll(c, w), a, w.tables[a], k);
  }

  /** With peers comes an identity, and it is in the one session. */
  lemma HasIdentity(c: Config, w: World, a: SocketAddr)
    requires Inv(c, w) && a in w.tables && w.tables[a].peers != map[]
    ensures w.tables[a].session == c.session
    ensures var t, roll := w.tables[a], TheRoll(c, w); t.localId in roll && roll[t.localId] == a
  {
    NodeFacts(c, w, a);
    hide Inv, Agrees;
  }

  /** When a joiner admitted once has a peer Connected, that node files it under its id, for good. */
  lemma ConnectedIsFiled(c: Config, steps: seq<Step>, n: nat, a: SocketAddr, id: u8)
    requires ValidConfig(c) && Legal(c, steps) && n <= |steps| && Legal(c, steps[..n])
    ensures var (w, later) := (Run(c, steps[..n]), Run(c, steps));
            OneId(TheRoll(c, w), a) && HasConnected(c, w, a, id) ==>
              var (b, k) := (w.tables[a].peers[id].addr, w.tables[a].localId);
              Files(w, b, k, a) && Files(later, b, k, a)
  {
    var w := Run(c, steps[..n]);
    RunKeepsInv(c, steps[..n]);
    ConnectedIsBacked(c, steps, n, a, id);
    if OneId(TheRoll(c, w), a) && HasConnected(c, w, a, id) {
      var b := w.tables[a].peers[id].addr;
      hide Run, Legal, Inv, OneId;
      var k :| k in w.tables[b].peers && w.tables[b].peers[k].addr == a;
      HasIdentity(c, w, a);
      FiledUnderOwnId(c, w, b, k, a);
      InvCovers(c, w);
      TablesGrow(c, steps, n, b);
    }
  }

  lemma InvCovers(c: Config, w: World)
    requires Inv(c, w)
    ensures w.tables.Keys == c.secrets.Keys
  {
  }

  /** Nodes a and b hold contexts for each other, under the ids j and i. */
  ghost predicate Paired(w: World, a: SocketAddr, j: u8, b: SocketAddr, i: u8) {
    && Files(w, a, j, b) && Files(w, b, i, a)
    && w.tables[a].peers[j].context.Some? && w.tables[b].peers[i].context.Some?
  }

  /**
   * Key agreement: whenever two nodes admitted at most once hold contexts for each other they are the same
   * context, so what either seals under it the other opens, and it is not the passphrase's;
   * and each files the other under the id the other goes by.
   */
  lemma KeysAgree<P>(c: Config, steps: seq<Step>, a: SocketAddr, j: u8, b: SocketAddr, i: u8, h: Header, plain: P)
    requires ValidConfig(c) && Legal(c, steps)
    ensures var w := Run(c, steps);
            OneId(TheRoll(c, w), a) && OneId(TheRoll(c, w), b) && Paired(w, a, j, b, i) ==>
              var (mine, theirs) := (w.tables[a].peers[j].context.value, w.tables[b].peers[i].context.value);
              && mine == theirs && mine.key.Derived?
              && Decrypt(theirs, h, Encrypt(mine, h, plain)) == Some(plain)
              && w.tables[a].localId == i && w.tables[b].localId == j
              && w.tables[a].session == w.tables[b].session == c.session
  {
    var w := Run(c, steps);
    RunKeepsKeyInv(c, steps);
    hide Run, Legal, OneId;
    if OneId(TheRoll(c, w), a) && OneId(TheRoll(c, w), b) && Paired(w, a, j, b, i) {
      assert KeysOk(c, a, w.tables[a]) && KeysOk(c, b, w.tables[b]);
      assert Inv(c, w);
      hide KeyInv, Inv;
      HasIdentity(c, w, a);
      HasIdentity(c, w, b);
      FiledUnderOwnId(c, w, a, j, b);
      FiledUnderOwnId(c, w, b, i, a);
      PairContextAgrees(c, a, b, i, j);
      var mine := w.tables[a].peers[j].context.value;
      assert mine == PairContext(c, a, b, i, j);
      hide PairContext, RollOf;
      DecryptExactly(mine, h, plain, mine, h);
      hide Decrypt, Encrypt;
    }
  }

  // ---------------------------------------------------------------------
  // Delivering a node's JOIN at most once is enough.
  // ---------------------------------------------------------------------

  /** No two deliveries of a JOIN from the node at a. */
  ghost predicate JoinsOnce(steps: seq<Step>, a: SocketAddr) {
    forall j, k | 0 <= j < k < |steps| && IsJoin(steps[j]) && IsJoin(steps[k]) ::
      steps[j].msg.src != a || steps[k].msg.src != a
  }

  ghost predicate CameFromJoin(steps: seq<Step>, addr: SocketAddr) {
    exists j :: 0 <= j < |steps| && IsJoin(steps[j]) && steps[j].msg.src == addr
  }

  lemma RollGrowsByJoin(c: Config, w: World, s: Step, id: u8)
    requires Inv(c, w) && Enabled(c, w, s)
    requires id in Next(c, w, s).tables[c.host].peers
    ensures var addr := Next(c, w, s).tables[c.host].peers[id].addr;
            || (id in w.tables[c.host].peers && w.tables[c.host].peers[id].addr == addr)
            || (IsJoin(s) && addr == s.msg.src)
  {
    var (a, r) := Answer(c, w, s);
    var t := w.tables[c.host];
    assert NodeOk(c, TheRoll(c, w), c.host, t);
    if a == c.host {
      if IsJoin(s) {
        AdmitExactly(c, RollOf(c, t), t, s.msg.src);
        JoinCases(c, t, s.msg.src, s.msg.packet, s.es);
        hide Inv, HandleJoin, RollOf, Admit, Agrees;
      } else {
        StepQuiet(c, w, s);
        hide Inv, Answer;
      }
    } else {
      hide Inv, Answer;
    }
  }

  ghost predicate AllCame(steps: seq<Step>, host: Table) {
    forall id | id in host.peers :: CameFromJoin(steps, host.peers[id].addr)
  }

  lemma NextAllCame(c: Config, w: World, steps: seq<Step>)
    requires steps != []
    requires var init, s := steps[..|steps| - 1], steps[|steps| - 1];
             Inv(c, w) && Enabled(c, w, s) && AllCame(init, w.tables[c.host])
    ensures AllCame(steps, Next(c, w, steps[|steps| - 1]).tables[c.host])
  {
    var init, s := steps[..|steps| - 1], steps[|steps| - 1];
    var host, host' := w.tables[c.host], Next(c, w, s).tables[c.host];
    hide Inv, Enabled, Next, CameFromJoin, IsJoin;
    forall id | id in host'.peers ensures CameFromJoin(steps, host'.peers[id].addr) {
      RollGrowsByJoin(c, w, s, id);
      if IsJoin(s) && host'.peers[id].addr == s.msg.src {
        LastJoin(steps);
      } else {
        EarlierJoin(steps, host'.peers[id].addr);
      }
    }
  }

  lemma {:induction false} AdmittedCameFromJoins(c: Config, steps: seq<Step>)
    requires ValidConfig(c) && Legal(c, steps)
    ensures AllCame(steps, Run(c, steps).tables[c.host])
    decreases |steps|
  {
    if steps == [] {
      StartAllCame(c);
    } else {
      var init := steps[..|steps| - 1];
      hide Inv, Enabled, Next, AllCame, Start;
      AdmittedCameFromJoins(c, init);
      RunKeepsInv(c, init);
      NextAllCame(c, Run(c, init), steps);
    }
  }

  lemma StartAllCame(c: Config)
    requires ValidConfig(c)
    ensures AllCame([], Start(c).tables[c.host])
  {
  }

  lemma LastJoin(steps: seq<Step>)
    requires steps != [] && IsJoin(steps[|steps| - 1])
    ensures CameFromJoin(steps, steps[|steps| - 1].msg.src)
  {
  }

  lemma EarlierJoin(steps: seq<Step>, addr: SocketAddr)
    requires steps != [] && CameFromJoin(steps[..|steps| - 1], addr)
    ensures CameFromJoin(steps, addr)
  {
    var init := steps[..|steps| - 1];
    var j :| 0 <= j < |init| && IsJoin(init[j]) && init[j].msg.src == addr;
    assert steps[j] == init[j];
  }

  lemma InsertKeepsOne(roll: Roll, k: u8, src: SocketAddr, a: SocketAddr)
    requires OneId(roll, a) && (src == a ==> forall id | id in roll :: roll[id] != a)
    requires k !in roll
    ensures OneId(roll[k := src], a)
  {
  }

  lemma JoinOneId(c: Config, t: Table, m: Msg, es: seq<Entry>, a: SocketAddr)
    requires ValidConfig(c) && NodeOk(c, RollOf(c, t), c.host, t) && OneId(RollOf(c, t), a) && a != c.host
    requires m.src == a ==> forall id | id in t.peers :: t.peers[id].addr != a
    ensures OneId(RollOf(c, HandleJoin(Me(c, c.host), t, m.src, m.packet, es).table), a)
  {
    JoinAddsOne(c, t, m.src, m.packet, es);
    assert t.nextPeerId != 0;
    var t', k := HandleJoin(Me(c, c.host), t, m.src, m.packet, es).table, t.nextPeerId;
    hide HandleJoin, NodeOk, Admit, OneId;
    if t' != t {
      RollInsert(c, t, t', k, NewPeer(k, m.src).(state := Connected));
      assert m.src == a ==> forall id | id in RollOf(c, t) :: RollOf(c, t)[id] != a;
      hide RollOf;
      InsertKeepsOne(RollOf(c, t), k, m.src, a);
    }
  }

  /** A step gives the node a second id only by delivering its JOIN once more. */
  lemma NextOneId(c: Config, w: World, s: Step, a: SocketAddr)
    requires Inv(c, w) && Enabled(c, w, s) && OneId(TheRoll(c, w), a) && a != c.host
    requires IsJoin(s) && s.msg.src == a ==> forall id | id in w.tables[c.host].peers :: w.tables[c.host].peers[id].addr != a
    ensures OneId(TheRoll(c, Next(c, w, s)), a)
  {
    var (d, r) := Answer(c, w, s);
    if IsJoin(s) {
      NodeFacts(c, w, c.host);
      hide Inv, NodeOk, RollOk, RollOf, RollIsHosts, OneId, HandleJoin;
      if d == c.host { JoinOneId(c, w.tables[c.host], s.msg, s.es, a); }
    } else {
      StepQuiet(c, w, s);
      hide Inv, Answer, OneId, RollOf, QuietReply, Enabled;
      QuietKeepsInv(c, w, d, r);
    }
  }

  lemma HostHasOneId(c: Config, w: World)
    requires Inv(c, w)
    ensures OneId(TheRoll(c, w), c.host)
  {
  }

  /** A node whose JOIN is delivered at most once, and the host, have at most one id. */
  lemma {:induction false} JoinsOnceOneId(c: Config, steps: seq<Step>, a: SocketAddr)
    requires ValidConfig(c) && Legal(c, steps) && (a == c.host || JoinsOnce(steps, a))
    ensures OneId(TheRoll(c, Run(c, steps)), a)
    decreases |steps|
  {
    RunKeepsInv(c, steps);
    if a == c.host {
      HostHasOneId(c, Run(c, steps));
    } else if steps == [] {
      StartInv(c);
    } else {
      var init, s := steps[..|steps| - 1], steps[|steps| - 1];
      JoinsOnceOneId(c, init, a);
      RunKeepsInv(c, init);
      AdmittedCameFromJoins(c, init);
      var host := Run(c, init).tables[c.host];
      if IsJoin(s) && s.msg.src == a {
        forall id | id in host.peers ensures host.peers[id].addr != a { NotAdmittedYet(steps, host, id, a); }
      }
      hide Enabled, Next, Inv, OneId, RollOf, JoinsOnce, AllCame;
      NextOneId(c, Run(c, init), s, a);
    }
  }

  lemma NotAdmittedYet(steps: seq<Step>, host: Table, id: u8, a: SocketAddr)
    requires steps != [] && JoinsOnce(steps, a) && AllCame(steps[..|steps| - 1], host) && id in host.peers
    requires IsJoin(steps[|steps| - 1]) && steps[|steps| - 1].msg.src == a
    ensures host.peers[id].addr != a
  {
    var init := steps[..|steps| - 1];
    var j :| 0 <= j < |init| && IsJoin(init[j]) && init[j].msg.src == host.peers[id].addr;
    assert steps[j] == init[j];
  }
}
