/**
 * The control branches of `handle_incoming` and the KEY_EXCHANGE offers of `run` (lib.rs),
 * as what they do to the peer table and which packets they send.
 */
module Handshake {
  import opened Words
  import opened Wire
  import opened Crypto
  import opened PeerListCodec
  import opened PeerTable

  datatype Plain =
    | JoinRequest(port: u16)
    | Members(list: PeerList)
    | KeyOffer(key: PublicKey)
    | Nothing

  datatype Packet = Packet(header: Header, body: Sealed<Plain>)

  datatype Send = Send(to: SocketAddr, packet: Packet)

  datatype Reply = Reply(table: Table, sent: seq<Send>)

  /** What a node brings along: the passphrase key and its own X25519 secret. */
  datatype Local = Local(psk: Key, secret: Secret)

  /** Control packets carry sequence number and counter 0. */
  function Make(ctx: Context, pktType: u8, peerId: u8, plain: Plain): Packet {
    var h := Header(pktType, peerId, 0, 0);
    Packet(h, Encrypt(ctx, h, plain))
  }

  function Opened(ctx: Context, p: Packet): Option<Plain> { Decrypt(ctx, p.header, p.body) }

  // ---------------------------------------------------------------------
  // JOIN, at the host. `es` is the peer list the host happens to build.
  // ---------------------------------------------------------------------

  /** The table after a JOIN has been admitted under a fresh id, if it is. */
  function Admit(t: Table, src: SocketAddr): (Table, Option<u8>) {
    match AllocateId(t)
    case None => (t, None)
    case Some((t1, id)) =>
      var (t2, ok) := AddPeer(t1, id, src);
      if ok then (WithState(t2, id, Connected), Some(id)) else (t2, None)
  }

  predicate JoinOpens(me: Local, t: Table, p: Packet) {
    && t.isHost
    && var plain := Opened(Context(me.psk, NO_SESSION), p);
       plain.Some? && plain.value.JoinRequest?
  }

  function HandleJoin(me: Local, t: Table, src: SocketAddr, p: Packet, es: seq<Entry>): Reply {
    if !JoinOpens(me, t, p) then Reply(t, [])
    else
      var (t', id) := Admit(t, src);
      if id.None? then Reply(t', [])
      else
        var members := Members(PeerList(t'.session, es));
        Reply(t', [Send(src, Make(Context(me.psk, NO_SESSION), PKT_PEER_LIST, t'.localId, members))])
  }

  // ---------------------------------------------------------------------
  // PEER_LIST, at a joiner.
  // ---------------------------------------------------------------------

  /** The joiner takes the largest listed id for its own. */
  function MaxId(es: seq<Entry>): (m: u8)
    requires es != []
    ensures exists k :: 0 <= k < |es| && es[k].id == m
    ensures forall k | 0 <= k < |es| :: es[k].id <= m
  {
    if |es| == 1 then es[0].id
    else
      var m := MaxId(es[1..]);
      if es[0].id > m then es[0].id else m
  }

  /** The sender's entry is reached at the address the packet came from. */
  function Resolve(e: Entry, sender: u8, src: SocketAddr): SocketAddr {
    if e.id == sender then src else e.addr
  }

  /** Add each listed peer and send it a HELLO; stop at the first peer that cannot be added. */
  function Greet(me: Local, t: Table, es: seq<Entry>, sender: u8, src: SocketAddr): Reply
    decreases |es|
  {
    if es == [] then Reply(t, [])
    else if es[0].id == t.localId then Greet(me, t, es[1..], sender, src)
    else
      var addr := Resolve(es[0], sender, src);
      var (t1, ok) := AddPeer(t, es[0].id, addr);
      if !ok then Reply(t1, [])
      else
        var hello := Send(addr, Make(Context(me.psk, t.session), PKT_HELLO, t.localId, Nothing));
        var rest := Greet(me, WithState(t1, es[0].id, HelloSent), es[1..], sender, src);
        Reply(rest.table, [hello] + rest.sent)
  }

  /** The list that a PEER_LIST makes a node read, if it does. */
  function ListRead(me: Local, p: Packet): Option<PeerList> {
    match Opened(Context(me.psk, NO_SESSION), p)
    case Some(Members(list)) => if list.peers == [] then None else Some(list)
    case _ => None
  }

  function HandlePeerList(me: Local, t: Table, src: SocketAddr, p: Packet): Reply {
    match ListRead(me, p)
    case None => Reply(t, [])
    case Some(list) =>
      Greet(me, SetIdentity(t, MaxId(list.peers), list.session), list.peers, p.header.peerId, src)
  }

  // ---------------------------------------------------------------------
  // HELLO and HELLO_ACK.
  // ---------------------------------------------------------------------

  function HandleHello(me: Local, t: Table, src: SocketAddr, p: Packet): Reply {
    var ctx, id := Context(me.psk, t.session), p.header.peerId;
    if Opened(ctx, p).None? then Reply(t, [])
    else
      var (t1, ok) := if id in t.peers then (t, true) else AddPeer(t, id, src);
      if !ok then Reply(t1, [])
      else Reply(WithState(t1, id, Connected),
                 [Send(src, Make(ctx, PKT_HELLO_ACK, t.localId, Nothing))])
  }

  function HandleHelloAck(me: Local, t: Table, p: Packet): Reply {
    if Opened(Context(me.psk, t.session), p).None? then Reply(t, [])
    else Reply(WithState(t, p.header.peerId, Connected), [])
  }

  // ---------------------------------------------------------------------
  // KEY_EXCHANGE.
  // ---------------------------------------------------------------------

  function Offer(me: Local, t: Table): Packet {
    Make(Context(me.psk, t.session), PKT_KEY_EXCHANGE, t.localId, KeyOffer(Public(me.secret)))
  }

  function MarkSent(t: Table, id: u8): Table
    requires id in t.peers
  {
    t.(peers := t.peers[id := t.peers[id].(kxSent := true)])
  }

  function Install(t: Table, id: u8, key: Key): Table
    requires id in t.peers
  {
    t.(peers := t.peers[id := t.peers[id].(context := Some(Context(key, t.session)), kxReceived := true)])
  }

  /** The key that a KEY_EXCHANGE makes a node install for the sender it names, if it does. */
  function KeyTaken(me: Local, t: Table, p: Packet): Option<Key> {
    match Opened(Context(me.psk, t.session), p)
    case Some(KeyOffer(theirs)) =>
      if p.header.peerId in t.peers
      then DerivePeerKey(me.secret, theirs, t.session, t.localId, p.header.peerId)
      else None
    case _ => None
  }

  function HandleKeyExchange(me: Local, t: Table, src: SocketAddr, p: Packet): Reply {
    var id := p.header.peerId;
    match KeyTaken(me, t, p)
    case None => Reply(t, [])
    case Some(key) =>
      var t1 := Install(t, id, key);
      if t1.peers[id].kxSent then Reply(t1, [])
      else Reply(MarkSent(t1, id), [Send(src, Offer(me, t))])
  }

  predicate OwesOffer(t: Table, id: u8) {
    id in t.peers && t.peers[id].state == Connected && !t.peers[id].kxSent
  }

  /** The periodic offer to a connected peer that has not had one. */
  function OfferTo(me: Local, t: Table, id: u8): Reply
    requires OwesOffer(t, id)
  {
    Reply(MarkSent(t, id), [Send(t.peers[id].addr, Offer(me, t))])
  }

  /** Audio, keepalives and pings change no table entry that the handshake reads. */
  function Handle(me: Local, t: Table, src: SocketAddr, p: Packet, es: seq<Entry>): Reply {
    if p.header.pktType == PKT_JOIN then HandleJoin(me, t, src, p, es)
    else if p.header.pktType == PKT_PEER_LIST then HandlePeerList(me, t, src, p)
    else if p.header.pktType == PKT_HELLO then HandleHello(me, t, src, p)
    else if p.header.pktType == PKT_HELLO_ACK then HandleHelloAck(me, t, p)
    else if p.header.pktType == PKT_KEY_EXCHANGE then HandleKeyExchange(me, t, src, p)
    else Reply(t, [])
  }
}
