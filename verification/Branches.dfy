/**
 * What each control branch of `handle_incoming` leaves behind and sends, for every table and
 * packet: entry by entry and packet by packet, with the protocol's packet types as numbers.
 */
module Branches {
  import opened Words
  import opened Wire
  import opened Crypto
  import opened PeerListCodec
  import opened PeerTable
  import opened Handshake

  /** A control packet: number and counter 0, sealed in the context, header included. */
  ghost predicate IsControl(p: Packet, ctx: Context, pktType: u8, sender: u8, plain: Plain) {
    p.header == Header(pktType, sender, 0, 0) && p.body == Encrypt(ctx, p.header, plain)
  }

  /** Exactly one packet, and it is this one. */
  ghost predicate SendsOne(sent: seq<Send>, to: SocketAddr, ctx: Context, pktType: u8, sender: u8, plain: Plain) {
    |sent| == 1 && sent[0].to == to && IsControl(sent[0].packet, ctx, pktType, sender, plain)
  }

  /** The entry for a peer as it stands, or a new one with nothing agreed yet. */
  function EntryFor(t: Table, id: u8, addr: SocketAddr): Peer {
    if id in t.peers then t.peers[id] else Peer(id, addr, Discovered, false, false, None)
  }

  /** No entry but the one for the given id has changed, and that one is p. */
  ghost predicate OnlyEntry(t: Table, t': Table, id: u8, p: Peer) {
    && t'.peers.Keys == t.peers.Keys + {id} && t'.peers[id] == p
    && (forall other | other in t.peers && other != id :: t'.peers[other] == t.peers[other])
    && t'.localId == t.localId && t'.session == t.session && t'.isHost == t.isHost
  }

  /** Which packet goes to which branch; every other type leaves the table alone. */
  lemma DispatchExactly(me: Local, t: Table, src: SocketAddr, p: Packet, es: seq<Entry>)
    ensures var (r, kind) := (Handle(me, t, src, p, es), p.header.pktType);
            && (kind == 0x02 ==> r == HandleJoin(me, t, src, p, es))
            && (kind == 0x03 ==> r == HandleHello(me, t, src, p))
            && (kind == 0x04 ==> r == HandlePeerList(me, t, src, p))
            && (kind == 0x06 ==> r == HandleHelloAck(me, t, p))
            && (kind == 0x09 ==> r == HandleKeyExchange(me, t, src, p))
            && (kind !in {0x02, 0x03, 0x04, 0x06, 0x09} ==> r == Reply(t, []))
  {
    hide HandleJoin, HandleHello, HandlePeerList, HandleHelloAck, HandleKeyExchange;
  }

  lemma Overwritten(m: map<u8, Peer>, id: u8, p: Peer, q: Peer)
    ensures m[id := p][id := q] == m[id := q]
  {
  }

  lemma PutOne(t: Table, t': Table, id: u8, p: Peer)
    requires t'.peers == t.peers[id := p]
    requires t'.localId == t.localId && t'.session == t.session && t'.isHost == t.isHost
    ensures OnlyEntry(t, t', id, p)
  {
  }

  /** With room for it, a peer that is added and marked is the only one to change. */
  lemma AddAndMark(t: Table, id: u8, addr: SocketAddr, state: PeerState)
    requires id != t.localId && |t.peers| < 4
    ensures var (t1, ok) := AddPeer(t, id, addr);
            var (t', p) := (WithState(t1, id, state), EntryFor(t, id, addr).(addr := addr, state := state));
            && ok && t'.peers == t.peers[id := p] && OnlyEntry(t, t', id, p)
            && t' == t.(peers := t'.peers, addrToId := t'.addrToId)
  {
    var t1 := AddPeer(t, id, addr).0;
    var t', p := WithState(t1, id, state), EntryFor(t, id, addr).(addr := addr, state := state);
    assert id in t1.peers && t'.peers == t1.peers[id := p];
    assert t1.peers == t.peers[id := t1.peers[id]];
    hide AddPeer, WithState, EntryFor, OnlyEntry;
    Overwritten(t.peers, id, t1.peers[id], p);
    PutOne(t, t', id, p);
  }

  /** Looking the sender up, or adding it, and marking it Connected. */
  lemma MeetDoes(t: Table, id: u8, src: SocketAddr)
    requires id in t.peers || (id != t.localId && |t.peers| < 4)
    ensures var (t1, ok) := if id in t.peers then (t, true) else AddPeer(t, id, src);
            var t' := WithState(t1, id, Connected);
            && ok && OnlyEntry(t, t', id, EntryFor(t, id, src).(state := Connected))
            && t'.nextPeerId == t.nextPeerId
            && t'.addrToId == (if id in t.peers then t.addrToId else t.addrToId[src := id])
  {
  }

  /**
   * HELLO: if it opens and its sender is known, or is not ourselves and fewer than four peers
   * are, that sender alone is then Connected, a new one at the source address, and gets one
   * HELLO_ACK in our name. Our own HELLO is acknowledged and no more; any other does nothing.
   */
  lemma HelloExactly(me: Local, t: Table, src: SocketAddr, p: Packet)
    ensures var (r, id, ctx) := (HandleHello(me, t, src, p), p.header.peerId, Context(me.psk, t.session));
            if Opened(ctx, p).None? then r == Reply(t, [])
            else if id in t.peers || (id != t.localId && |t.peers| < 4) then
              && OnlyEntry(t, r.table, id, EntryFor(t, id, src).(state := Connected))
              && r.table.nextPeerId == t.nextPeerId
              && r.table.addrToId == (if id in t.peers then t.addrToId else t.addrToId[src := id])
              && SendsOne(r.sent, src, ctx, 0x06, t.localId, Nothing)
            else if id == t.localId then r.table == t && SendsOne(r.sent, src, ctx, 0x06, t.localId, Nothing)
            else r == Reply(t, [])
  {
    var id := p.header.peerId;
    if id in t.peers || (id != t.localId && |t.peers| < 4) { MeetDoes(t, id, src); }
    hide Opened, Encrypt, OnlyEntry, EntryFor;
  }

  /** HELLO_ACK: if it opens, a known sender alone is then Connected; nothing is sent. */
  lemma HelloAckExactly(me: Local, t: Table, p: Packet)
    ensures var (r, id) := (HandleHelloAck(me, t, p), p.header.peerId);
            && r.sent == []
            && if Opened(Context(me.psk, t.session), p).Some? && id in t.peers
               then OnlyEntry(t, r.table, id, t.peers[id].(state := Connected))
                    && r.table == t.(peers := r.table.peers)
               else r.table == t
  {
    hide Opened;
  }

  /** Admission: an id below five is used up; with fewer than four peers its entry is Connected. */
  lemma AdmitDoes(t: Table, src: SocketAddr)
    ensures var (t', admitted) := Admit(t, src);
            var id := t.nextPeerId;
            if !t.isHost || id >= 5 then t' == t && admitted.None?
            else
              && t'.nextPeerId == id + 1 && t'.session == t.session && t'.localId == t.localId
              && (admitted.Some? <==> id == t.localId || |t.peers| < 4)
              && (forall other | other in t.peers && other != id :: other in t'.peers && t'.peers[other] == t.peers[other])
              && (id == t.localId ==> t'.peers.Keys == t.peers.Keys)
              && (admitted.None? ==> t' == t.(nextPeerId := id + 1))
              && (admitted.Some? && id != t.localId ==>
                    OnlyEntry(t, t', id, EntryFor(t, id, src).(addr := src, state := Connected)))
  {
    if t.isHost && t.nextPeerId < 5 {
      var t1 := t.(nextPeerId := t.nextPeerId + 1);
      assert AllocateId(t) == Some((t1, t.nextPeerId));
      if t.nextPeerId != t.localId && |t.peers| < 4 {
        AddAndMark(t1, t.nextPeerId, src, Connected);
        hide AddPeer, WithState;
      }
      hide EntryFor, AllocateId;
    }
  }

  /**
   * JOIN: at the host, if the request opens under the session of zeros and ids below five are
   * left, it takes the next id. With fewer than four peers the newcomer is Connected at the
   * source address and gets one PEER_LIST, under the session of zeros, in the host's name.
   */
  lemma JoinExactly(me: Local, t: Table, src: SocketAddr, p: Packet, es: seq<Entry>)
    ensures var (r, id, zero) := (HandleJoin(me, t, src, p, es), t.nextPeerId, Context(me.psk, [0, 0, 0, 0, 0, 0, 0, 0]));
            if !t.isHost || id >= 5 || Opened(zero, p).None? || !Opened(zero, p).value.JoinRequest? then r == Reply(t, [])
            else if id != t.localId && |t.peers| >= 4 then r == Reply(t.(nextPeerId := id + 1), [])
            else
              && r.table.nextPeerId == id + 1
              && SendsOne(r.sent, src, zero, 0x04, t.localId, Members(PeerList(t.session, es)))
              && if id == t.localId then r.table.peers.Keys == t.peers.Keys
                 else OnlyEntry(t, r.table, id, EntryFor(t, id, src).(addr := src, state := Connected))
  {
    AdmitDoes(t, src);
    assert NO_SESSION == [0, 0, 0, 0, 0, 0, 0, 0];
    hide Opened, Encrypt, Admit, OnlyEntry, EntryFor;
  }

  /**
   * KEY_EXCHANGE: an offer that opens, is no low-order point and names a known peer leaves that
   * peer alone with both flags set and a new context, whose key is made of both secrets, the
   * session and both ids; our own offer goes back unless it was sent before.
   */
  lemma KeyExchangeExactly(me: Local, t: Table, src: SocketAddr, p: Packet)
    ensures var (r, id, ctx) := (HandleKeyExchange(me, t, src, p), p.header.peerId, Context(me.psk, t.session));
            match Opened(ctx, p)
            case Some(KeyOffer(Public(theirs))) =>
              if id !in t.peers then r == Reply(t, [])
              else
                && id in r.table.peers && r.table.peers[id].context.Some?
                && var key := r.table.peers[id].context.value.key;
                   && key.Derived? && key.shared == {me.secret, theirs} && key.salt == t.session
                   && |key.info| == 17 && {key.info[15], key.info[16]} == {t.localId, id}
                   && OnlyEntry(t, r.table, id, t.peers[id].(kxSent := true, kxReceived := true,
                                                             context := Some(Context(key, t.session))))
                   && r.table == t.(peers := r.table.peers)
                   && if t.peers[id].kxSent then r.sent == []
                      else SendsOne(r.sent, src, ctx, 0x09, t.localId, KeyOffer(Public(me.secret)))
            case _ => r == Reply(t, [])
  {
    hide Opened, Encrypt, DerivePeerKey;
    match Opened(Context(me.psk, t.session), p)
    case Some(KeyOffer(theirs)) => DerivedIs(me.secret, theirs, t.session, t.localId, p.header.peerId);
    case _ =>
  }

  /**
   * The periodic offer goes to a Connected peer that has not had one, at the peer's address;
   * nothing changes but that it has.
   */
  lemma OfferExactly(me: Local, t: Table, id: u8)
    ensures OwesOffer(t, id) <==> id in t.peers && t.peers[id].state == Connected && !t.peers[id].kxSent
    ensures OwesOffer(t, id) ==>
              var r := OfferTo(me, t, id);
              && OnlyEntry(t, r.table, id, t.peers[id].(kxSent := true)) && r.table == t.(peers := r.table.peers)
              && SendsOne(r.sent, t.peers[id].addr, Context(me.psk, t.session), 0x09, t.localId, KeyOffer(Public(me.secret)))
  {
    hide Encrypt;
  }

  // ---------------------------------------------------------------------
  // PEER_LIST.
  // ---------------------------------------------------------------------

  /** The listed ids other than our own. */
  function Others(es: seq<Entry>, own: u8): set<u8> {
    set k | 0 <= k < |es| && es[k].id != own :: es[k].id
  }

  /** The entries under those ids, in order. */
  function OtherEntries(es: seq<Entry>, own: u8): seq<Entry> {
    if es == [] then []
    else (if es[0].id == own then [] else [es[0]]) + OtherEntries(es[1..], own)
  }

  /** Before entry j fewer than four peers are known or listed, or the entry is our own. */
  ghost predicate RoomAt(t: Table, es: seq<Entry>, j: nat)
    requires j < |es|
  {
    es[j].id == t.localId || |t.peers.Keys + Others(es[..j], t.localId)| < 4
  }

  /** Every entry before n has room and entry n, if there is one, has not. */
  ghost predicate RoomUpTo(t: Table, es: seq<Entry>, n: nat) {
    n <= |es| && (forall j | 0 <= j < n :: RoomAt(t, es, j)) && (n < |es| ==> !RoomAt(t, es, n))
  }

  /** The entry is the last of the list for its id. */
  ghost predicate LastFor(es: seq<Entry>, j: nat) {
    j < |es| && forall k | j < k < |es| :: es[k].id != es[j].id
  }

  /** What greeting the listed nodes does to the table. */
  ghost predicate GreetedAll(t: Table, t': Table, es: seq<Entry>, sender: u8, src: SocketAddr) {
    && t' == t.(peers := t'.peers, addrToId := t'.addrToId)
    && t'.peers.Keys == t.peers.Keys + Others(es, t.localId)
    && (forall id | id in t.peers && id !in Others(es, t.localId) :: t'.peers[id] == t.peers[id])
    && (forall j: nat | LastFor(es, j) && es[j].id != t.localId ::
          var (id, addr) := (es[j].id, Resolve(es[j], sender, src));
          id in t'.peers && t'.peers[id] == EntryFor(t, id, addr).(addr := addr, state := HelloSent))
  }

  /** One HELLO in our name to each listed node, in order. */
  ghost predicate HelloToAll(me: Local, t: Table, sent: seq<Send>, es: seq<Entry>, sender: u8, src: SocketAddr) {
    var to := OtherEntries(es, t.localId);
    && |sent| == |to|
    && (forall k | 0 <= k < |to| ::
          && sent[k].to == Resolve(to[k], sender, src)
          && IsControl(sent[k].packet, Context(me.psk, t.session), 0x03, t.localId, Nothing))
  }

  lemma OthersOf(es: seq<Entry>, own: u8)
    requires es != []
    ensures Others([es[0]], own) == if es[0].id == own then {} else {es[0].id}
    ensures Others(es, own) == Others([es[0]], own) + Others(es[1..], own)
  {
    assert [es[0]][0] == es[0];
    forall k | 0 <= k < |es[1..]| && es[1..][k].id != own ensures es[1..][k].id in Others(es, own) { assert es[k + 1] == es[1..][k]; }
  }

  lemma RoomNext(t: Table, t1: Table, es: seq<Entry>, j: nat)
    requires j + 1 < |es| && t1.localId == t.localId
    requires t1.peers.Keys == t.peers.Keys + Others([es[0]], t.localId)
    ensures RoomAt(t1, es[1..], j) <==> RoomAt(t, es, j + 1)
  {
    OthersOf(es[..j + 1], t.localId);
    assert es[..j + 1][1..] == es[1..][..j] && es[..j + 1][0] == es[0] && es[1..][j] == es[j + 1];
    hide Others;
    Regroup(t.peers.Keys, Others([es[0]], t.localId), Others(es[1..][..j], t.localId));
  }

  lemma Regroup(x: set<u8>, y: set<u8>, z: set<u8>)
    ensures (x + y) + z == x + (y + z)
  {
  }

  /** Room for the rest of a list, once its first entry is in the table. */
  lemma RoomForRest(t: Table, t1: Table, es: seq<Entry>, n: nat)
    requires RoomUpTo(t, es, n) && n > 0 && t1.localId == t.localId
    requires t1.peers.Keys == t.peers.Keys + Others([es[0]], t.localId)
    ensures RoomUpTo(t1, es[1..], n - 1)
  {
    var rest := es[1..];
    hide RoomAt, Others;
    forall j: nat | j < |rest| ensures RoomAt(t1, rest, j) <==> RoomAt(t, es, j + 1) { RoomNext(t, t1, es, j); }
  }

  /** The first entry has been greeted. */
  ghost predicate GreetedOne(t: Table, t1: Table, e: Entry, sender: u8, src: SocketAddr) {
    && t1 == t.(peers := t1.peers, addrToId := t1.addrToId)
    && if e.id == t.localId then t1.peers == t.peers
       else
         var addr := Resolve(e, sender, src);
         t1.peers == t.peers[e.id := EntryFor(t, e.id, addr).(addr := addr, state := HelloSent)]
  }

  /** An entry's peer, after the first entry and then the rest have been greeted. */
  lemma EntryGreeted(t: Table, t1: Table, t': Table, es: seq<Entry>, sender: u8, src: SocketAddr, j: nat)
    requires es != [] && GreetedOne(t, t1, es[0], sender, src) && GreetedAll(t1, t', es[1..], sender, src)
    requires LastFor(es, j) && es[j].id != t.localId
    ensures var (id, addr) := (es[j].id, Resolve(es[j], sender, src));
            id in t'.peers && t'.peers[id] == EntryFor(t, id, addr).(addr := addr, state := HelloSent)
  {
    var rest := es[1..];
    if j > 0 {
      assert rest[j - 1] == es[j] && forall k | j - 1 < k < |rest| :: rest[k] == es[k + 1];
      assert LastFor(rest, j - 1);
    } else {
      assert forall k | 0 <= k < |rest| :: rest[k] == es[k + 1];
      assert es[0].id !in Others(rest, t.localId);
    }
    hide LastFor, Resolve;
  }

  /** Greeting the first and then the rest is greeting them all. */
  lemma GreetedFirst(t: Table, t1: Table, t': Table, es: seq<Entry>, sender: u8, src: SocketAddr)
    requires es != [] && GreetedOne(t, t1, es[0], sender, src) && GreetedAll(t1, t', es[1..], sender, src)
    ensures GreetedAll(t, t', es, sender, src)
  {
    OthersOf(es, t.localId);
    forall j: nat | LastFor(es, j) && es[j].id != t.localId
      ensures var (id, addr) := (es[j].id, Resolve(es[j], sender, src));
              id in t'.peers && t'.peers[id] == EntryFor(t, id, addr).(addr := addr, state := HelloSent)
    {
      EntryGreeted(t, t1, t', es, sender, src, j);
    }
    hide LastFor, Resolve, Others, EntryFor;
  }

  lemma HelloFirst(me: Local, t: Table, t1: Table, sent: seq<Send>, rest: seq<Send>, es: seq<Entry>, sender: u8, src: SocketAddr)
    requires es != [] && t1.localId == t.localId && t1.session == t.session
    requires HelloToAll(me, t1, rest, es[1..], sender, src)
    requires if es[0].id == t.localId then sent == rest
             else exists p ::
               && sent == [Send(Resolve(es[0], sender, src), p)] + rest
               && IsControl(p, Context(me.psk, t.session), 0x03, t.localId, Nothing)
    ensures HelloToAll(me, t, sent, es, sender, src)
  {
    hide Resolve, IsControl;
  }

  /** With room, another listed node is added or updated and marked HelloSent. */
  lemma GreetAdds(t: Table, e: Entry, sender: u8, src: SocketAddr)
    requires e.id != t.localId && |t.peers| < 4
    ensures var (t1, ok) := AddPeer(t, e.id, Resolve(e, sender, src));
            ok && GreetedOne(t, WithState(t1, e.id, HelloSent), e, sender, src)
  {
    AddAndMark(t, e.id, Resolve(e, sender, src), HelloSent);
    hide Resolve, AddPeer, WithState, EntryFor;
  }

  lemma RoomFirst(t: Table, es: seq<Entry>)
    requires es != []
    ensures RoomAt(t, es, 0) <==> es[0].id == t.localId || |t.peers| < 4
  {
    assert es[..0] == [] && Others([], t.localId) == {} && t.peers.Keys + {} == t.peers.Keys;
  }

  lemma GreetStep(me: Local, t: Table, es: seq<Entry>, sender: u8, src: SocketAddr) returns (t1: Table, p: Packet)
    requires es != [] && RoomAt(t, es, 0)
    ensures GreetedOne(t, t1, es[0], sender, src)
    ensures var (r, rest) := (Greet(me, t, es, sender, src), Greet(me, t1, es[1..], sender, src));
            && r.table == rest.table
            && r.sent == (if es[0].id == t.localId then rest.sent else [Send(Resolve(es[0], sender, src), p)] + rest.sent)
    ensures IsControl(p, Context(me.psk, t.session), 0x03, t.localId, Nothing)
  {
    RoomFirst(t, es);
    p := Make(Context(me.psk, t.session), PKT_HELLO, t.localId, Nothing);
    if es[0].id == t.localId {
      t1 := t;
      hide AddPeer, WithState;
    } else {
      t1 := WithState(AddPeer(t, es[0].id, Resolve(es[0], sender, src)).0, es[0].id, HelloSent);
      GreetAdds(t, es[0], sender, src);
      hide AddPeer, WithState, GreetedOne;
    }
    hide Encrypt, Resolve, RoomAt;
  }

  lemma GreetStops(me: Local, t: Table, es: seq<Entry>, sender: u8, src: SocketAddr)
    requires es == [] || !RoomAt(t, es, 0)
    ensures Greet(me, t, es, sender, src) == Reply(t, [])
  {
    if es != [] { RoomFirst(t, es); }
    hide RoomAt, Make, Resolve;
  }

  /**
   * The greeting loop: it reaches every entry before the first that finds four peers known or
   * listed. Each id it reaches, ours apart, is then in the table, HelloSent, at the address of
   * its last entry (the packet's source for the sender), with its flags and context as they
   * were; no other peer has changed; and each entry was sent one HELLO in our name, in order.
   */
  lemma {:induction false} GreetExactly(me: Local, t: Table, es: seq<Entry>, sender: u8, src: SocketAddr, n: nat)
    requires RoomUpTo(t, es, n)
    ensures var r := Greet(me, t, es, sender, src);
            && GreetedAll(t, r.table, es[..n], sender, src)
            && HelloToAll(me, t, r.sent, es[..n], sender, src)
    decreases |es|
  {
    assert n > 0 ==> RoomAt(t, es, 0);
    assert n == 0 ==> es == [] || !RoomAt(t, es, 0);
    hide *;
    if n == 0 {
      GreetStops(me, t, es, sender, src);
      GreetedNobody(me, t, sender, src);
      assert es[..0] == [];
    } else {
      var tail, kept := es[1..], es[..n];
      assert kept[1..] == tail[..n - 1] && kept[0] == es[0];
      var t1, p := GreetStep(me, t, es, sender, src);
      GreetedKeys(t, t1, es[0], sender, src);
      RoomForRest(t, t1, es, n);
      GreetExactly(me, t1, tail, sender, src, n - 1);
      var r, rest := Greet(me, t, es, sender, src), Greet(me, t1, tail, sender, src);
      GreetedFirst(t, t1, rest.table, kept, sender, src);
      HelloFirst(me, t, t1, r.sent, rest.sent, kept, sender, src);
    }
  }

  lemma GreetedKeys(t: Table, t1: Table, e: Entry, sender: u8, src: SocketAddr)
    requires GreetedOne(t, t1, e, sender, src)
    ensures t1.localId == t.localId && t1.session == t.session && t1.peers.Keys == t.peers.Keys + Others([e], t.localId)
  {
    assert [e][0] == e;
  }

  lemma GreetedNobody(me: Local, t: Table, sender: u8, src: SocketAddr)
    ensures GreetedAll(t, t, [], sender, src) && HelloToAll(me, t, [], [], sender, src)
  {
  }

  /** Every list has such an end. */
  lemma RoomEnds(t: Table, es: seq<Entry>) returns (n: nat)
    ensures RoomUpTo(t, es, n)
  {
    hide RoomAt;
    n := 0;
    while n < |es| && RoomAt(t, es, n)
      invariant n <= |es| && forall j | 0 <= j < n :: RoomAt(t, es, j)
    {
      n := n + 1;
    }
  }

  /**
   * PEER_LIST: a list that opens under the session of zeros and is not empty gives us the
   * largest listed id and the list's session, and all it names are greeted as far as there is
   * room. Anything else does nothing.
   */
  lemma PeerListExactly(me: Local, t: Table, src: SocketAddr, p: Packet) returns (own: u8, n: nat)
    ensures var (r, plain) := (HandlePeerList(me, t, src, p), Opened(Context(me.psk, [0, 0, 0, 0, 0, 0, 0, 0]), p));
            if plain.Some? && plain.value.Members? && plain.value.list.peers != [] then
              var (es, session, id) := (plain.value.list.peers, plain.value.list.session, p.header.peerId);
              var t1 := t.(localId := own, session := session);
              && (exists k :: 0 <= k < |es| && es[k].id == own) && (forall k | 0 <= k < |es| :: es[k].id <= own)
              && r.table.localId == own && r.table.session == session
              && RoomUpTo(t1, es, n)
              && (forall e | e in es :: Resolve(e, id, src) == if e.id == id then src else e.addr)
              && GreetedAll(t1, r.table, es[..n], id, src) && HelloToAll(me, t1, r.sent, es[..n], id, src)
            else r == Reply(t, [])
  {
    own, n := 0, 0;
    assert NO_SESSION == [0, 0, 0, 0, 0, 0, 0, 0];
    var plain := Opened(Context(me.psk, NO_SESSION), p);
    if plain.Some? && plain.value.Members? && plain.value.list.peers != [] {
      var es := plain.value.list.peers;
      own := MaxId(es);
      var t1 := t.(localId := own, session := plain.value.list.session);
      hide Opened, MaxId, GreetedAll, HelloToAll, RoomUpTo, Greet;
      n := RoomEnds(t1, es);
      GreetExactly(me, t1, es, p.header.peerId, src, n);
      GreetedIdentity(t1, HandlePeerList(me, t, src, p).table, es[..n], p.header.peerId, src);
    } else {
      hide Opened;
    }
  }

  lemma GreetedIdentity(t: Table, t': Table, es: seq<Entry>, sender: u8, src: SocketAddr)
    requires GreetedAll(t, t', es, sender, src)
    ensures t'.localId == t.localId && t'.session == t.session
  {
  }
}
