/** `handle_incoming` as lib.rs runs it: on the node's peer manager, packet by packet. */
module Sessions {
  import opened Words
  import opened Wire
  import opened Crypto
  import opened PeerListCodec
  import T = PeerTable
  import opened PeerManagers
  import opened Handshake
  import opened Branches

  method OnJoin(me: Local, mgr: PeerManager, src: SocketAddr, p: Packet, listed: SocketAddr)
    returns (sent: seq<Send>, es: seq<Entry>)
    requires mgr.Valid()
    modifies mgr
    ensures mgr.Valid()
    ensures Reply(mgr.View(), sent) == HandleJoin(me, old(mgr.View()), src, p, es)
    ensures sent != [] ==> T.Enumerates(mgr.View(), listed, es)
  {
    sent, es := [], [];
    if !mgr.isHost {
      return;
    }
    var plain := Opened(Context(me.psk, NO_SESSION), p);
    if plain.None? || !plain.value.JoinRequest? {
      return;
    }
    var newId := mgr.AllocatePeerId();
    if newId.None? {
      return;
    }
    var ok := mgr.AddPeer(newId.value, src);
    if !ok {
      return;
    }
    mgr.SetState(newId.value, T.Connected);
    var list := mgr.BuildPeerList(listed);
    es := list.peers;
    var ctx := Context(me.psk, NO_SESSION);
    sent := [Send(src, Make(ctx, PKT_PEER_LIST, mgr.localId, Members(list)))];
  }

  method FindMaxId(es: seq<Entry>) returns (m: u8)
    requires es != []
    ensures m == MaxId(es)
  {
    m := es[0].id;
    var i := 1;
    while i < |es|
      invariant 1 <= i <= |es|
      invariant exists k :: 0 <= k < i && es[k].id == m
      invariant forall k | 0 <= k < i :: es[k].id <= m
    {
      if es[i].id > m {
        m := es[i].id;
      }
      i := i + 1;
    }
  }

  method OnPeerList(me: Local, mgr: PeerManager, src: SocketAddr, p: Packet) returns (sent: seq<Send>)
    requires mgr.Valid()
    modifies mgr
    ensures mgr.Valid()
    ensures Reply(mgr.View(), sent) == HandlePeerList(me, old(mgr.View()), src, p)
  {
    sent := [];
    var plain := Opened(Context(me.psk, NO_SESSION), p);
    if plain.None? || !plain.value.Members? {
      return;
    }
    var list := plain.value.list;
    if list.peers == [] {
      return;
    }
    var myId := FindMaxId(list.peers);
    mgr.SetIdentity(myId, list.session);
    sent := GreetPeers(me, mgr, list.peers, p.header.peerId, src);
  }

  /** A reply whose first packets have already been sent. */
  function Continued(sent: seq<Send>, r: Reply): Reply { Reply(r.table, sent + r.sent) }

  method GreetPeers(me: Local, mgr: PeerManager, es: seq<Entry>, sender: u8, src: SocketAddr)
    returns (sent: seq<Send>)
    requires mgr.Valid()
    modifies mgr
    ensures mgr.Valid()
    ensures Reply(mgr.View(), sent) == Greet(me, old(mgr.View()), es, sender, src)
  {
    sent := [];
    var i := 0;
    ghost var whole := Greet(me, mgr.View(), es, sender, src);
    assert es[0..] == es && [] + whole.sent == whole.sent;
    hide Greet, Make, T.IndexSound;
    while i < |es|
      invariant i <= |es| && mgr.Valid()
      invariant whole == Continued(sent, Greet(me, mgr.View(), es[i..], sender, src))
    {
      GreetNext(me, mgr.View(), es, i, sender, src);
      var id := es[i].id;
      if id != mgr.localId {
        var addr := Resolve(es[i], sender, src);
        var hello := Send(addr, Make(Context(me.psk, mgr.sessionId), PKT_HELLO, mgr.localId, Nothing));
        var ok := mgr.AddPeer(id, addr);
        if !ok {
          return;
        }
        mgr.SetState(id, T.HelloSent);
        AfterAfter(sent, hello, Greet(me, mgr.View(), es[i + 1..], sender, src));
        sent := sent + [hello];
      }
      i := i + 1;
    }
    GreetNobody(me, mgr.View(), sender, src);
    assert es[i..] == [];
  }

  lemma GreetNobody(me: Local, t: T.Table, sender: u8, src: SocketAddr)
    ensures Greet(me, t, [], sender, src) == Reply(t, [])
  {
  }

  lemma GreetNext(me: Local, t: T.Table, es: seq<Entry>, i: nat, sender: u8, src: SocketAddr)
    requires i < |es|
    ensures var id, addr, rest := es[i].id, Resolve(es[i], sender, src), es[i + 1..];
            var hello := Send(addr, Make(Context(me.psk, t.session), PKT_HELLO, t.localId, Nothing));
            var (t1, ok) := T.AddPeer(t, id, addr);
            Greet(me, t, es[i..], sender, src)
            == if id == t.localId then Greet(me, t, rest, sender, src)
               else if !ok then Reply(t1, [])
               else Continued([hello], Greet(me, T.WithState(t1, id, T.HelloSent), rest, sender, src))
  {
    assert es[i..][0] == es[i] && es[i..][1..] == es[i + 1..];
    hide Make;
  }

  lemma AfterAfter(sent: seq<Send>, hello: Send, r: Reply)
    ensures Continued(sent, Continued([hello], r)) == Continued(sent + [hello], r)
  {
    assert sent + ([hello] + r.sent) == (sent + [hello]) + r.sent;
  }

  method OnHello(me: Local, mgr: PeerManager, src: SocketAddr, p: Packet) returns (sent: seq<Send>)
    requires mgr.Valid()
    modifies mgr
    ensures mgr.Valid()
    ensures Reply(mgr.View(), sent) == HandleHello(me, old(mgr.View()), src, p)
    // a known sender, or a new one while there is room, is Connected and acknowledged
    ensures var (t, id, ctx) := (old(mgr.View()), p.header.peerId, Context(me.psk, old(mgr.sessionId)));
            Opened(ctx, p).Some? && (id in t.peers || (id != t.localId && |t.peers| < 4)) ==>
              && OnlyEntry(t, mgr.View(), id, EntryFor(t, id, src).(state := T.Connected))
              && SendsOne(sent, src, ctx, 0x06, t.localId, Nothing)
  {
    HelloExactly(me, mgr.View(), src, p);
    hide OnlyEntry, EntryFor, SendsOne, T.IndexSound;
    sent := [];
    var ctx := Context(me.psk, mgr.sessionId);
    if Opened(ctx, p).None? {
      return;
    }
    var id := p.header.peerId;
    if id !in mgr.peers {
      var ok := mgr.AddPeer(id, src);
      if !ok {
        return;
      }
    }
    mgr.SetState(id, T.Connected);
    sent := [Send(src, Make(ctx, PKT_HELLO_ACK, mgr.localId, Nothing))];
  }

  method OnHelloAck(me: Local, mgr: PeerManager, p: Packet)
    requires mgr.Valid()
    modifies mgr
    ensures mgr.Valid()
    ensures Reply(mgr.View(), []) == HandleHelloAck(me, old(mgr.View()), p)
  {
    if Opened(Context(me.psk, mgr.sessionId), p).Some? {
      mgr.SetState(p.header.peerId, T.Connected);
    }
  }

  method OnKeyExchange(me: Local, mgr: PeerManager, src: SocketAddr, p: Packet) returns (sent: seq<Send>)
    requires mgr.Valid()
    modifies mgr
    ensures mgr.Valid()
    ensures Reply(mgr.View(), sent) == HandleKeyExchange(me, old(mgr.View()), src, p)
  {
    sent := [];
    var plain := Opened(Context(me.psk, mgr.sessionId), p);
    if plain.None? || !plain.value.KeyOffer? {
      return;
    }
    var id := p.header.peerId;
    var key := DerivePeerKey(me.secret, plain.value.key, mgr.sessionId, mgr.localId, id);
    if key.None? || id !in mgr.peers {
      return;
    }
    var ctx := Context(key.value, mgr.sessionId);
    mgr.peers := mgr.peers[id := mgr.peers[id].(context := Some(ctx), kxReceived := true)];
    if !mgr.peers[id].kxSent {
      var offer := KeyOffer(Public(me.secret));
      sent := [Send(src, Make(Context(me.psk, mgr.sessionId), PKT_KEY_EXCHANGE, mgr.localId, offer))];
      mgr.peers := mgr.peers[id := mgr.peers[id].(kxSent := true)];
    }
  }

  /** One datagram: the manager takes exactly the step the handshake model describes. */
  method HandleIncoming(me: Local, mgr: PeerManager, src: SocketAddr, p: Packet, listed: SocketAddr)
    returns (sent: seq<Send>, es: seq<Entry>)
    requires mgr.Valid()
    modifies mgr
    ensures mgr.Valid()
    ensures Reply(mgr.View(), sent) == Handle(me, old(mgr.View()), src, p, es)
    ensures p.header.pktType == 0x02 && sent != [] ==> T.Enumerates(mgr.View(), listed, es)
  {
    sent, es := [], [];
    if p.header.pktType == PKT_JOIN {
      sent, es := OnJoin(me, mgr, src, p, listed);
    } else if p.header.pktType == PKT_PEER_LIST {
      sent := OnPeerList(me, mgr, src, p);
    } else if p.header.pktType == PKT_HELLO {
      sent := OnHello(me, mgr, src, p);
    } else if p.header.pktType == PKT_HELLO_ACK {
      OnHelloAck(me, mgr, p);
    } else if p.header.pktType == PKT_KEY_EXCHANGE {
      sent := OnKeyExchange(me, mgr, src, p);
    }
    hide HandleJoin, HandlePeerList, HandleHello, HandleHelloAck, HandleKeyExchange;
  }
}
