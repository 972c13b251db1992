/** A node's view of its peers (peer.rs): the table, its address index and the host's id counter. */
module PeerTable {
  import opened Words
  import opened Wire
  import opened Crypto
  import opened PeerListCodec

  const MAX_PEERS: nat := 5

  datatype PeerState = Discovered | HelloSent | Connected | Disconnected

  datatype Peer = Peer(id: u8, addr: SocketAddr, state: PeerState,
                       kxSent: bool, kxReceived: bool, context: Option<Context>)

  datatype Table = Table(localId: u8, session: SessionId, peers: map<u8, Peer>,
                         addrToId: map<SocketAddr, u8>, isHost: bool, nextPeerId: nat)

  function NewHost(session: SessionId): Table { Table(0, session, map[], map[], true, 1) }

  function NewJoiner(): Table { Table(0, NO_SESSION, map[], map[], false, 0) }

  function NewPeer(id: u8, addr: SocketAddr): Peer { Peer(id, addr, Discovered, false, false, None) }

  function SetIdentity(t: Table, id: u8, session: SessionId): Table {
    t.(localId := id, session := session)
  }

  /** `add_peer`: the table and whether the call succeeded. The full check comes before the update. */
  function AddPeer(t: Table, id: u8, addr: SocketAddr): (Table, bool) {
    if id == t.localId then (t, true)
    else if |t.peers| >= MAX_PEERS - 1 then (t, false)
    else if id !in t.peers then
      (t.(peers := t.peers[id := NewPeer(id, addr)], addrToId := t.addrToId[addr := id]), true)
    else if t.peers[id].addr != addr then
      (t.(peers := t.peers[id := t.peers[id].(addr := addr)],
          addrToId := (t.addrToId - {t.peers[id].addr})[addr := id]), true)
    else (t, true)
  }

  function AllocateId(t: Table): Option<(Table, u8)> {
    if !t.isHost || t.nextPeerId >= MAX_PEERS then None
    else Some((t.(nextPeerId := t.nextPeerId + 1), t.nextPeerId))
  }

  function PeerByAddr(t: Table, addr: SocketAddr): Option<u8> {
    if addr in t.addrToId then Some(t.addrToId[addr]) else None
  }

  /** Change one known peer, keeping its id and address. */
  function WithState(t: Table, id: u8, state: PeerState): Table {
    if id in t.peers then t.(peers := t.peers[id := t.peers[id].(state := state)]) else t
  }

  function Expire(p: Peer, timedOut: bool): Peer {
    if p.state == Connected && timedOut then p.(state := Disconnected) else p
  }

  function CheckTimeouts(t: Table, timedOut: set<u8>): Table {
    t.(peers := map id | id in t.peers :: Expire(t.peers[id], id in timedOut))
  }

  lemma TimeoutsKeepSound(t: Table, timedOut: set<u8>)
    requires IndexSound(t)
    ensures IndexSound(CheckTimeouts(t, timedOut))
  {
    assert CheckTimeouts(t, timedOut).peers.Keys == t.peers.Keys;
  }

  /** A peer list: ourselves first, then every known peer once, in some order. */
  ghost predicate Enumerates(t: Table, local: SocketAddr, es: seq<Entry>) {
    && |es| == |t.peers| + 1
    && es[0] == Entry(t.localId, local)
    && (forall k | 1 <= k < |es| :: es[k].id in t.peers && es[k].addr == t.peers[es[k].id].addr)
    && (forall id | id in t.peers :: exists k :: 1 <= k < |es| && es[k].id == id)
  }

  // ---------------------------------------------------------------------
  // The address index.
  // ---------------------------------------------------------------------

  ghost predicate WellKeyed(t: Table) { forall id | id in t.peers :: t.peers[id].id == id }

  /** Whatever the index answers is right, and there are at most four peers. */
  ghost predicate IndexSound(t: Table) {
    && WellKeyed(t)
    && |t.peers| <= 4
    && (forall a | a in t.addrToId ::
          t.addrToId[a] in t.peers && t.peers[t.addrToId[a]].addr == a)
  }

  /** The index is the inverse of the table. */
  ghost predicate IndexExact(t: Table) {
    && IndexSound(t)
    && (forall id | id in t.peers ::
          t.peers[id].addr in t.addrToId && t.addrToId[t.peers[id].addr] == id)
  }

  /** The call would take an address that another known peer holds. */
  ghost predicate TakesAddress(t: Table, id: u8, addr: SocketAddr) {
    && id != t.localId
    && |t.peers| < 4
    && exists other :: other in t.peers && other != id && t.peers[other].addr == addr
  }

  /**
   * What a call does, id by id and address by address: nothing for our own id, an error with
   * four peers; else the id has the address, a new one with nothing agreed yet, a known one
   * with all it had; the address leads to it and its former address nowhere.
   */
  lemma AddPeerExactly(t: Table, id: u8, addr: SocketAddr)
    ensures var (t', ok) := AddPeer(t, id, addr);
            && (ok <==> id == t.localId || |t.peers| < 4)
            && t' == t.(peers := t'.peers, addrToId := t'.addrToId)
            && (id == t.localId || |t.peers| >= 4 || (id in t.peers && t.peers[id].addr == addr) ==> t' == t)
            && (id != t.localId && |t.peers| < 4 ==>
                  && id in t'.peers
                  && t'.peers[id] == (if id in t.peers then t.peers[id].(addr := addr)
                                      else Peer(id, addr, Discovered, false, false, None))
                  && (t' != t ==> PeerByAddr(t', addr) == Some(id)))
            && (forall other | other != id ::
                  && (other in t'.peers <==> other in t.peers)
                  && (other in t.peers ==> t'.peers[other] == t.peers[other]))
            && (forall a | a != addr ::
                  PeerByAddr(t', a) == if t' != t && id in t.peers && a == t.peers[id].addr then None else PeerByAddr(t, a))
  {
  }

  lemma AddKeepsSound(t: Table, id: u8, addr: SocketAddr)
    requires IndexSound(t)
    ensures IndexSound(AddPeer(t, id, addr).0)
  {
    var t' := AddPeer(t, id, addr).0;
    if t' != t && id in t.peers {
      forall a | a in t'.addrToId
        ensures t'.addrToId[a] in t'.peers && t'.peers[t'.addrToId[a]].addr == a
      {
        if a != addr { assert a in t.addrToId && t.addrToId[a] == t'.addrToId[a]; }
      }
    }
  }

  lemma TakingBreaksIndex(t: Table, id: u8, addr: SocketAddr)
    requires TakesAddress(t, id, addr)
    requires id in t.peers ==> t.peers[id].addr != addr
    ensures !IndexExact(AddPeer(t, id, addr).0)
  {
    var t' := AddPeer(t, id, addr).0;
    var other :| other in t.peers && other != id && t.peers[other].addr == addr;
    assert other in t'.peers && t'.peers[other].addr == addr && t'.addrToId[addr] == id;
  }

  /** From an exact index, add_peer leaves it exact unless it takes another peer's address. */
  lemma AddKeepsExactly(t: Table, id: u8, addr: SocketAddr)
    requires IndexExact(t)
    ensures IndexExact(AddPeer(t, id, addr).0) <==> !TakesAddress(t, id, addr)
  {
    if TakesAddress(t, id, addr) {
      TakingBreaksIndex(t, id, addr);
    } else {
      AddKeepsSound(t, id, addr);
      var t' := AddPeer(t, id, addr).0;
      hide IndexSound;
      forall k | k in t'.peers
        ensures t'.peers[k].addr in t'.addrToId && t'.addrToId[t'.peers[k].addr] == k
      {
        if k != id { assert t.addrToId[t.peers[k].addr] == k; }
      }
    }
  }

  function AddAll(t: Table, calls: seq<Entry>): Table {
    if calls == [] then t
    else
      var last := calls[|calls| - 1];
      AddPeer(AddAll(t, calls[..|calls| - 1]), last.id, last.addr).0
  }

  /** After any calls whatever: an answer of the index names a peer with that id and address. */
  lemma {:induction false} IndexNeverLies(t: Table, calls: seq<Entry>, addr: SocketAddr)
    requires t.peers == map[] && t.addrToId == map[]
    ensures var t' := AddAll(t, calls);
            && IndexSound(t')
            && (PeerByAddr(t', addr).Some? ==>
                  var id := PeerByAddr(t', addr).value;
                  id in t'.peers && t'.peers[id].id == id && t'.peers[id].addr == addr)
  {
    if calls != [] {
      var last := calls[|calls| - 1];
      IndexNeverLies(t, calls[..|calls| - 1], addr);
      AddKeepsSound(AddAll(t, calls[..|calls| - 1]), last.id, last.addr);
    }
  }

  /** If no call takes an address another peer holds, the index stays the exact inverse. */
  lemma {:induction false} IndexIsInverse(t: Table, calls: seq<Entry>)
    requires t.peers == map[] && t.addrToId == map[]
    requires forall k | 0 <= k < |calls| :: !TakesAddress(AddAll(t, calls[..k]), calls[k].id, calls[k].addr)
    ensures IndexExact(AddAll(t, calls))
  {
    if calls != [] {
      var init, last := calls[..|calls| - 1], calls[|calls| - 1];
      assert forall k | 0 <= k < |init| :: init[..k] == calls[..k];
      IndexIsInverse(t, init);
      AddKeepsExactly(AddAll(t, init), last.id, last.addr);
    }
  }
}

/** The peer manager object of peer.rs. */
module PeerManagers {
  import opened Words
  import opened Wire
  import opened Crypto
  import opened PeerListCodec
  import T = PeerTable

  method ExpireAll(peers: map<u8, T.Peer>, timedOut: set<u8>) returns (out: map<u8, T.Peer>)
    ensures out == map id | id in peers :: T.Expire(peers[id], id in timedOut)
  {
    out := peers;
    var todo := peers.Keys;
    while todo != {}
      invariant todo <= out.Keys == peers.Keys
      invariant forall id | id in peers ::
                  out[id] == if id in todo then peers[id] else T.Expire(peers[id], id in timedOut)
      decreases |todo|
    {
      var id :| id in todo;
      out := out[id := T.Expire(out[id], id in timedOut)];
      todo := todo - {id};
    }
  }

  class PeerManager {
    var localId: u8
    var sessionId: SessionId
    var peers: map<u8, T.Peer>
    var addrToId: map<SocketAddr, u8>
    var isHost: bool
    var nextPeerId: nat

    ghost function View(): T.Table
      reads this
    {
      T.Table(localId, sessionId, peers, addrToId, isHost, nextPeerId)
    }

    ghost predicate Valid()
      reads this
    {
      T.IndexSound(View())
    }

    constructor Host(session: SessionId)
      ensures Valid() && View() == T.NewHost(session)
    {
      localId, sessionId, peers, addrToId := 0, session, map[], map[];
      isHost, nextPeerId := true, 1;
    }

    constructor Joiner()
      ensures Valid() && View() == T.NewJoiner()
    {
      localId, sessionId, peers, addrToId := 0, NO_SESSION, map[], map[];
      isHost, nextPeerId := false, 0;
    }

    method SetIdentity(id: u8, session: SessionId)
      requires Valid()
      modifies this
      ensures Valid() && View() == T.SetIdentity(old(View()), id, session)
      ensures localId == id && sessionId == session && peers == old(peers) && addrToId == old(addrToId)
    {
      localId, sessionId := id, session;
    }

    method AddPeer(id: u8, addr: SocketAddr) returns (ok: bool)
      requires Valid()
      modifies this
      ensures Valid() && (View(), ok) == T.AddPeer(old(View()), id, addr)
    {
      T.AddKeepsSound(View(), id, addr);
      if id == localId {
        return true;
      }
      if |peers| >= T.MAX_PEERS - 1 {
        return false;
      }
      if id !in peers {
        peers := peers[id := T.NewPeer(id, addr)];
        addrToId := addrToId[addr := id];
      } else {
        var peer := peers[id];
        if peer.addr != addr {
          addrToId := addrToId - {peer.addr};
          peers := peers[id := peer.(addr := addr)];
          addrToId := addrToId[addr := id];
        }
      }
      ok := true;
    }

    method AllocatePeerId() returns (id: Option<u8>)
      requires Valid()
      modifies this
      ensures Valid()
      ensures match T.AllocateId(old(View()))
              case None => id.None? && View() == old(View())
              case Some((t, k)) => id == Some(k) && View() == t
      ensures id == if isHost && old(nextPeerId) < 5 then Some(old(nextPeerId)) else None
      ensures nextPeerId == old(nextPeerId) + if id.Some? then 1 else 0
    {
      if !isHost {
        return None;
      }
      if nextPeerId >= T.MAX_PEERS {
        return None;
      }
      id := Some(nextPeerId);
      nextPeerId := nextPeerId + 1;
    }

    method PeerByAddr(addr: SocketAddr) returns (id: Option<u8>)
      requires Valid()
      ensures id.Some? ==> id.value in peers && peers[id.value].addr == addr
      ensures id == T.PeerByAddr(View(), addr)
    {
      id := if addr in addrToId then Some(addrToId[addr]) else None;
    }

    method BuildPeerList(local: SocketAddr) returns (list: PeerList)
      requires Valid()
      ensures list.session == sessionId && T.Enumerates(View(), local, list.peers)
    {
      var entries := [Entry(localId, local)];
      var todo := peers.Keys;
      while todo != {}
        invariant todo <= peers.Keys && |entries| + |todo| == |peers| + 1
        invariant entries[0] == Entry(localId, local)
        invariant forall k | 1 <= k < |entries| ::
                    entries[k].id in peers && entries[k].addr == peers[entries[k].id].addr
        invariant forall id | id in peers && id !in todo ::
                    exists k :: 1 <= k < |entries| && entries[k].id == id
        decreases |todo|
      {
        var id :| id in todo;
        ghost var before := entries;
        entries := entries + [Entry(peers[id].id, peers[id].addr)];
        assert forall k | 0 <= k < |before| :: entries[k] == before[k];
        assert entries[|before|].id == id;
        todo := todo - {id};
      }
      list := PeerList(sessionId, entries);
    }

    method SetState(id: u8, state: T.PeerState)
      requires Valid()
      modifies this
      ensures Valid() && View() == T.WithState(old(View()), id, state)
    {
      if id in peers {
        peers := peers[id := peers[id].(state := state)];
      }
    }

    /** `timedOut` stands for the clock: the peers last seen more than ten seconds ago. */
    method CheckTimeouts(timedOut: set<u8>)
      requires Valid()
      modifies this
      ensures Valid() && View() == T.CheckTimeouts(old(View()), timedOut)
      ensures View() == old(View()).(peers := peers) && peers.Keys == old(peers).Keys
      ensures forall id | id in peers ::
                && (old(peers[id]).state == T.Connected && id in timedOut ==>
                      peers[id] == old(peers[id]).(state := T.Disconnected))
                && (old(peers[id]).state != T.Connected || id !in timedOut ==> peers[id] == old(peers[id]))
    {
      T.TimeoutsKeepSound(View(), timedOut);
      peers := ExpireAll(peers, timedOut);
      assert peers == T.CheckTimeouts(old(View()), timedOut).peers;
    }
  }
}
