/**
 * One host and any number of joiners over a network that loses, repeats and reorders
 * packets: packets once sent stay in the network, and a step delivers any of them.
 */
module Mesh {
  import opened Words
  import opened Wire
  import opened Crypto
  import opened PeerListCodec
  import opened PeerTable
  import opened Handshake

  /** Every node has one address and one secret; all share the passphrase key. */
  datatype Config = Config(host: SocketAddr, session: SessionId, psk: Key, secrets: map<SocketAddr, Secret>)

  predicate ValidConfig(c: Config) {
    c.host in c.secrets && c.session != NO_SESSION && c.psk.Psk?
  }

  datatype Msg = Msg(src: SocketAddr, dst: SocketAddr, packet: Packet)

  datatype World = World(tables: map<SocketAddr, Table>, net: set<Msg>)

  /** `listed` is the host's idea of its own address, `es` the peer list it builds. */
  datatype Step =
    | SendJoin(who: SocketAddr, port: u16)
    | Deliver(msg: Msg, listed: SocketAddr, es: seq<Entry>)
    | Silence(who: SocketAddr, ids: set<u8>)
    | OfferKey(who: SocketAddr, id: u8)

  function Me(c: Config, a: SocketAddr): Local
    requires a in c.secrets
  {
    Local(c.psk, c.secrets[a])
  }

  function Start(c: Config): World {
    World(map a | a in c.secrets :: if a == c.host then NewHost(c.session) else NewJoiner(), {})
  }

  function Out(a: SocketAddr, sent: seq<Send>): set<Msg> {
    set k | 0 <= k < |sent| :: Msg(a, sent[k].to, sent[k].packet)
  }

  /** Node a takes the reply's table and its packets enter the network. */
  function Post(w: World, a: SocketAddr, r: Reply): World {
    World(w.tables[a := r.table], w.net + Out(a, r.sent))
  }

  ghost predicate Enabled(c: Config, w: World, s: Step)
    requires w.tables.Keys == c.secrets.Keys
  {
    match s
    case SendJoin(a, _) => a in w.tables && a != c.host
    case Deliver(m, listed, es) =>
      && m in w.net && m.dst in w.tables
      && (m.packet.header.pktType == PKT_JOIN ==>
            Enumerates(Admit(w.tables[m.dst], m.src).0, listed, es))
    case Silence(a, _) => a in w.tables
    case OfferKey(a, id) => a in w.tables && OwesOffer(w.tables[a], id)
  }

  ghost function Answer(c: Config, w: World, s: Step): (SocketAddr, Reply)
    requires w.tables.Keys == c.secrets.Keys && Enabled(c, w, s)
  {
    match s
    case SendJoin(a, port) =>
      var join := Make(Context(c.psk, NO_SESSION), PKT_JOIN, 0, JoinRequest(port));
      (a, Reply(w.tables[a], [Send(c.host, join)]))
    case Deliver(m, _, es) =>
      (m.dst, Handle(Me(c, m.dst), w.tables[m.dst], m.src, m.packet, es))
    case Silence(a, ids) => (a, Reply(CheckTimeouts(w.tables[a], ids), []))
    case OfferKey(a, id) => (a, OfferTo(Me(c, a), w.tables[a], id))
  }

  ghost function Next(c: Config, w: World, s: Step): (w': World)
    requires w.tables.Keys == c.secrets.Keys && Enabled(c, w, s)
    ensures w'.tables.Keys == c.secrets.Keys
  {
    var (a, r) := Answer(c, w, s);
    Post(w, a, r)
  }

  ghost predicate Legal(c: Config, steps: seq<Step>)
    decreases |steps|, 0
  {
    steps == []
    || (Legal(c, steps[..|steps| - 1])
        && Enabled(c, Run(c, steps[..|steps| - 1]), steps[|steps| - 1]))
  }

  ghost function Run(c: Config, steps: seq<Step>): (w: World)
    requires Legal(c, steps)
    ensures w.tables.Keys == c.secrets.Keys
    decreases |steps|, 1
  {
    if steps == [] then Start(c)
    else Next(c, Run(c, steps[..|steps| - 1]), steps[|steps| - 1])
  }
}
