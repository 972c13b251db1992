/** Packet headers, nonces and the cleartext part of a datagram (net.rs, crypto.rs). */
module Wire {
  import opened Words

  const PKT_AUDIO: u8 := 0x01
  const PKT_JOIN: u8 := 0x02
  const PKT_HELLO: u8 := 0x03
  const PKT_PEER_LIST: u8 := 0x04
  const PKT_HELLO_ACK: u8 := 0x06
  const PKT_KEY_EXCHANGE: u8 := 0x09

  const HEADER_LEN: nat := 8

  type SessionId = s: seq<u8> | |s| == 8 witness [0, 0, 0, 0, 0, 0, 0, 0]

  const NO_SESSION: SessionId := [0, 0, 0, 0, 0, 0, 0, 0]

  datatype Header = Header(pktType: u8, peerId: u8, seqNum: u16, counter: u32)

  function HeaderBytes(h: Header): (b: seq<u8>)
    ensures |b| == 8
  {
    [h.pktType, h.peerId] + Be16(h.seqNum) + Be32(h.counter)
  }

  function HeaderFromBytes(b: seq<u8>): Option<Header> {
    if |b| < HEADER_LEN then None
    else Some(Header(b[0], b[1], FromBe16(b[2], b[3]), FromBe32(b[4], b[5], b[6], b[7])))
  }

  /** A datagram is the header followed by the sealed payload. */
  function BuildWire(header: seq<u8>, body: seq<u8>): seq<u8> { header + body }

  function ParseWire(data: seq<u8>): Option<(seq<u8>, seq<u8>)> {
    if |data| < HEADER_LEN then None else Some((data[..HEADER_LEN], data[HEADER_LEN..]))
  }

  /** Everything the 24-byte nonce is built from. */
  datatype Nonce = Nonce(session: SessionId, peerId: u8, seqNum: u16, counter: u32)

  function NonceBytes(n: Nonce): (b: seq<u8>)
    ensures |b| == 24
  {
    n.session + [n.peerId, 0] + Be16(n.seqNum) + Be32(n.counter) + [0, 0, 0, 0, 0, 0, 0, 0]
  }

  /** The receiver's way to the nonce: its own session and the fields of the parsed header. */
  function NonceFor(session: SessionId, h: Header): Nonce {
    Nonce(session, h.peerId, h.seqNum, h.counter)
  }

  /** Which byte holds which field of a header: multi-byte fields have their high byte first. */
  lemma HeaderLayout(h: Header)
    ensures var b := HeaderBytes(h);
            && |b| == 8 && b[0] == h.pktType && b[1] == h.peerId
            && b[2] == h.seqNum / 0x100 && b[3] == h.seqNum % 0x100
            && b[4] == h.counter / 0x100_0000 && b[5] == h.counter / 0x1_0000 % 0x100
            && b[6] == h.counter / 0x100 % 0x100 && b[7] == h.counter % 0x100
  {
    BigEndian(h.counter);
  }

  /** And of a nonce: session, sender, direction 0, number, counter, padding. */
  lemma NonceLayout(n: Nonce)
    ensures var b := NonceBytes(n);
            && |b| == 24 && (forall k | 0 <= k < 8 :: b[k] == n.session[k]) && b[8] == n.peerId && b[9] == 0
            && b[10] == n.seqNum / 0x100 && b[11] == n.seqNum % 0x100
            && b[12] == n.counter / 0x100_0000 && b[13] == n.counter / 0x1_0000 % 0x100
            && b[14] == n.counter / 0x100 % 0x100 && b[15] == n.counter % 0x100
            && (forall k | 16 <= k < 24 :: b[k] == 0)
  {
    BigEndian(n.counter);
  }

  lemma HeaderRoundTrip(h: Header, tail: seq<u8>)
    ensures HeaderFromBytes(HeaderBytes(h) + tail) == Some(h)
  {
    Be32RoundTrip(h.counter);
    var b := HeaderBytes(h) + tail;
    assert b[2..4] == Be16(h.seqNum) && b[4..8] == Be32(h.counter);
    assert b[2] == Be16(h.seqNum)[0] && b[3] == Be16(h.seqNum)[1];
    assert forall k | 0 <= k < 4 :: b[4 + k] == Be32(h.counter)[k];
  }

  /** Conversely, the header that is read prints to the bytes it was read from. */
  lemma HeaderBytesOfParsed(data: seq<u8>)
    requires HeaderFromBytes(data).Some?
    ensures HeaderBytes(HeaderFromBytes(data).value) == data[..8]
  {
    BytesOfFromBe(data[2], data[3], data[2], data[3]);
    BytesOfFromBe(data[4], data[5], data[6], data[7]);
    hide Be16, Be32, FromBe16, FromBe32;
  }

  /** Equal nonce bytes come from equal parts: packets never share a nonce by accident. */
  lemma NonceInjective(m: Nonce, n: Nonce)
    ensures NonceBytes(m) == NonceBytes(n) <==> m == n
  {
    if NonceBytes(m) == NonceBytes(n) {
      var a, b := NonceBytes(m), NonceBytes(n);
      assert m.session == a[..8] && n.session == b[..8];
      assert a[8] == m.peerId && b[8] == n.peerId;
      assert Be16(m.seqNum) == a[10..12] && Be16(n.seqNum) == b[10..12];
      assert Be32(m.counter) == a[12..16] && Be32(n.counter) == b[12..16];
      Be32RoundTrip(m.counter);
      Be32RoundTrip(n.counter);
      assert Be16(m.seqNum)[0] == Be16(n.seqNum)[0] && Be16(m.seqNum)[1] == Be16(n.seqNum)[1];
    }
  }

  lemma HeaderInjective(g: Header, h: Header)
    ensures HeaderBytes(g) == HeaderBytes(h) <==> g == h
  {
    HeaderRoundTrip(g, []);
    HeaderRoundTrip(h, []);
    assert HeaderBytes(g) + [] == HeaderBytes(g) && HeaderBytes(h) + [] == HeaderBytes(h);
  }

  /** From the datagram alone the receiver rebuilds the sender's header, body and nonce bytes. */
  lemma NonceAgreement(session: SessionId, h: Header, body: seq<u8>)
    ensures var parsed := ParseWire(BuildWire(HeaderBytes(h), body));
            && parsed == Some((HeaderBytes(h), body))
            && HeaderFromBytes(parsed.value.0) == Some(h)
            && NonceBytes(NonceFor(session, HeaderFromBytes(parsed.value.0).value))
               == NonceBytes(Nonce(session, h.peerId, h.seqNum, h.counter))
  {
    HeaderRoundTrip(h, []);
    assert HeaderBytes(h) + [] == HeaderBytes(h);
    var data := BuildWire(HeaderBytes(h), body);
    assert data[..HEADER_LEN] == HeaderBytes(h) && data[HEADER_LEN..] == body;
  }
}
