/** The PEER_LIST payload (net.rs): session, count, then one record per peer. */
module PeerListCodec {
  import opened Words
  import opened Wire

  /** `SocketAddr` as ip and port; IPv6 flow and scope are not carried on the wire. */
  type Ip4 = s: seq<u8> | |s| == 4 witness [0, 0, 0, 0]
  type Ip6 = s: seq<u8> | |s| == 16 witness [0, 0, 0, 0, 0, 0, 0, 0, 0, 0, 0, 0, 0, 0, 0, 0]

  datatype SocketAddr = V4(ip4: Ip4, port: u16) | V6(ip6: Ip6, port: u16)

  datatype Entry = Entry(id: u8, addr: SocketAddr)

  datatype PeerList = PeerList(session: SessionId, peers: seq<Entry>)

  /** Errors are `Err`; an out-of-bounds index, which aborts the thread, is `Panic`. */
  datatype Parsed<+T> = Ok(value: T, next: nat) | Err | Panic

  // ---------------------------------------------------------------------
  // Printing.
  // ---------------------------------------------------------------------

  function EntryBytes(e: Entry): seq<u8> {
    match e.addr
    case V4(ip, port) => [e.id, 4] + ip + Be16(port)
    case V6(ip, port) => [e.id, 6] + ip + Be16(port)
  }

  function EntriesBytes(es: seq<Entry>): seq<u8> {
    if es == [] then [] else EntryBytes(es[0]) + EntriesBytes(es[1..])
  }

  /** The count is the length truncated to one byte. */
  function ListBytes(p: PeerList): seq<u8> {
    p.session + [|p.peers| % 0x100] + EntriesBytes(p.peers)
  }

  method AppendEntry(buf: seq<u8>, e: Entry) returns (out: seq<u8>)
    ensures out == buf + EntryBytes(e)
  {
    out := buf + [e.id];
    match e.addr {
      case V4(ip, port) =>
        out := out + [4];
        out := out + ip;
        out := out + Be16(port);
      case V6(ip, port) =>
        out := out + [6];
        out := out + ip;
        out := out + Be16(port);
    }
  }

  method ToBytes(p: PeerList) returns (buf: seq<u8>)
    ensures buf == ListBytes(p)
  {
    buf := p.session;
    buf := buf + [|p.peers| % 0x100];
    var i := 0;
    while i < |p.peers|
      invariant i <= |p.peers|
      invariant buf + EntriesBytes(p.peers[i..]) == ListBytes(p)
    {
      ghost var first, rest := EntryBytes(p.peers[i]), EntriesBytes(p.peers[i + 1..]);
      assert EntriesBytes(p.peers[i..]) == first + rest by {
        assert p.peers[i..][1..] == p.peers[i + 1..];
      }
      assert buf + (first + rest) == (buf + first) + rest;
      buf := AppendEntry(buf, p.peers[i]);
      i := i + 1;
    }
  }

  // ---------------------------------------------------------------------
  // The layout.
  // ---------------------------------------------------------------------

  /** A record is 8 bytes long for version 4 and 20 for version 6. */
  function RecordLength(version: u8): nat { if version == 4 then 8 else 20 }

  /** Where record k begins, counted from the first. */
  function StartOf(es: seq<Entry>, k: nat): nat
    requires k <= |es|
  {
    if k == 0 then 0 else RecordLength(if es[0].addr.V4? then 4 else 6) + StartOf(es[1..], k - 1)
  }

  /** Id, version, ip, and the port with its high byte first. */
  ghost predicate RecordAt(b: seq<u8>, at: nat, e: Entry) {
    && at + (if e.addr.V4? then 8 else 20) <= |b| && b[at] == e.id
    && match e.addr
       case V4(ip, port) => b[at + 1] == 4 && b[at + 2..at + 6] == ip && b[at + 6] == port / 0x100 && b[at + 7] == port % 0x100
       case V6(ip, port) => b[at + 1] == 6 && b[at + 2..at + 18] == ip && b[at + 18] == port / 0x100 && b[at + 19] == port % 0x100
  }

  lemma RecordLater(b: seq<u8>, front: seq<u8>, back: seq<u8>, at: nat, e: Entry)
    requires b == front + back && RecordAt(back, at, e)
    ensures RecordAt(b, |front| + at, e)
  {
    assert forall i, j | 0 <= i <= j <= |back| :: b[|front| + i..|front| + j] == back[i..j];
  }

  lemma RecordFirst(b: seq<u8>, e: Entry, rest: seq<u8>)
    requires b == EntryBytes(e) + rest
    ensures RecordAt(b, 0, e) && |EntryBytes(e)| == RecordLength(if e.addr.V4? then 4 else 6)
  {
    match e.addr
    case V4(ip, port) => assert b[2..6] == ip;
    case V6(ip, port) => assert b[2..18] == ip;
  }

  lemma {:induction false} RecordsAt(es: seq<Entry>, k: nat)
    requires k < |es|
    ensures RecordAt(EntriesBytes(es), StartOf(es, k), es[k])
    decreases k
  {
    var e, rest := es[0], es[1..];
    var b, front, back := EntriesBytes(es), EntryBytes(e), EntriesBytes(rest);
    hide *;
    EntriesUnfold(es);
    RecordFirst(b, e, back);
    StartUnfolds(es, k);
    if k > 0 {
      RecordsAt(rest, k - 1);
      RecordLater(b, front, back, StartOf(rest, k - 1), rest[k - 1]);
    }
  }

  lemma StartUnfolds(es: seq<Entry>, k: nat)
    requires es != [] && k <= |es|
    ensures StartOf(es, k)
            == if k == 0 then 0 else RecordLength(if es[0].addr.V4? then 4 else 6) + StartOf(es[1..], k - 1)
  {
  }

  lemma {:induction false} RecordsEnd(es: seq<Entry>)
    ensures |EntriesBytes(es)| == StartOf(es, |es|)
  {
    if es != [] {
      RecordFirst(EntryBytes(es[0]), es[0], []);
      RecordsEnd(es[1..]);
      hide EntryBytes;
    }
  }

  /**
   * Which byte of a payload is which: eight of the session, the number of entries modulo 256,
   * then the records one after the other and nothing else.
   */
  lemma ListLayout(p: PeerList, k: nat)
    ensures var b := ListBytes(p);
            && |b| == 9 + StartOf(p.peers, |p.peers|) && b[..8] == p.session && b[8] == |p.peers| % 0x100
            && (k < |p.peers| ==> RecordAt(b, 9 + StartOf(p.peers, k), p.peers[k]))
  {
    RecordsEnd(p.peers);
    hide EntriesBytes, StartOf, RecordAt;
    if k < |p.peers| {
      RecordsAt(p.peers, k);
      RecordLater(ListBytes(p), p.session + [|p.peers| % 0x100], EntriesBytes(p.peers), StartOf(p.peers, k), p.peers[k]);
    }
  }

  // ---------------------------------------------------------------------
  // Parsing.
  // ---------------------------------------------------------------------

  function ParseEntry(data: seq<u8>, at: nat): (r: Parsed<Entry>)
    ensures r.Ok? ==> at < r.next <= |data|
  {
    if at >= |data| then Err
    else if at + 1 >= |data| then Panic // the version byte is read unchecked
    else
      var id, version, o := data[at], data[at + 1], at + 2;
      if version == 4 then
        if o + 6 > |data| then Err
        else Ok(Entry(id, V4(data[o..o + 4], FromBe16(data[o + 4], data[o + 5]))), o + 6)
      else if version == 6 then
        if o + 18 > |data| then Err
        else Ok(Entry(id, V6(data[o..o + 16], FromBe16(data[o + 16], data[o + 17]))), o + 18)
      else Err
  }

  /** Entries read so far, put in front of what parsing the rest gives. */
  function Prepend(done: seq<Entry>, rest: Parsed<seq<Entry>>): Parsed<seq<Entry>> {
    if rest.Ok? then Ok(done + rest.value, rest.next) else rest
  }

  function ParseEntries(data: seq<u8>, at: nat, count: nat): (r: Parsed<seq<Entry>>)
    ensures r.Ok? ==> at <= r.next && (at <= |data| ==> r.next <= |data|)
    decreases count
  {
    if count == 0 then Ok([], at)
    else
      match ParseEntry(data, at)
      case Err => Err
      case Panic => Panic
      case Ok(e, next) =>
        Prepend([e], ParseEntries(data, next, count - 1))
  }

  function ParseList(data: seq<u8>): Parsed<PeerList> {
    if |data| < 9 then Err
    else
      match ParseEntries(data, 9, data[8])
      case Err => Err
      case Panic => Panic
      case Ok(es, end) => Ok(PeerList(data[..8], es), end)
  }

  method ReadEntry(data: seq<u8>, at: nat) returns (r: Parsed<Entry>)
    ensures r == ParseEntry(data, at)
  {
    var offset := at;
    if offset >= |data| {
      return Err;
    }
    var id := data[offset];
    offset := offset + 1;
    if offset >= |data| {
      return Panic;
    }
    var version := data[offset];
    offset := offset + 1;
    if version == 4 {
      if offset + 6 > |data| {
        return Err;
      }
      var port := FromBe16(data[offset + 4], data[offset + 5]);
      r := Ok(Entry(id, V4(data[offset..offset + 4], port)), offset + 6);
    } else if version == 6 {
      if offset + 18 > |data| {
        return Err;
      }
      var port := FromBe16(data[offset + 16], data[offset + 17]);
      r := Ok(Entry(id, V6(data[offset..offset + 16], port)), offset + 18);
    } else {
      return Err;
    }
  }

  lemma PrependOne(done: seq<Entry>, e: Entry, rest: Parsed<seq<Entry>>)
    ensures Prepend(done, Prepend([e], rest)) == Prepend(done + [e], rest)
  {
    if rest.Ok? { assert done + ([e] + rest.value) == (done + [e]) + rest.value; }
  }

  method FromBytes(data: seq<u8>) returns (r: Parsed<PeerList>)
    ensures r == ParseList(data)
  {
    if |data| < 9 {
      return Err;
    }
    var session, count := data[..8], data[8];
    var offset, i := 9, 0;
    var peers: seq<Entry> := [];
    ghost var whole := ParseEntries(data, 9, count);
    assert whole == Prepend([], whole) by { assert whole.Ok? ==> [] + whole.value == whole.value; }
    while i < count
      invariant i <= count && 9 <= offset <= |data|
      invariant whole == Prepend(peers, ParseEntries(data, offset, count - i))
    {
      var e := ReadEntry(data, offset);
      if e.Err? {
        return Err;
      }
      if e.Panic? {
        return Panic;
      }
      PrependOne(peers, e.value, ParseEntries(data, e.next, count - i - 1));
      peers := peers + [e.value];
      offset := e.next;
      i := i + 1;
    }
    assert peers + [] == peers;
    r := Ok(PeerList(session, peers), offset);
  }

  // ---------------------------------------------------------------------
  // Round trips.
  // ---------------------------------------------------------------------

  /** The bytes b stand in the data at the given offset. */
  ghost predicate Stands(data: seq<u8>, at: nat, b: seq<u8>) {
    at + |b| <= |data| && data[at..at + |b|] == b
  }

  lemma StandsSplit(data: seq<u8>, at: nat, a: seq<u8>, b: seq<u8>)
    requires Stands(data, at, a + b)
    ensures Stands(data, at, a) && Stands(data, at + |a|, b)
  {
    assert data[at..at + |a|] == (a + b)[..|a|];
    assert data[at + |a|..at + |a| + |b|] == (a + b)[|a|..];
  }

  /** Record bytes at an offset: id, version, ip and port. */
  lemma RecordStands(data: seq<u8>, at: nat, id: u8, version: u8, ip: seq<u8>, port: u16)
    requires Stands(data, at, [id, version] + ip + Be16(port))
    ensures var o := at + 2;
            && data[at] == id && data[at + 1] == version && data[o..o + |ip|] == ip
            && FromBe16(data[o + |ip|], data[o + |ip| + 1]) == port
  {
    var b, n := [id, version] + ip + Be16(port), |ip|;
    hide Be16, FromBe16;
    assert forall k | 0 <= k < |b| :: data[at + k] == b[k];
    assert b[2..2 + n] == ip && b[2 + n] == Be16(port)[0] && b[3 + n] == Be16(port)[1];
    assert FromBe16(Be16(port)[0], Be16(port)[1]) == port by { Be16RoundTrip(port); }
  }

  lemma EntryRoundTrip(data: seq<u8>, at: nat, e: Entry)
    requires Stands(data, at, EntryBytes(e))
    ensures ParseEntry(data, at) == Ok(e, at + |EntryBytes(e)|)
  {
    hide Be16, FromBe16;
    match e.addr
    case V4(ip, port) => RecordStands(data, at, e.id, 4, ip, port);
    case V6(ip, port) => RecordStands(data, at, e.id, 6, ip, port);
  }

  lemma FirstEntries(es: seq<Entry>, n: nat)
    requires 0 < n <= |es|
    ensures es[..n][0] == es[0] && es[..n][1..] == es[1..][..n - 1]
    ensures EntriesBytes(es[..n]) == EntryBytes(es[0]) + EntriesBytes(es[1..][..n - 1])
  {
    hide EntryBytes;
  }

  lemma ParseFirst(data: seq<u8>, at: nat, es: seq<Entry>, next: nat, end: nat)
    requires es != [] && ParseEntry(data, at) == Ok(es[0], next) && ParseEntries(data, next, |es| - 1) == Ok(es[1..], end)
    ensures ParseEntries(data, at, |es|) == Ok(es, end)
  {
    hide ParseEntry;
    assert [es[0]] + es[1..] == es;
  }

  /** Parsing n entries of a printed list gives its first n entries, whatever follows. */
  lemma {:induction false} EntriesRoundTrip(data: seq<u8>, at: nat, es: seq<Entry>, n: nat)
    requires n <= |es| && Stands(data, at, EntriesBytes(es))
    ensures ParseEntries(data, at, n) == Ok(es[..n], at + |EntriesBytes(es[..n])|)
    decreases n
  {
    hide *;
    if n == 0 {
      NoEntries(data, at, es);
    } else {
      var b, rest, kept := EntryBytes(es[0]), es[1..], es[..n];
      FirstEntries(es, n);
      EntriesUnfold(es);
      StandsSplit(data, at, b, EntriesBytes(rest));
      EntryRoundTrip(data, at, es[0]);
      EntriesRoundTrip(data, at + |b|, rest, n - 1);
      ParseFirst(data, at, kept, at + |b|, at + |EntriesBytes(kept)|);
    }
  }

  lemma NoEntries(data: seq<u8>, at: nat, es: seq<Entry>)
    ensures ParseEntries(data, at, 0) == Ok(es[..0], at + |EntriesBytes(es[..0])|)
  {
  }

  lemma EntriesUnfold(es: seq<Entry>)
    requires es != []
    ensures EntriesBytes(es) == EntryBytes(es[0]) + EntriesBytes(es[1..])
  {
    hide EntryBytes;
  }

  /**
   * Every list, any trailing bytes: parsing gives back the session and the first
   * (length mod 256) peers, consuming exactly their bytes.
   */
  lemma ListRoundTrip(p: PeerList, tail: seq<u8>)
    ensures var kept := p.peers[..|p.peers| % 0x100];
            ParseList(ListBytes(p) + tail) ==
            Ok(PeerList(p.session, kept), 9 + |EntriesBytes(kept)|)
  {
    var data := ListBytes(p) + tail;
    assert Stands(data, 9, EntriesBytes(p.peers));
    EntriesRoundTrip(data, 9, p.peers, |p.peers| % 0x100);
    assert data[..8] == p.session && data[8] == |p.peers| % 0x100;
    hide EntriesBytes, ParseEntries;
  }

  /** So a list survives the wire exactly when it has at most 255 entries. */
  lemma SurvivesExactly(p: PeerList, tail: seq<u8>)
    ensures ParseList(ListBytes(p) + tail) == Ok(p, |ListBytes(p)|) <==> |p.peers| <= 255
  {
    ListLength(p);
    ListRoundTrip(p, tail);
    KeptWhole(p);
    hide *;
  }

  lemma KeptWhole(p: PeerList)
    ensures var kept := p.peers[..|p.peers| % 0x100];
            PeerList(p.session, kept) == p <==> |p.peers| <= 255
  {
    var kept := p.peers[..|p.peers| % 0x100];
    if |p.peers| <= 255 { assert kept == p.peers; } else { assert |kept| < |p.peers|; }
  }

  lemma ListLength(p: PeerList)
    ensures |ListBytes(p)| == 9 + |EntriesBytes(p.peers)|
  {
    hide EntriesBytes;
  }

  lemma EntryReprints(data: seq<u8>, at: nat)
    requires ParseEntry(data, at).Ok?
    ensures EntryBytes(ParseEntry(data, at).value) == data[at..ParseEntry(data, at).next]
  {
    var end := ParseEntry(data, at).next;
    var hi, lo := data[end - 2], data[end - 1];
    BytesOfFromBe(hi, lo, hi, lo);
    RecordParts(data, at, end);
    hide Be16, FromBe16;
  }

  lemma RecordParts(data: seq<u8>, at: nat, end: nat)
    requires at + 4 <= end <= |data|
    ensures data[at..end] == [data[at], data[at + 1]] + data[at + 2..end - 2] + [data[end - 2], data[end - 1]]
  {
  }

  /** A parse of entries is one entry and then a parse of the rest. */
  lemma ParseSplits(data: seq<u8>, at: nat, count: nat)
    requires count > 0 && ParseEntries(data, at, count).Ok?
    ensures var (first, all) := (ParseEntry(data, at), ParseEntries(data, at, count));
            && first.Ok?
            && var rest := ParseEntries(data, first.next, count - 1);
               && rest.Ok? && all.next == rest.next && |all.value| == 1 + |rest.value|
               && EntriesBytes(all.value) == EntryBytes(first.value) + EntriesBytes(rest.value)
  {
    var first := ParseEntry(data, at);
    var rest := ParseEntries(data, first.next, count - 1);
    assert rest.Ok?;
    FirstAndRest(first.value, rest.value);
    hide ParseEntry, EntryBytes, EntriesBytes;
  }

  lemma {:induction false} EntriesReprint(data: seq<u8>, at: nat, count: nat)
    requires at <= |data| && ParseEntries(data, at, count).Ok?
    ensures EntriesBytes(ParseEntries(data, at, count).value)
            == data[at..ParseEntries(data, at, count).next]
    ensures |ParseEntries(data, at, count).value| == count
    decreases count
  {
    hide *;
    if count == 0 {
      NoneParsed(data, at);
    } else {
      ParseSplits(data, at, count);
      var next := ParseEntry(data, at).next;
      EntryReprints(data, at);
      EntriesReprint(data, next, count - 1);
      Joined(data, at, next, ParseEntries(data, next, count - 1).next);
    }
  }

  lemma NoneParsed(data: seq<u8>, at: nat)
    requires at <= |data|
    ensures ParseEntries(data, at, 0) == Ok([], at) && EntriesBytes([]) == data[at..at]
  {
  }

  lemma FirstAndRest(e: Entry, rest: seq<Entry>)
    ensures EntriesBytes([e] + rest) == EntryBytes(e) + EntriesBytes(rest)
  {
    assert ([e] + rest)[1..] == rest;
  }

  lemma Joined(data: seq<u8>, i: nat, j: nat, k: nat)
    requires i <= j <= k <= |data|
    ensures data[i..j] + data[j..k] == data[i..k]
  {
  }

  lemma FrontParts(data: seq<u8>, end: nat)
    requires 9 <= end <= |data|
    ensures data[..8] + [data[8]] + data[9..end] == data[..end]
  {
  }

  /** Conversely, whatever parses prints back to exactly the bytes it consumed. */
  lemma ParsedListReprints(data: seq<u8>)
    requires ParseList(data).Ok?
    ensures ListBytes(ParseList(data).value) == data[..ParseList(data).next]
  {
    var r, list := ParseEntries(data, 9, data[8]), ParseList(data);
    EntriesReprint(data, 9, data[8]);
    assert 9 <= r.next <= |data|;
    hide ParseEntries, EntriesBytes;
    FrontParts(data, r.next);
    assert list.value.session == data[..8] && list.value.peers == r.value && list.next == r.next;
    hide ParseList;
  }

  /** From the offset on the data is n whole records and then exactly one byte. */
  predicate OneByteAfter(data: seq<u8>, at: nat, n: nat)
    decreases n
  {
    if n == 0 then at + 1 == |data|
    else
      && at + 1 < |data| && (data[at + 1] == 4 || data[at + 1] == 6)
      && OneByteAfter(data, at + RecordLength(data[at + 1]), n - 1)
  }

  /** Fewer than count records and then exactly one byte. */
  ghost predicate CutShort(data: seq<u8>, at: nat, count: nat) {
    exists n: nat :: n < count && OneByteAfter(data, at, n)
  }

  lemma PastTheEnd(data: seq<u8>, at: nat, n: nat)
    requires at >= |data|
    ensures !OneByteAfter(data, at, n)
  {
  }

  lemma CutShortStep(data: seq<u8>, at: nat, count: nat)
    requires count > 0 && at + 1 < |data| && (data[at + 1] == 4 || data[at + 1] == 6)
    ensures CutShort(data, at, count) <==> CutShort(data, at + RecordLength(data[at + 1]), count - 1)
  {
    var next := at + RecordLength(data[at + 1]);
    assert !OneByteAfter(data, at, 0);
    assert forall n: nat :: OneByteAfter(data, at, n + 1) <==> OneByteAfter(data, next, n);
    if CutShort(data, at, count) {
      var n: nat :| n < count && OneByteAfter(data, at, n);
      assert OneByteAfter(data, next, n - 1);
    }
  }

  /** A parse reads past the end exactly where whole records leave one byte over. */
  lemma {:induction false} EntriesPanic(data: seq<u8>, at: nat, count: nat)
    ensures ParseEntries(data, at, count).Panic? <==> CutShort(data, at, count)
    decreases count
  {
    if count > 0 {
      if at + 1 < |data| && (data[at + 1] == 4 || data[at + 1] == 6) {
        var next := at + RecordLength(data[at + 1]);
        CutShortStep(data, at, count);
        if next <= |data| {
          EntriesPanic(data, next, count - 1);
          assert ParseEntry(data, at).Ok? && ParseEntry(data, at).next == next;
          hide ParseEntry, CutShort;
        } else {
          forall n: nat ensures !OneByteAfter(data, next, n) { PastTheEnd(data, next, n); }
        }
      } else if at + 1 == |data| {
        assert OneByteAfter(data, at, 0);
      }
    }
  }

  /** Exactly the payloads that abort the parser: fewer records than announced, then one byte. */
  lemma PanicsExactly(data: seq<u8>)
    ensures ParseList(data).Panic? <==> |data| >= 9 && CutShort(data, 9, data[8])
  {
    if |data| >= 9 { EntriesPanic(data, 9, data[8]); }
    hide ParseEntries, CutShort;
  }
}
